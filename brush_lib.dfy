/**
 * The brush system: a click in the world view sends the world position
 * under the cursor to a brush task, which converts it into heightmap UV
 * coordinates when it lies on the terrain.
 */
module BrushLib {
  import opened Wrappers
  import opened Geometry
  import BrushUtil

  /** The terrain's bounds in the horizontal plane (`TerrainOptions::{min,max}_{x,y}`). */
  datatype TerrainExtent = TerrainExtent(minX: real, maxX: real, minY: real, maxY: real)

  /** `BrushEvent`. */
  datatype BrushEvent = ClickPos(position: FloatVec3)

  /** What one brush use amounted to: skipped off the terrain, or the UV it would apply at. */
  datatype BrushUse = Skipped | AtUv(uv: FloatVec2)

  /**
   * `a / b` in floating point for finite operands: a zero divisor gives
   * NaN for `0 / 0` and a signed infinity otherwise. (`max - min` of equal
   * bounds is `+0.0`.)
   */
  function Divide(a: real, b: real): (r: Float)
    ensures b != 0.0 ==> r.Finite? && r.value * b == a
    ensures b == 0.0 ==> !r.Finite?
  {
    if b != 0.0 then Finite(a / b)
    else if a == 0.0 then NaN
    else Infinity(a < 0.0)
  }

  /** `f + c` for a finite `c`: NaN and infinities absorb it. */
  function AddConst(f: Float, c: real): Float {
    match f
    case Finite(v) => Finite(v + c)
    case _ => f
  }

  /**
   * `height_uv_at`: `(x / dx, z / dy) + 0.5` with `dx = max_x - min_x` and
   * `dy = max_y - min_y`; the world's up coordinate `y` is ignored.
   */
  function HeightUvAt(worldPos: Vec3, extent: TerrainExtent): (uv: FloatVec2)
    ensures extent.maxX != extent.minX ==> uv.u.Finite? && (uv.u.value - 0.5) * (extent.maxX - extent.minX) == worldPos.x
    ensures extent.maxY != extent.minY ==> uv.v.Finite? && (uv.v.value - 0.5) * (extent.maxY - extent.minY) == worldPos.z
    ensures extent.maxX == extent.minX ==> !uv.u.Finite?
    ensures extent.maxY == extent.minY ==> !uv.v.Finite?
  {
    var dx := extent.maxX - extent.minX;
    var dy := extent.maxY - extent.minY;
    FloatVec2(AddConst(Divide(worldPos.x, dx), 0.5), AddConst(Divide(worldPos.z, dy), 0.5))
  }

  /** A terrain of non-zero extent in both directions. */
  predicate NonDegenerate(extent: TerrainExtent) {
    extent.maxX != extent.minX && extent.maxY != extent.minY
  }

  /** The world origin maps to the centre of the heightmap, whatever its height. */
  lemma OriginMapsToCentre(y: real, extent: TerrainExtent)
    requires NonDegenerate(extent)
    ensures HeightUvAt(Vec3(0.0, y, 0.0), extent) == FloatVec2(Finite(0.5), Finite(0.5))
  {
  }

  /** The up coordinate does not matter. */
  lemma IgnoresHeight(p: Vec3, y: real, extent: TerrainExtent)
    ensures HeightUvAt(p, extent) == HeightUvAt(Vec3(p.x, y, p.z), extent)
  {
  }

  /** For positive extents the map is strictly increasing, and the half-extents map to 0 and 1. */
  lemma UvIncreasingAndEdges(p: Vec3, q: Vec3, extent: TerrainExtent)
    requires extent.maxX > extent.minX && extent.maxY > extent.minY
    ensures p.x < q.x ==> HeightUvAt(p, extent).u.value < HeightUvAt(q, extent).u.value
    ensures p.z < q.z ==> HeightUvAt(p, extent).v.value < HeightUvAt(q, extent).v.value
    ensures var dx := extent.maxX - extent.minX;
            HeightUvAt(Vec3(dx / 2.0, p.y, p.z), extent).u == Finite(1.0)
            && HeightUvAt(Vec3(-dx / 2.0, p.y, p.z), extent).u == Finite(0.0)
  {
    var dx := extent.maxX - extent.minX;
    var dy := extent.maxY - extent.minY;
    if p.x < q.x {
      assert p.x / dx < q.x / dx by { DivMonotone(p.x, q.x, dx); }
    }
    if p.z < q.z {
      assert p.z / dy < q.z / dy by { DivMonotone(p.z, q.z, dy); }
    }
    assert (dx / 2.0) / dx == 0.5;
    assert (-dx / 2.0) / dx == -0.5;
  }

  lemma DivMonotone(a: real, b: real, d: real)
    requires a < b && d > 0.0
    ensures a / d < b / d
  {
    assert b / d - a / d == (b - a) / d;
  }

  /**
   * `use_brush_at_position`: a position with a NaN or infinite component is
   * skipped before the world is read; otherwise its UV is computed. The
   * function returns `Ok(())` either way.
   */
  function UseBrushAtPosition(position: FloatVec3, extent: TerrainExtent): (r: BrushUse)
    ensures r.Skipped? <==> !BrushUtil.PositionOnTerrain(position)
    ensures r.AtUv? ==> r.uv == HeightUvAt(ToVec3(position), extent)
  {
    if IsNan(position) || !IsFinite(position) then Skipped
    else AtUv(HeightUvAt(ToVec3(position), extent))
  }

  /**
   * `handle_click_world_view`: a click sends `ClickPos` of the world
   * position under the cursor if there is one, and nothing otherwise.
   * Sending on a closed channel fails.
   */
  function HandleClickWorldView(worldSpace: Option<FloatVec3>, channelOpen: bool): (r: Result<seq<BrushEvent>>)
    ensures worldSpace.None? ==> r == Ok([])
    ensures worldSpace.Some? ==> (r.Ok? <==> channelOpen)
    ensures r.Ok? && worldSpace.Some? ==> r.value == [ClickPos(worldSpace.value)]
  {
    match worldSpace
    case None => Ok([])
    case Some(pos) => if channelOpen then Ok([ClickPos(pos)]) else Err("channel closed")
  }

  /**
   * `brush_task`: handle every received event in order until the sender is
   * dropped; errors of a brush use are logged and do not stop the loop.
   */
  method BrushTask(received: seq<BrushEvent>, extent: TerrainExtent) returns (uses: seq<BrushUse>)
    ensures |uses| == |received|
    ensures forall i :: 0 <= i < |received| ==> uses[i] == UseBrushAtPosition(received[i].position, extent)
  {
    uses := [];
    var i := 0;
    while i < |received|
      invariant 0 <= i <= |received| && |uses| == i
      invariant forall k :: 0 <= k < i ==> uses[k] == UseBrushAtPosition(received[k].position, extent)
    {
      match received[i]
      case ClickPos(position) =>
        uses := uses + [UseBrushAtPosition(position, extent)];
      i := i + 1;
    }
  }
}
