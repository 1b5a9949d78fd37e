/**
 * The terrain plane mesh: an `n` by `n` grid of vertices, one per cell
 * centre of a square of side `horizontal_scale` centred on the origin,
 * each with a UV coordinate, and one quad patch (four indices) per cell
 * between neighbouring vertices. Both sequences are produced by two
 * nested `flat_map`s, x outer and y inner.
 */
module PlaneMesh {
  import opened Wrappers
  import opened RowMajor

  // ---------------------------------------------------------------
  // Vertices
  // ---------------------------------------------------------------

  /** A vertex: position in the horizontal plane and texture coordinate. */
  datatype Vertex = Vertex(x: real, y: real, u: real, v: real)

  /**
   * The centre of cell `i` along one axis:
   * `i * ps + ps / 2 - n * ps / 2` with `ps = scale / n`.
   */
  function CellCentre(i: nat, n: nat, scale: real): real
    requires n > 0
  {
    var ps := scale / n as real;
    i as real * ps + ps / 2.0 - n as real * ps / 2.0
  }

  /** The cell centres are symmetric about the origin. */
  lemma CentresSymmetric(i: nat, n: nat, scale: real)
    requires i < n
    ensures CellCentre(n - 1 - i, n, scale) == -CellCentre(i, n, scale)
  {
    var ps := scale / n as real;
    assert (n - 1 - i) as real * ps == n as real * ps - ps - i as real * ps;
  }

  /** Neighbouring centres are one cell, `scale / n`, apart. */
  lemma CentresEquallySpaced(i: nat, n: nat, scale: real)
    requires n > 0
    ensures CellCentre(i + 1, n, scale) - CellCentre(i, n, scale) == scale / n as real
  {
    var ps := scale / n as real;
    assert (i + 1) as real * ps == i as real * ps + ps;
  }

  /** The vertex emitted for grid coordinates (x, y). */
  function VertexAt(x: nat, y: nat, n: nat, scale: real): (v: Vertex)
    requires n > 0
    ensures v.u == x as real / n as real && v.v == y as real / n as real
  {
    Vertex(CellCentre(x, n, scale), CellCentre(y, n, scale), x as real / n as real, y as real / n as real)
  }

  /** A grid coordinate below `n` gives a texture coordinate in [0, 1). */
  lemma UvInUnitRange(x: nat, n: nat)
    requires x < n
    ensures 0.0 <= x as real / n as real < 1.0
  {
    assert x as real < n as real;
  }

  /** The inner `flat_map`: the vertices of column x, for y = 0 .. n-1. */
  function VertexColumn(x: nat, n: nat, scale: real): (r: seq<Vertex>)
    requires n > 0
    ensures |r| == n
  {
    seq(n, y requires 0 <= y < n => VertexAt(x, y, n, scale))
  }

  /** The outer `flat_map` over the first `k` columns. */
  function VertexGrid(k: nat, n: nat, scale: real): (r: seq<Vertex>)
    requires n > 0
    ensures |r| == Area(k, n)
  {
    if k == 0 then [] else VertexGrid(k - 1, n, scale) + VertexColumn(k - 1, n, scale)
  }

  /** The vertex of (x, y) sits at position `x * n + y`. */
  lemma {:induction false} VertexGridAt(k: nat, n: nat, scale: real, x: nat, y: nat)
    requires n > 0 && x < k && y < n
    ensures At(x, y, n) < Area(k, n)
    ensures VertexGrid(k, n, scale)[At(x, y, n)] == VertexAt(x, y, n, scale)
  {
    if x < k - 1 {
      VertexGridAt(k - 1, n, scale, x, y);
    }
  }

  /** The `f32` list: four floats per vertex, in order. */
  function FlattenVertices(vs: seq<Vertex>): (r: seq<real>)
    ensures |r| == 4 * |vs|
  {
    if |vs| == 0 then []
    else [vs[0].x, vs[0].y, vs[0].u, vs[0].v] + FlattenVertices(vs[1..])
  }

  /** The four floats of vertex k start at position 4k. */
  lemma {:induction false} FlattenVerticesAt(vs: seq<Vertex>, k: nat)
    requires k < |vs|
    ensures FlattenVertices(vs)[4 * k..4 * k + 4] == [vs[k].x, vs[k].y, vs[k].u, vs[k].v]
  {
    if k > 0 {
      FlattenVerticesAt(vs[1..], k - 1);
      assert vs[1..][k - 1] == vs[k];
    }
  }

  /** The vertex list `generate` builds for a resolution of `n`. */
  function Vertices(n: nat, scale: real): (r: seq<real>)
    requires n > 0
  {
    FlattenVertices(VertexGrid(n, n, scale))
  }

  /** There are `n * n` vertices of four floats each. */
  lemma VertexCount(n: nat, scale: real)
    requires n > 0
    ensures |Vertices(n, scale)| == 4 * n * n
  {
    AreaIsProduct(n, n);
  }

  /**
   * Vertex (x, y) is the `x * n + y`-th: its position is the centre of
   * cell (x, y) and its texture coordinate is (x / n, y / n), in [0, 1).
   */
  lemma VertexLayout(n: nat, scale: real, x: nat, y: nat)
    requires x < n && y < n
    ensures 4 * At(x, y, n) + 4 <= |Vertices(n, scale)|
    ensures Vertices(n, scale)[4 * At(x, y, n)..4 * At(x, y, n) + 4]
            == [CellCentre(x, n, scale), CellCentre(y, n, scale), x as real / n as real, y as real / n as real]
    ensures 0.0 <= x as real / n as real < 1.0 && 0.0 <= y as real / n as real < 1.0
  {
    VertexGridAt(n, n, scale, x, y);
    FlattenVerticesAt(VertexGrid(n, n, scale), At(x, y, n));
    UvInUnitRange(x, n);
    UvInUnitRange(y, n);
  }

  // ---------------------------------------------------------------
  // Indices
  // ---------------------------------------------------------------

  /** The four indices of one patch. */
  datatype Quad = Quad(a: nat, b: nat, c: nat, d: nat)

  /**
   * The patch emitted for (x, y) with `base = x + y * n`:
   * `[base, base + n, base + n + 1, base + 1]`.
   */
  function QuadAt(x: nat, y: nat, n: nat): (q: Quad)
    requires n > 0
  {
    var base := x + y * n;
    Quad(base, base + n, base + n + 1, base + 1)
  }

  /** Once there is a patch at all (`n >= 2`), its four indices are distinct. */
  lemma QuadDistinct(x: nat, y: nat, n: nat)
    requires n > 1
    ensures var q := QuadAt(x, y, n);
            q.a != q.b && q.a != q.c && q.a != q.d && q.b != q.c && q.b != q.d && q.c != q.d
  {
  }

  /**
   * The base of patch (x, y) is vertex (y, x): the index list walks the
   * grid transposed relative to the vertex order.
   */
  lemma QuadBaseTransposed(x: nat, y: nat, n: nat)
    requires n > 0
    ensures QuadAt(x, y, n).a == At(y, x, n)
  {
    AreaIsProduct(y, n);
  }

  /** All four indices of a patch lie below `bound`. */
  predicate QuadBelow(q: Quad, bound: nat) {
    q.a < bound && q.b < bound && q.c < bound && q.d < bound
  }

  /** Every patch of `qs` lies below `bound`. */
  predicate AllBelow(qs: seq<Quad>, bound: nat) {
    forall i :: 0 <= i < |qs| ==> QuadBelow(qs[i], bound)
  }

  /** Every patch of a grid of `n` vertices a side indexes an existing vertex. */
  lemma QuadWithinGrid(x: nat, y: nat, n: nat)
    requires x + 1 < n && y + 1 < n
    ensures QuadBelow(QuadAt(x, y, n), Area(n, n))
  {
    QuadBaseTransposed(x, y, n);
    AreaMono(y + 2, n, n);
  }

  /** The inner `flat_map` of the indices: patches of column x, for y = 0 .. w-1. */
  function QuadColumn(x: nat, w: nat, n: nat): (r: seq<Quad>)
    requires n > 0
    ensures |r| == w
  {
    seq(w, y requires 0 <= y < w => QuadAt(x, y, n))
  }

  /** The outer `flat_map` of the indices over the first `k` columns. */
  function QuadGrid(k: nat, w: nat, n: nat): (r: seq<Quad>)
    requires n > 0
    ensures |r| == Area(k, w)
  {
    if k == 0 then [] else QuadGrid(k - 1, w, n) + QuadColumn(k - 1, w, n)
  }

  /** The patch of (x, y) is the `x * w + y`-th. */
  lemma {:induction false} QuadGridAt(k: nat, w: nat, n: nat, x: nat, y: nat)
    requires n > 0 && x < k && y < w
    ensures At(x, y, w) < Area(k, w)
    ensures QuadGrid(k, w, n)[At(x, y, w)] == QuadAt(x, y, n)
  {
    if x < k - 1 {
      QuadGridAt(k - 1, w, n, x, y);
    }
  }

  /** Every patch of the first `k <= n - 1` columns stays below `n * n`. */
  lemma {:induction false} QuadGridBelow(k: nat, n: nat)
    requires n > 0 && k <= n - 1
    ensures AllBelow(QuadGrid(k, n - 1, n), Area(n, n))
  {
    if k > 0 {
      QuadGridBelow(k - 1, n);
      var g, col := QuadGrid(k - 1, n - 1, n), QuadColumn(k - 1, n - 1, n);
      forall y | 0 <= y < n - 1
        ensures QuadBelow(col[y], Area(n, n))
      {
        QuadWithinGrid(k - 1, y, n);
      }
      assert QuadGrid(k, n - 1, n) == g + col;
    }
  }

  /** The `u32` index list: four indices per patch, in order. */
  function FlattenQuads(qs: seq<Quad>): (r: seq<nat>)
    ensures |r| == 4 * |qs|
  {
    if |qs| == 0 then []
    else [qs[0].a, qs[0].b, qs[0].c, qs[0].d] + FlattenQuads(qs[1..])
  }

  /** The four indices of patch k start at position 4k. */
  lemma {:induction false} FlattenQuadsAt(qs: seq<Quad>, k: nat)
    requires k < |qs|
    ensures FlattenQuads(qs)[4 * k..4 * k + 4] == [qs[k].a, qs[k].b, qs[k].c, qs[k].d]
  {
    if k > 0 {
      FlattenQuadsAt(qs[1..], k - 1);
      assert qs[1..][k - 1] == qs[k];
    }
  }

  /** Flattening keeps every index below a bound every patch respects. */
  lemma {:induction false} FlattenQuadsBelow(qs: seq<Quad>, bound: nat)
    requires AllBelow(qs, bound)
    ensures forall j :: 0 <= j < |FlattenQuads(qs)| ==> FlattenQuads(qs)[j] < bound
  {
    if |qs| > 0 {
      FlattenQuadsBelow(qs[1..], bound);
      assert QuadBelow(qs[0], bound);
    }
  }

  /** The index list `generate` builds for a resolution of `n`. */
  function Indices(n: nat): (r: seq<nat>)
    requires n > 0
  {
    FlattenQuads(QuadGrid(n - 1, n - 1, n))
  }

  /** `index_count`: `w * w * 4` with `w = n - 1`. */
  function IndexCount(n: nat): nat
    requires n > 0
  {
    (n - 1) * (n - 1) * 4
  }

  /** The index list holds `index_count` indices, each naming one of the `n * n` vertices. */
  lemma IndicesInRange(n: nat)
    requires n > 0
    ensures |Indices(n)| == IndexCount(n)
    ensures forall j :: 0 <= j < |Indices(n)| ==> Indices(n)[j] < n * n
  {
    AreaIsProduct(n - 1, n - 1);
    AreaIsProduct(n, n);
    QuadGridBelow(n - 1, n);
    FlattenQuadsBelow(QuadGrid(n - 1, n - 1, n), Area(n, n));
  }

  /** Patch (x, y) is the `x * (n - 1) + y`-th group of four indices. */
  lemma IndexLayout(n: nat, x: nat, y: nat)
    requires x + 1 < n && y + 1 < n
    ensures 4 * At(x, y, n - 1) + 4 <= |Indices(n)|
    ensures var q := QuadAt(x, y, n);
            Indices(n)[4 * At(x, y, n - 1)..4 * At(x, y, n - 1) + 4] == [q.a, q.b, q.c, q.d]
  {
    QuadGridAt(n - 1, n - 1, n, x, y);
    FlattenQuadsAt(QuadGrid(n - 1, n - 1, n), At(x, y, n - 1));
  }

  // ---------------------------------------------------------------
  // Generation
  // ---------------------------------------------------------------

  /** The mesh data of a `TerrainPlane` before upload. */
  datatype Mesh = Mesh(vertices: seq<real>, indices: seq<nat>, indexCount: nat)

  /** `index_count` fits a `u32` (`w * w * 4` does not overflow). */
  predicate IndexCountFits(n: nat) {
    n > 0 && (n - 1) * (n - 1) * 4 <= U32_MAX
  }

  /**
   * `TerrainPlane::generate` up to the upload. With `n == 0` the `u32`
   * subtraction `n - 1` overflows; with `w * w * 4` above `u32::MAX` the
   * index arithmetic overflows. Both panic in a debug build.
   */
  function Generate(n: nat, scale: real): (r: Run<Mesh>)
    ensures r.Panics? <==> !IndexCountFits(n)
    ensures r.Returns? ==>
              |r.value.vertices| == 4 * n * n
              && |r.value.indices| == r.value.indexCount == 4 * (n - 1) * (n - 1)
              && forall j :: 0 <= j < |r.value.indices| ==> r.value.indices[j] < n * n
  {
    if n == 0 then Panics("attempt to subtract with overflow")
    else if !IndexCountFits(n) then Panics("attempt to multiply with overflow")
    else
      VertexCount(n, scale);
      IndicesInRange(n);
      Returns(Mesh(Vertices(n, scale), Indices(n), IndexCount(n)))
  }
}
