/**
 * The terrain mesh of the older renderer: `TerrainPlane::generate` builds the
 * vertex and index lists of a square grid (see `PlaneMesh`) and uploads
 * them; the mesh records how many indices to draw.
 */
module GfxTerrainPlane {
  import opened Wrappers
  import PlaneMesh

  /** The part of the world state's terrain options that shapes the mesh. */
  datatype TerrainOptions = TerrainOptions(patchResolution: nat, horizontalScale: real)

  /** `TerrainPlane`: the uploaded vertex and index buffers and the index count. */
  datatype TerrainPlane = TerrainPlane(vertices: seq<real>, indices: seq<nat>, indexCount: nat)

  /**
   * `TerrainPlane::generate` up to the upload: `n * n` vertices of four
   * floats and `4 * (n - 1)^2` indices, each naming a vertex, with
   * `index_count` equal to the number of indices.
   */
  function Generate(options: TerrainOptions): (r: Run<TerrainPlane>)
    ensures var n := options.patchResolution;
            (r.Panics? <==> n == 0 || 4 * (n - 1) * (n - 1) > U32_MAX)
            && (r.Returns? ==>
                  |r.value.vertices| == 4 * n * n
                  && |r.value.indices| == r.value.indexCount == 4 * (n - 1) * (n - 1)
                  && forall j :: 0 <= j < |r.value.indices| ==> r.value.indices[j] < n * n)
  {
    match PlaneMesh.Generate(options.patchResolution, options.horizontalScale)
    case Panics(reason) => Panics(reason)
    case Returns(mesh) => Returns(TerrainPlane(mesh.vertices, mesh.indices, mesh.indexCount))
  }
}
