/**
 * The texture-based heightmap asset of the `assets` crate: a greyscale
 * half-float texture loaded from a path, with `normalize_height`
 * installed as the CPU post-process that runs on the decoded pixels
 * before upload.
 */
module AssetsHeightmap {
  import opened Wrappers
  import opened HeightNormalization

  /**
   * `normalize_height(_width, _height, data)` over `LumaPixel<f16>`
   * pixels (each pixel is its one grey value). The image size is not
   * consulted; the result is `Ok` whenever the function does not panic.
   */
  method NormalizeHeight(width: nat, height: nat, data: array<real>) returns (r: Run<Result<Unit>>)
    modifies data
    ensures r.Panics? <==> data.Length == 0
    ensures r.Returns? ==> r.value == Ok(Unit)
    ensures data.Length > 0 && MaxAbs(old(data[..])) > 0.0 ==>
              data[..] == NormalizedSamples(old(data[..]))
    ensures data.Length == 0 || MaxAbs(old(data[..])) == 0.0 ==> data[..] == old(data[..])
  {
    var outcome := NormalizeInPlace(data);
    if outcome == PanicsOnEmpty {
      return Panics("called `Option::unwrap()` on a `None` value");
    }
    r := Returns(Ok(Unit));
  }

  /** The CPU post-processing step a texture load may carry. */
  datatype CpuPostprocess = NormalizeHeightStep

  /** `TextureLoadInfo::FromPath { path, cpu_postprocess }`. */
  datatype TextureLoadInfo = FromPath(path: string, cpuPostprocess: Option<CpuPostprocess>)

  /** The texture request `load_from_image` makes for a heightmap path. */
  function HeightmapTextureInfo(path: string): (info: TextureLoadInfo)
    ensures info.path == path
    ensures info.cpuPostprocess == Some(NormalizeHeightStep)
  {
    FromPath(path, Some(NormalizeHeightStep))
  }
}
