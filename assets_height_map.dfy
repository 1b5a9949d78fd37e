/**
 * The heightmap asset of the `assets` crate: a buffer is decoded when
 * its file type is PNG, staged as half-floats, normalised to [-1, 1] and
 * uploaded; any other file type is refused. The crate also carries an
 * in-place vertical flip of an image held row by row.
 */
module AssetsHeightMap {
  import opened Wrappers
  import opened HeightNormalization
  import opened HeightLoading
  import RowFlip
  import opened UtilFileType

  /** `normalize_height` on the staging slice. */
  method NormalizeHeight(data: array<real>) returns (outcome: Normalization)
    modifies data
    ensures outcome == PanicsOnEmpty <==> data.Length == 0
    ensures outcome == AllNaN <==> data.Length > 0 && MaxAbs(old(data[..])) == 0.0
    ensures outcome.Normalized? ==> data[..] == NormalizedSamples(old(data[..]))
    ensures !outcome.Normalized? ==> data[..] == old(data[..])
  {
    outcome := NormalizeInPlace(data);
  }

  /** `flip_image_vertical(data, row_length)`. */
  method FlipImageVertical<T>(data: array<T>, rowLength: nat) returns (outcome: Run<Unit>)
    modifies data
    ensures outcome.Panics? <==> rowLength == 0
    ensures outcome.Panics? ==> data[..] == old(data[..])
    ensures outcome.Returns? ==> RowFlip.IsFlip(old(data[..]), data[..], rowLength)
    ensures multiset(data[..]) == multiset(old(data[..]))
  {
    outcome := RowFlip.FlipInPlace(data, rowLength);
  }

  /**
   * `HeightMap::load_image`, given what the decoder made of the buffer
   * and the GPU's answers `gpu`: a decoding error is returned as it is; a
   * decoded image is staged, normalised and uploaded at its own size.
   */
  method LoadImage(decoded: Result<Luma16Image>, gpu: Staging) returns (r: Run<Result<HeightImage>>)
    requires decoded.Ok? ==> WellFormed(decoded.value)
    ensures decoded.Err? ==> r == Returns(Err(decoded.message))
    ensures decoded.Ok? ==> StagedAs(decoded.value, gpu, r)
  {
    if decoded.Err? {
      return Returns(Err(decoded.message));
    }
    r := StageImage(decoded.value, gpu);
  }

  /** The error `from_buffer` gives for a file type it cannot decode: it names the extension. */
  function UnrecognizedError(ext: string): (msg: string)
    ensures |msg| == |ext| + 24 && msg[23..|msg| - 1] == ext
  {
    "Unrecognized file type " + ext + "."
  }

  /** `HeightMap::from_buffer`: only PNG buffers are decoded. */
  method FromBuffer(ty: FileType, decoded: Result<Luma16Image>, gpu: Staging) returns (r: Run<Result<HeightImage>>)
    requires decoded.Ok? ==> WellFormed(decoded.value)
    ensures ty.Unknown? ==> r == Returns(Err(UnrecognizedError(ty.ext)))
    ensures ty.Png? && decoded.Err? ==> r == Returns(Err(decoded.message))
    ensures ty.Png? && decoded.Ok? ==> StagedAs(decoded.value, gpu, r)
  {
    match ty
    case Png => r := LoadImage(decoded, gpu);
    case Unknown(ext) => r := Returns(Err(UnrecognizedError(ext)));
  }
}
