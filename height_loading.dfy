/**
 * The heightmap import pipeline shared by the loaders: decoded samples
 * are written into a staging buffer of one half-float per texel,
 * normalised, and uploaded as an image of the decoded size.
 */
module HeightLoading {
  import opened Wrappers
  import opened HeightNormalization

  /** `ImageBuffer<Luma<u16>>`: a decoded greyscale image, row by row. */
  datatype Luma16Image = Luma16Image(width: nat, height: nat, pixels: seq<int>)

  /** What an image decoder guarantees: one 16-bit sample per texel. */
  predicate WellFormed(img: Luma16Image) {
    |img.pixels| == img.width * img.height
    && forall i :: 0 <= i < |img.pixels| ==> 0 <= img.pixels[i] < 0x1_0000
  }

  /** `size_of::<f16>()`. */
  const F16_BYTES: nat := 2

  /** The size in bytes of the staging buffer for a `width` by `height` image. */
  function StagingBytes(width: nat, height: nat): (bytes: nat)
    ensures bytes == F16_BYTES * (width * height)
  {
    F16_BYTES * width * height
  }

  /** The texels that reach the GPU: normalised samples, or NaN in every texel. */
  datatype HeightTexels = Samples(values: seq<real>) | NaNEverywhere(count: nat)

  /** An uploaded `R16_SFLOAT` heightmap image. */
  datatype HeightImage = HeightImage(width: nat, height: nat, texels: HeightTexels)

  /** Integer samples converted to floating point (`*src as f32`). */
  function ToReals(xs: seq<int>): (r: seq<real>)
    ensures |r| == |xs|
    ensures forall i :: 0 <= i < |xs| ==> r[i] == xs[i] as real
  {
    seq(|xs|, i requires 0 <= i < |xs| => xs[i] as real)
  }

  /** The texels `normalize_height` leaves behind on a non-empty slice. */
  function NormalizedTexels(s: seq<real>): (t: HeightTexels)
    requires |s| > 0
    ensures t.NaNEverywhere? <==> MaxAbs(s) == 0.0
    ensures t.NaNEverywhere? ==> t.count == |s|
    ensures t.Samples? ==> |t.values| == |s|
  {
    if MaxAbs(s) == 0.0 then NaNEverywhere(|s|) else Samples(NormalizedSamples(s))
  }

  /** Every texel of a normalised heightmap lies in [-1, 1]. */
  lemma TexelsWithinUnit(s: seq<real>)
    requires |s| > 0 && NormalizedTexels(s).Samples?
    ensures forall i :: 0 <= i < |s| ==> -1.0 <= NormalizedTexels(s).values[i] <= 1.0
  {
    NormalizedWithinUnit(s);
  }

  /** The texels reached from the samples of a decoded image. */
  function LoadedTexels(img: Luma16Image): (r: Run<HeightTexels>)
    requires WellFormed(img)
    ensures r.Panics? <==> |img.pixels| == 0
  {
    if |img.pixels| == 0 then Panics("called `Option::unwrap()` on a `None` value")
    else Returns(NormalizedTexels(ToReals(img.pixels)))
  }

  /**
   * A 16-bit greyscale image has no negative samples, so its normalised
   * texels lie in [0, 1], and the brightest one becomes exactly 1.
   */
  lemma GreyscaleWithinUnitInterval(img: Luma16Image)
    requires WellFormed(img) && |img.pixels| > 0
    requires LoadedTexels(img).value.Samples?
    ensures var t := LoadedTexels(img).value.values;
            (forall i :: 0 <= i < |t| ==> 0.0 <= t[i] <= 1.0)
            && exists i :: 0 <= i < |t| && t[i] == 1.0
  {
    var s := ToReals(img.pixels);
    var t := NormalizedSamples(s);
    NormalizedWithinUnit(s);
    SignsPreserved(s);
    ExtremeBecomesUnit(s);
    var k :| 0 <= k < |s| && Abs(t[k]) == 1.0;
    assert s[k] >= 0.0;
  }

  /** The `zip` of staging slots with decoded samples: each slot receives its sample. */
  method ConvertInto(dst: array<real>, src: seq<int>)
    modifies dst
    ensures dst[..] == ToReals(src)[..Min(dst.Length, |src|)] + old(dst[..])[Min(dst.Length, |src|)..]
  {
    var n := Min(dst.Length, |src|);
    var i := 0;
    while i < n
      invariant 0 <= i <= n
      invariant forall j :: 0 <= j < i ==> dst[j] == src[j] as real
      invariant forall j :: i <= j < dst.Length ==> dst[j] == old(dst[j])
    {
      dst[i] := src[i] as real;
      i := i + 1;
    }
    assert dst[..] == ToReals(src)[..n] + old(dst[..])[n..];
  }

  function Min(a: nat, b: nat): nat {
    if a < b then a else b
  }

  /**
   * What the GPU side answers a loader: allocating the staging buffer,
   * mapping it (every `mapped_slice` of the one buffer gives the same
   * answer) and uploading it into an image.
   */
  datatype Staging = Staging(alloc: Result<Unit>, mapped: Result<Unit>, upload: Result<Unit>)

  /**
   * `r` is what staging and uploading `img` gives under the answers
   * `gpu`: an allocation or mapping error is returned before anything is
   * written; normalising panics exactly for an image without pixels;
   * otherwise the upload error, or the image at its own size holding the
   * normalised texels.
   */
  ghost predicate StagedAs(img: Luma16Image, gpu: Staging, r: Run<Result<HeightImage>>)
    requires WellFormed(img)
  {
    && (gpu.alloc.Err? ==> r == Returns(Err(gpu.alloc.message)))
    && (gpu.alloc.Ok? && gpu.mapped.Err? ==> r == Returns(Err(gpu.mapped.message)))
    && (gpu.alloc.Ok? && gpu.mapped.Ok? ==> (r.Panics? <==> |img.pixels| == 0))
    && (gpu.alloc.Ok? && gpu.mapped.Ok? && r.Returns? ==>
          |img.pixels| > 0
          && r.value == if gpu.upload.Err? then Err(gpu.upload.message)
                        else Ok(HeightImage(img.width, img.height, LoadedTexels(img).value)))
  }

  /**
   * Staging, normalising and uploading a decoded image, as both image
   * loaders do: a buffer of `width * height` half-floats receives the
   * samples, is normalised in place and is uploaded.
   */
  method StageImage(img: Luma16Image, gpu: Staging) returns (r: Run<Result<HeightImage>>)
    requires WellFormed(img)
    ensures StagedAs(img, gpu, r)
  {
    if gpu.alloc.Err? {
      return Returns(Err(gpu.alloc.message));
    }
    if gpu.mapped.Err? {
      return Returns(Err(gpu.mapped.message));
    }
    var staging := new real[StagingBytes(img.width, img.height) / F16_BYTES];
    ConvertInto(staging, img.pixels);
    assert staging[..] == ToReals(img.pixels);
    var outcome := NormalizeInPlace(staging);
    match outcome
    case PanicsOnEmpty =>
      r := Panics("called `Option::unwrap()` on a `None` value");
    case AllNaN =>
      r := if gpu.upload.Err? then Returns(Err(gpu.upload.message))
           else Returns(Ok(HeightImage(img.width, img.height, NaNEverywhere(staging.Length))));
    case Normalized(_) =>
      r := if gpu.upload.Err? then Returns(Err(gpu.upload.message))
           else Returns(Ok(HeightImage(img.width, img.height, Samples(staging[..]))));
  }
}
