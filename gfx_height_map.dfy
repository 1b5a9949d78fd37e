/**
 * The heightmap resource of the older renderer. PNG buffers are decoded,
 * staged and normalised like the asset crate's; NetCDF files are read by
 * path: the first two-dimensional variable supplies `i16` samples, the
 * rows are flipped in place (the data is stored upside down), and the
 * samples are converted and normalised.
 */
module GfxHeightMap {
  import opened Wrappers
  import opened HeightNormalization
  import opened HeightLoading
  import RowFlip
  import RowMajor

  /** `height_map::FileType`: the file types `from_buffer` distinguishes. */
  datatype FileType = Png | NetCDF | Unknown

  /** `alloc_staging_buffer`: one half-float per texel. */
  function AllocStagingBuffer(width: nat, height: nat): (bytes: nat)
    ensures bytes == 2 * width * height
    ensures bytes / F16_BYTES == width * height
  {
    StagingBytes(width, height)
  }

  /** `normalize_height` on the staging slice. */
  method NormalizeHeight(data: array<real>) returns (outcome: Normalization)
    modifies data
    ensures outcome == PanicsOnEmpty <==> data.Length == 0
    ensures outcome == AllNaN <==> data.Length > 0 && MaxAbs(old(data[..])) == 0.0
    ensures outcome.Normalized? ==> data[..] == NormalizedSamples(old(data[..]))
    ensures !outcome.Normalized? ==> data[..] == old(data[..])
  {
    outcome := NormalizeInPlace(data);
  }

  /** `load_png`, given what the PNG decoder made of the buffer and the GPU's answers `gpu`. */
  method LoadPng(decoded: Result<Luma16Image>, gpu: Staging) returns (r: Run<Result<HeightImage>>)
    requires decoded.Ok? ==> WellFormed(decoded.value)
    ensures decoded.Err? ==> r == Returns(Err(decoded.message))
    ensures decoded.Ok? ==> StagedAs(decoded.value, gpu, r)
  {
    if decoded.Err? {
      return Returns(Err(decoded.message));
    }
    r := StageImage(decoded.value, gpu);
  }

  /**
   * A variable of a NetCDF file: its dimension lengths, slowest first,
   * and its values read as `i16`.
   */
  datatype Variable = Variable(name: string, dims: seq<nat>, values: seq<int>)

  /** A two-dimensional variable holds one value per (row, column). */
  predicate WellFormedVariable(v: Variable) {
    |v.dims| == 2 ==> |v.values| == v.dims[0] * v.dims[1]
  }

  /** `variables().filter(|var| var.dimensions().len() == 2).next()`. */
  function First2D(vars: seq<Variable>): (r: Option<Variable>)
    ensures r.None? <==> forall k :: 0 <= k < |vars| ==> |vars[k].dims| != 2
    ensures r.Some? ==> exists k :: 0 <= k < |vars| && vars[k] == r.value
                          && |vars[k].dims| == 2
                          && forall j :: 0 <= j < k ==> |vars[j].dims| != 2
  {
    if |vars| == 0 then None
    else if |vars[0].dims| == 2 then Some(vars[0])
    else
      var r := First2D(vars[1..]);
      assert forall k :: 1 <= k < |vars| ==> vars[k] == vars[1..][k - 1];
      r
  }

  /** The error for a file without two-dimensional data. */
  function No2DError(path: string): (msg: string)
    ensures |msg| == |path| + 53
  {
    "netcdf file \"" + path + "\" does not appear to contain any 2D data"
  }

  /**
   * `t` is what the flip and the normalisation make of the variable's
   * samples, for rows of width `width`.
   */
  ghost predicate FlippedTexels(values: seq<int>, width: nat, t: HeightTexels)
  {
    width > 0 && |values| > 0
    && exists flipped :: RowFlip.IsFlip(values, flipped, width)
                         && t == NormalizedTexels(ToReals(flipped))
  }

  /**
   * The inline flip of `load_netcdf` followed by the conversion to
   * floating point and `normalize_height`.
   */
  method FlipAndNormalize(values: seq<int>, width: nat) returns (r: Run<HeightTexels>)
    ensures r.Panics? <==> width == 0 || |values| == 0
    ensures r.Returns? ==> FlippedTexels(values, width, r.value)
  {
    var samples := new int[|values|](i requires 0 <= i < |values| => values[i]);
    assert samples[..] == values;
    var flip := RowFlip.FlipInPlace(samples, width);
    if flip.Panics? {
      return Panics(flip.reason);
    }
    ghost var flipped := samples[..];
    var texels := new real[samples.Length];
    ConvertInto(texels, samples[..]);
    assert texels[..] == ToReals(flipped);
    var outcome := NormalizeHeight(texels);
    match outcome
    case PanicsOnEmpty =>
      r := Panics("called `Option::unwrap()` on a `None` value");
    case AllNaN =>
      r := Returns(NaNEverywhere(texels.Length));
    case Normalized(_) =>
      r := Returns(Samples(texels[..]));
  }

  /**
   * `load_netcdf`, given what `netcdf::open` made of the file (`file`,
   * its variables), the GPU's answers `gpu` and the answer of
   * `raw_values` (`raw`). The width is the variable's second dimension
   * and the height its first. The errors are returned in the order the
   * calls are made: opening, finding a 2D variable, allocating and
   * mapping the staging buffer, reading the values into it. Past them a
   * zero width makes the row iterators panic and an empty image makes the
   * normalisation panic; otherwise the upload error or the image is
   * returned.
   */
  method LoadNetcdf(path: string, file: Result<seq<Variable>>, gpu: Staging, raw: Result<Unit>)
    returns (r: Run<Result<HeightImage>>)
    requires file.Ok? ==> forall k :: 0 <= k < |file.value| ==> WellFormedVariable(file.value[k])
    ensures file.Err? ==> r == Returns(Err(file.message))
    ensures file.Ok? && First2D(file.value).None? ==> r == Returns(Err(No2DError(path)))
    ensures file.Ok? && First2D(file.value).Some? ==>
              var v := First2D(file.value).value;
              && (gpu.alloc.Err? ==> r == Returns(Err(gpu.alloc.message)))
              && (gpu.alloc.Ok? && gpu.mapped.Err? ==> r == Returns(Err(gpu.mapped.message)))
              && (gpu.alloc.Ok? && gpu.mapped.Ok? && raw.Err? ==> r == Returns(Err(raw.message)))
              && (gpu.alloc.Ok? && gpu.mapped.Ok? && raw.Ok? ==>
                   && (r.Panics? <==> v.dims[1] == 0 || v.dims[0] == 0)
                   && (r.Returns? && gpu.upload.Err? ==> r.value == Err(gpu.upload.message))
                   && (r.Returns? && gpu.upload.Ok? ==>
                        r.value.Ok? && r.value.value.width == v.dims[1] && r.value.value.height == v.dims[0]
                        && FlippedTexels(v.values, v.dims[1], r.value.value.texels)))
  {
    if file.Err? {
      return Returns(Err(file.message));
    }
    var vars := file.value;
    var found := First2D(vars);
    if found.None? {
      return Returns(Err(No2DError(path)));
    }
    if gpu.alloc.Err? {
      return Returns(Err(gpu.alloc.message));
    }
    if gpu.mapped.Err? {
      return Returns(Err(gpu.mapped.message));
    }
    if raw.Err? {
      return Returns(Err(raw.message));
    }
    var v := found.value;
    ghost var k :| 0 <= k < |vars| && vars[k] == v && |vars[k].dims| == 2;
    assert WellFormedVariable(vars[k]);
    var width, height := v.dims[1], v.dims[0];
    assert |v.values| == width * height;
    EmptyIffDimensionZero(width, height);
    var texels := FlipAndNormalize(v.values, width);
    match texels
    case Panics(reason) => r := Panics(reason);
    case Returns(t) =>
      r := if gpu.upload.Err? then Returns(Err(gpu.upload.message)) else Returns(Ok(HeightImage(width, height, t)));
  }

  lemma EmptyIffDimensionZero(width: nat, height: nat)
    ensures width * height == 0 <==> width == 0 || height == 0
  {
    if width > 0 && height > 0 {
      assert width * height >= width;
    }
  }

  /** With an even number of rows the loaded texels are those of the row-mirrored samples. */
  lemma EvenNetcdfIsMirrored(v: Variable, t: HeightTexels)
    requires |v.dims| == 2 && WellFormedVariable(v) && v.dims[0] % 2 == 0
    requires FlippedTexels(v.values, v.dims[1], t)
    ensures |v.values| == RowMajor.Area(v.dims[0], v.dims[1])
    ensures t == NormalizedTexels(ToReals(RowFlip.Mirrored(v.values, v.dims[0], v.dims[1])))
  {
    RowMajor.AreaIsProduct(v.dims[0], v.dims[1]);
    var flipped :| RowFlip.IsFlip(v.values, flipped, v.dims[1])
                   && t == NormalizedTexels(ToReals(flipped));
    RowFlip.EvenFlipIsMirror(v.values, flipped, v.dims[0], v.dims[1]);
  }

  /**
   * `HeightMap::from_buffer`: only PNG is decoded; NetCDF cannot be read
   * from memory and an unknown type is refused.
   */
  method FromBuffer(ty: FileType, decoded: Result<Luma16Image>, gpu: Staging) returns (r: Run<Result<HeightImage>>)
    requires decoded.Ok? ==> WellFormed(decoded.value)
    ensures ty == NetCDF ==> r == Returns(Err("netcdf: cannot load from in-memory buffer"))
    ensures ty == Unknown ==> r == Returns(Err("Unrecognized file type."))
    ensures ty == Png && decoded.Err? ==> r == Returns(Err(decoded.message))
    ensures ty == Png && decoded.Ok? ==> StagedAs(decoded.value, gpu, r)
  {
    match ty
    case Png => r := LoadPng(decoded, gpu);
    case NetCDF => r := Returns(Err("netcdf: cannot load from in-memory buffer"));
    case Unknown => r := Returns(Err("Unrecognized file type."));
  }
}
