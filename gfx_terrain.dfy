/**
 * Terrain loading of the older renderer: the heightmap's file type is
 * detected from its extension (`png`, `nc` for NetCDF, anything else
 * unknown), and an unknown type makes loading fail with an error that
 * names the extension.
 */
module GfxTerrain {
  import opened Wrappers
  import opened Paths

  /** `util::file_type::FileType` of the older tree. */
  datatype FileType = Png | NetCDF | Unknown(ext: string)

  /** `Terrain::detect_filetype`. */
  function DetectFiletype(p: string): (t: FileType)
    ensures t == Png <==> Extension(p) == Some("png")
    ensures t == NetCDF <==> Extension(p) == Some("nc")
    ensures t.Unknown? <==> ExtensionOrEmpty(p) != "png" && ExtensionOrEmpty(p) != "nc"
    ensures t.Unknown? ==> t.ext == ExtensionOrEmpty(p)
  {
    var ext := ExtensionOrEmpty(p);
    if ext == "png" then Png
    else if ext == "nc" then NetCDF
    else Unknown(ext)
  }

  /** A path without an extension is `Unknown("")`. */
  lemma NoExtensionIsUnknown(p: string)
    requires Extension(p).None?
    ensures DetectFiletype(p) == Unknown("")
  {
  }

  /** The heightmap decoder `from_new_heightmap` selects for a file type. */
  datatype HeightmapLoader = DecodeFromBuffer | ReadNetcdf

  /** `{path:?}`: the path between double quotes (escaping is not modelled). */
  function DebugPath(p: string): string {
    "\"" + p + "\""
  }

  /**
   * The file-type dispatch of `from_new_heightmap`: PNG files are read
   * and decoded from a buffer, NetCDF files are opened by path, and an
   * unknown type fails.
   */
  function SelectHeightmapLoader(p: string): (r: Result<HeightmapLoader>)
    ensures r.Err? <==> DetectFiletype(p).Unknown?
    ensures r == Ok(DecodeFromBuffer) <==> DetectFiletype(p) == Png
    ensures r == Ok(ReadNetcdf) <==> DetectFiletype(p) == NetCDF
  {
    match DetectFiletype(p)
    case Png => Ok(DecodeFromBuffer)
    case NetCDF => Ok(ReadNetcdf)
    case Unknown(ext) =>
      Err("Heightmap " + DebugPath(p) + " has unsupported file type " + ext)
  }

  /** The error of an unknown heightmap type names the path and ends with the extension. */
  lemma UnknownTypeErrorNamesExtension(p: string)
    requires DetectFiletype(p).Unknown?
    ensures var ext := ExtensionOrEmpty(p);
            var msg := SelectHeightmapLoader(p).message;
            |msg| >= |ext| && msg[|msg| - |ext|..] == ext
            && msg[..10] == "Heightmap " && msg[10..|p| + 12] == DebugPath(p)
  {
  }
}
