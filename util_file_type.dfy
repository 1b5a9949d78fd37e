/**
 * File-type detection of the `util` crate: a path whose extension is
 * exactly `png` is a PNG image; any other path is `Unknown`, carrying its
 * extension (empty when there is none).
 */
module UtilFileType {
  import opened Wrappers
  import opened Paths

  /** `util::FileType`. */
  datatype FileType = Png | Unknown(ext: string)

  /** `impl From<P: AsRef<Path>> for FileType`. */
  function FromPath(p: string): (t: FileType)
    ensures t == Png <==> Extension(p) == Some("png")
    ensures t.Unknown? ==> t.ext == ExtensionOrEmpty(p)
  {
    var ext := ExtensionOrEmpty(p);
    if ext == "png" then Png else Unknown(ext)
  }

  /**
   * Only the last extension of the file name counts, compared exactly:
   * `dir/a.tar.png` is a PNG; `dir/a.png.bak` is `Unknown("bak")` and
   * `dir/x.PNG` is `Unknown("PNG")`.
   */
  lemma LastExtensionDecides(dir: string, stem: string, e: string)
    requires IsNormalName(stem) && '.' !in e && '/' !in e
    ensures FromPath(dir + "/" + stem + "." + e) == if e == "png" then Png else Unknown(e)
  {
    var name := stem + "." + e;
    assert '/' !in name by {
      assert forall j :: 0 <= j < |name| ==> name[j] == if j < |stem| then stem[j] else if j == |stem| then '.' else e[j - |stem| - 1];
    }
    assert name != "" && name != "." && name != ".." by {
      assert |name| == |stem| + 1 + |e|;
      if |name| == 2 {
        assert |stem| == 1 && name[1] == '.' && name[0] == stem[0];
      }
    }
    assert dir + "/" + stem + "." + e == dir + "/" + name;
    FileNameAfterDirectory(dir, name);
    ExtensionOfStem(stem, e);
  }

  /** A file name without any `.` is `Unknown("")`. */
  lemma NoExtensionIsUnknownEmpty(dir: string, n: string)
    requires IsNormalName(n) && '.' !in n
    ensures FromPath(dir + "/" + n) == Unknown("")
  {
    FileNameAfterDirectory(dir, n);
    NoDotNoExtension(n);
  }

  /** A hidden file such as `.png` has no extension, so it is not a PNG. */
  lemma HiddenFileIsUnknownEmpty(dir: string, e: string)
    requires '.' !in e && '/' !in e && e != ""
    ensures FromPath(dir + "/." + e) == Unknown("")
  {
    var name := "." + e;
    assert dir + "/." + e == dir + "/" + name;
    assert name[0] == '.';
    assert forall j :: 0 < j < |name| ==> name[j] == e[j - 1];
    assert name != ".." by {
      if |name| == 2 {
        assert name[1] == e[0];
      }
    }
    FileNameAfterDirectory(dir, name);
    assert LastIndexOf(name, '.') == 0;
  }
}
