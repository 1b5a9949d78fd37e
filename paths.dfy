/**
 * The parts of Rust's `std::path::Path` the model relies on, for Unix
 * paths held as strings: the final component (`file_name`), its
 * extension (`extension`), the directory above it (`parent`), and
 * `join`.
 */
module Paths {
  import opened Wrappers

  /** The position of the last `c` in `s`, or -1 when there is none. */
  function LastIndexOf(s: string, c: char): (k: int)
    ensures -1 <= k < |s|
    ensures k >= 0 ==> s[k] == c
    ensures forall j :: k < j < |s| ==> s[j] != c
  {
    if |s| == 0 then -1
    else if s[|s| - 1] == c then |s| - 1
    else LastIndexOf(s[..|s| - 1], c)
  }

  /** A component of a path that `components()` reports as `Normal`. */
  predicate IsNormalName(n: string) {
    n != "" && n != "." && n != ".." && '/' !in n
  }

  /**
   * `Path::file_name`: the last component, when it is a plain name.
   * Trailing separators and `.` components are skipped, as `components()`
   * skips them; a path ending in `..`, the root or nothing has no file name.
   */
  function FileName(p: string): (r: Option<string>)
    ensures r.Some? ==> IsNormalName(r.value)
    decreases |p|
  {
    if |p| == 0 then None
    else if p[|p| - 1] == '/' then FileName(p[..|p| - 1])
    else
      var k := LastIndexOf(p, '/');
      var name := p[k + 1..];
      assert '/' !in name by {
        forall j | 0 <= j < |name| ensures name[j] != '/' {
          assert name[j] == p[k + 1 + j];
        }
      }
      if name == "." then (if k < 0 then None else FileName(p[..k + 1]))
      else if name == ".." then None
      else Some(name)
  }

  /**
   * The extension of a file name: what follows its last `.`. A name
   * without a `.`, a name whose only `.` leads it (`.bashrc`) and `..`
   * have none; `foo.` has the empty extension.
   */
  function NameExtension(name: string): (r: Option<string>)
    ensures r.Some? ==> '.' !in r.value
  {
    var k := LastIndexOf(name, '.');
    if name == ".." || k <= 0 then None
    else
      var e := name[k + 1..];
      assert forall j :: 0 <= j < |e| ==> e[j] == name[k + 1 + j];
      Some(e)
  }

  /** `Path::extension`: the extension of the file name, if there is one. */
  function Extension(p: string): (r: Option<string>)
    ensures r.Some? ==> FileName(p).Some? && NameExtension(FileName(p).value) == r
  {
    match FileName(p)
    case None => None
    case Some(n) => NameExtension(n)
  }

  /** `path.extension().unwrap_or("")`. */
  function ExtensionOrEmpty(p: string): (e: string)
    ensures '.' !in e
    ensures Extension(p).Some? ==> e == Extension(p).value
    ensures Extension(p).None? ==> e == ""
  {
    match Extension(p)
    case None => ""
    case Some(e) => e
  }

  /** A name with an extension is its stem, a `.`, and the extension. */
  lemma ExtensionSplitsName(name: string)
    requires NameExtension(name).Some?
    ensures var e := NameExtension(name).value;
            exists stem :: stem != "" && name == stem + "." + e
  {
    var k := LastIndexOf(name, '.');
    var stem, e := name[..k], name[k + 1..];
    assert name == stem + "." + e;
  }

  /** Conversely, the text after the last `.` of a name other than `..` is its extension. */
  lemma ExtensionOfStem(stem: string, e: string)
    requires stem != "" && '.' !in e && stem + "." + e != ".."
    ensures NameExtension(stem + "." + e) == Some(e)
  {
    var name := stem + "." + e;
    assert name[|stem|] == '.';
    assert forall j :: |stem| < j < |name| ==> name[j] == e[j - |stem| - 1];
    var k := LastIndexOf(name, '.');
    assert k == |stem|;
    assert name[k + 1..] == e;
  }

  /** A name without any `.` has no extension. */
  lemma NoDotNoExtension(name: string)
    requires '.' !in name
    ensures NameExtension(name) == None
  {
  }

  /** A plain name is its own file name. */
  lemma NameIsFileName(n: string)
    requires IsNormalName(n)
    ensures FileName(n) == Some(n)
  {
    assert LastIndexOf(n, '/') == -1;
    assert n[0..] == n;
  }

  /** The file name of `dir/n` is `n`, whatever the directory. */
  lemma FileNameAfterDirectory(dir: string, n: string)
    requires IsNormalName(n)
    ensures FileName(dir + "/" + n) == Some(n)
  {
    var p := dir + "/" + n;
    var k := LastIndexOf(p, '/');
    assert p[|dir|] == '/';
    assert p[k + 1..] == n;
  }

  /** `s` without trailing separators, a lone root `/` excepted. */
  function TrimSlashes(s: string): (r: string)
    ensures r <= s
    ensures |r| > 1 ==> r[|r| - 1] != '/'
    ensures s != "" ==> r != ""
    decreases |s|
  {
    if |s| > 1 && s[|s| - 1] == '/' then TrimSlashes(s[..|s| - 1]) else s
  }

  /**
   * `Path::parent`: the path without its last component and the
   * separators before it; `""` for a one-component relative path, and
   * nothing for the root or the empty path.
   */
  function Parent(p: string): (r: Option<string>)
    ensures r.None? <==> TrimSlashes(p) == "" || TrimSlashes(p) == "/"
    ensures r.Some? ==> |r.value| < |p|
  {
    var q := TrimSlashes(p);
    if q == "" || q == "/" then None
    else
      var k := LastIndexOf(q, '/');
      if k < 0 then Some("") else Some(TrimSlashes(q[..k + 1]))
  }

  /**
   * `Path::join`: an absolute `rel` replaces `base`; otherwise `rel` is
   * appended, with a separator unless `base` is empty or already ends
   * in one.
   */
  function Join(base: string, rel: string): (r: string)
    ensures |rel| > 0 && rel[0] == '/' ==> r == rel
    ensures (|rel| == 0 || rel[0] != '/') ==> |r| >= |base| + |rel| && r[..|base|] == base && r[|r| - |rel|..] == rel
  {
    if |rel| > 0 && rel[0] == '/' then rel
    else if base == "" || base[|base| - 1] == '/' then base + rel
    else base + "/" + rel
  }

  /** `sub` occurs in `s` at position `i`. */
  predicate OccursAt(s: string, sub: string, i: nat) {
    i + |sub| <= |s| && s[i..i + |sub|] == sub
  }

  /** `str::contains`: `sub` occurs somewhere in `s`. */
  predicate Contains(s: string, sub: string) {
    exists i: nat | i <= |s| :: OccursAt(s, sub, i)
  }

  /** The parent of `dir/n` is `dir`, for a directory without a trailing separator. */
  lemma {:induction false} ParentAfterDirectory(dir: string, n: string)
    requires IsNormalName(n) && dir != "" && dir[|dir| - 1] != '/'
    ensures Parent(dir + "/" + n) == Some(dir)
  {
    var p := dir + "/" + n;
    assert p[|p| - 1] == n[|n| - 1] != '/';
    assert TrimSlashes(p) == p;
    var k := LastIndexOf(p, '/');
    assert p[|dir|] == '/';
    assert forall j :: |dir| < j < |p| ==> p[j] == n[j - |dir| - 1];
    assert k == |dir|;
    assert p[..k + 1] == dir + "/";
    assert (dir + "/")[..|dir|] == dir;
    assert TrimSlashes(dir + "/") == TrimSlashes(dir);
    if |dir| > 1 {
      assert TrimSlashes(dir) == dir;
    }
  }

  /** The parent of a bare name is the empty path. */
  lemma ParentOfName(n: string)
    requires IsNormalName(n)
    ensures Parent(n) == Some("")
  {
    assert n[|n| - 1] != '/';
    assert LastIndexOf(n, '/') == -1;
  }
}
