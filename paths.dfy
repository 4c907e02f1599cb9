/**
 * POSIX path helpers as Python's `posixpath` defines them: `join` of two
 * components, `basename`, and `splitext`, which removes only the final
 * extension and never treats a leading dot as one.
 */
module Paths {
  import opened Text

  /** `s.rfind(c)`: the index of the last occurrence of c, or -1. */
  function RFind(s: string, c: char): (i: int)
    ensures -1 <= i < |s|
    ensures i >= 0 ==> s[i] == c
    ensures forall j :: i < j < |s| ==> s[j] != c
  {
    if |s| == 0 then -1
    else if s[|s| - 1] == c then |s| - 1
    else RFind(s[..|s| - 1], c)
  }

  /** The last occurrence is the only index that RFind can return. */
  lemma RFindIsLast(s: string, c: char, k: int)
    requires -1 <= k < |s|
    requires k >= 0 ==> s[k] == c
    requires forall j :: k < j < |s| ==> s[j] != c
    ensures RFind(s, c) == k
  {
  }

  /** `posixpath.join(a, b)`. */
  function JoinPath(a: string, b: string): string
  {
    if StartsWith(b, "/") then b
    else if a == "" || EndsWith(a, "/") then a + b
    else a + "/" + b
  }

  /** `posixpath.basename(p)`: the part after the last '/'. */
  function Basename(p: string): (r: string)
    ensures '/' !in r
    ensures |r| <= |p| && p[|p| - |r|..] == r
    ensures |r| < |p| ==> p[|p| - |r| - 1] == '/'
  {
    p[RFind(p, '/') + 1..]
  }

  /** There is a character other than '.' in s[lo..hi]. */
  predicate HasNonDot(s: string, lo: int, hi: int)
    requires 0 <= lo <= hi <= |s|
  {
    exists k | lo <= k < hi :: s[k] != '.'
  }

  /**
   * `posixpath.splitext(p)`: (root, ext) with root + ext == p.  The extension
   * starts at the last '.' after the last '/', unless only dots precede that
   * '.' within the final component (so ".bashrc" has no extension).
   */
  function SplitExt(p: string): (r: (string, string))
    ensures r.0 + r.1 == p
    ensures r.1 == "" || (r.1[0] == '.' && '.' !in r.1[1..] && '/' !in r.1)
  {
    var sepIndex := RFind(p, '/');
    var dotIndex := RFind(p, '.');
    if dotIndex > sepIndex && HasNonDot(p, sepIndex + 1, dotIndex) then
      assert p[dotIndex..][1..] == p[dotIndex + 1..];
      (p[..dotIndex], p[dotIndex..])
    else (p, "")
  }

  /** `os.path.splitext(os.path.basename(name))[0]`: the file name without directories and final extension. */
  function BaseName(name: string): (r: string)
    ensures '/' !in r
  {
    SplitExt(Basename(name)).0
  }

  /** The base name is a piece of the name, so it avoids any character the name avoids. */
  lemma BaseNameAvoids(name: string, c: char)
    requires c !in name
    ensures c !in BaseName(name)
  {
    var b := Basename(name);
    assert forall k :: 0 <= k < |b| ==> b[k] == name[|name| - |b| + k];
    var r := BaseName(name);
    assert r + SplitExt(b).1 == b;
    assert forall k :: 0 <= k < |r| ==> r[k] == b[k];
  }

  /** A name with no '/' after a directory part ending in '/' is its own basename. */
  lemma BasenameAfterDirectory(dir: string, file: string)
    requires dir == "" || dir[|dir| - 1] == '/'
    requires '/' !in file
    ensures Basename(dir + file) == file
  {
    var p := dir + file;
    assert forall j :: |dir| <= j < |p| ==> p[j] == file[j - |dir|];
    RFindIsLast(p, '/', |dir| - 1);
    assert p[|dir|..] == file;
  }

  /** `stem.ext` splits at the '.' before ext when the stem has a non-dot character. */
  lemma SplitExtAtLastDot(stem: string, ext: string)
    requires '/' !in stem && exists k :: 0 <= k < |stem| && stem[k] != '.'
    requires '.' !in ext && '/' !in ext
    ensures SplitExt(stem + "." + ext).0 == stem
  {
    var b := stem + "." + ext;
    assert forall j :: 0 <= j < |stem| ==> b[j] == stem[j];
    assert b[|stem|] == '.';
    assert forall j :: |stem| < j < |b| ==> b[j] == ext[j - |stem| - 1];
    RFindIsLast(b, '/', -1);
    RFindIsLast(b, '.', |stem|);
    var k :| 0 <= k < |stem| && stem[k] != '.';
    assert b[k] != '.';
    assert HasNonDot(b, 0, |stem|);
    assert b[..|stem|] == stem;
  }

  /**
   * A final component made of dots followed by a dot-free rest has no
   * extension: `.bashrc`, `..x` and `...` keep their leading dots.
   */
  lemma SplitExtLeadingDots(dir: string, dots: string, rest: string)
    requires dir == "" || dir[|dir| - 1] == '/'
    requires forall k :: 0 <= k < |dots| ==> dots[k] == '.'
    requires '.' !in rest && '/' !in rest
    ensures SplitExt(dir + dots + rest) == (dir + dots + rest, "")
  {
    var p := dir + dots + rest;
    assert forall j :: |dir| <= j < |dir| + |dots| ==> p[j] == dots[j - |dir|];
    assert forall j :: |dir| + |dots| <= j < |p| ==> p[j] == rest[j - |dir| - |dots|];
    RFindIsLast(p, '/', |dir| - 1);
    var dotIndex := RFind(p, '.');
    if dotIndex > |dir| - 1 {
      assert dotIndex < |dir| + |dots|;
      assert !HasNonDot(p, |dir|, dotIndex);
    }
  }

  /**
   * The base name of `dir/stem.ext` is `stem`, when the stem has no '/' and
   * is not made of dots only, and the extension has neither '.' nor '/'.
   */
  lemma BaseNameOfPath(dir: string, stem: string, ext: string)
    requires dir == "" || dir[|dir| - 1] == '/'
    requires '/' !in stem && exists k :: 0 <= k < |stem| && stem[k] != '.'
    requires '.' !in ext && '/' !in ext
    ensures BaseName(dir + stem + "." + ext) == stem
  {
    var file := stem + "." + ext;
    assert '/' !in file by {
      assert forall j :: 0 <= j < |file| ==> file[j] == (if j < |stem| then stem[j] else if j == |stem| then '.' else ext[j - |stem| - 1]);
    }
    assert dir + stem + "." + ext == dir + file;
    BasenameAfterDirectory(dir, file);
    SplitExtAtLastDot(stem, ext);
  }
}
