/** File-name helpers shared by the backend modules: the extension split of a
    POSIX path, as Python's `os.path.splitext` computes it. */
module Paths {
  /** Index of the last `c` in `s`, or -1 (`str.rfind`). */
  function LastIndexOf(s: string, c: char): (i: int)
    ensures -1 <= i < |s|
    ensures i >= 0 ==> s[i] == c
    ensures forall j :: i < j < |s| ==> s[j] != c
  {
    if |s| == 0 then -1
    else if s[|s| - 1] == c then |s| - 1
    else LastIndexOf(s[..|s| - 1], c)
  }

  /** Some character strictly between `lo` and `hi` is not a dot. */
  predicate HasNonDot(s: string, lo: int, hi: int)
    requires 0 <= lo && hi <= |s|
  {
    exists k :: lo <= k < hi && s[k] != '.'
  }

  /** The last path component has a dot with something other than a dot before it. */
  predicate DotAfterName(p: string)
  {
    exists i, d :: 0 <= i < d < |p| && p[i] != '.' && p[d] == '.' &&
      forall k :: i <= k < |p| ==> p[k] != '/'
  }

  /** `os.path.splitext(p)[1]`: from the last dot of the last path component, provided
      that component has something other than dots before that dot; otherwise empty. */
  function Extension(p: string): (e: string)
    ensures e == "" || (e[0] == '.' && |e| <= |p| && p[|p| - |e|..] == e)
    ensures forall k :: 0 <= k < |e| ==> e[k] != '/'
    ensures forall k :: 1 <= k < |e| ==> e[k] != '.'
    ensures e != "" <==> DotAfterName(p)
  {
    var sep := LastIndexOf(p, '/');
    var dot := LastIndexOf(p, '.');
    if dot > sep && HasNonDot(p, sep + 1, dot) then p[dot..] else ""
  }

  /** The part before the extension, so that `Root(p) + Extension(p) == p`. */
  function Root(p: string): (r: string)
    ensures r + Extension(p) == p
  {
    p[..|p| - |Extension(p)|]
  }

  /** A plain name followed by a dot-suffix splits back into exactly that suffix. */
  lemma ExtensionOfNamedFile(name: string, ext: string)
    requires |name| > 0 && forall k :: 0 <= k < |name| ==> name[k] != '.' && name[k] != '/'
    requires |ext| > 0 && ext[0] == '.' && forall k :: 0 <= k < |ext| ==> ext[k] != '/'
    requires forall k :: 1 <= k < |ext| ==> ext[k] != '.'
    ensures Extension(name + ext) == ext
  {
    var p := name + ext;
    var dot := LastIndexOf(p, '.');
    var sep := LastIndexOf(p, '/');
    assert p[|name|] == '.';
    assert dot == |name|;
    assert sep == -1 by {
      forall k | 0 <= k < |p| ensures p[k] != '/' {
        if k < |name| { assert p[k] == name[k]; } else { assert p[k] == ext[k - |name|]; }
      }
    }
    assert p[0] == name[0] && p[0] != '.';
    assert HasNonDot(p, sep + 1, dot);
    assert p[dot..] == ext;
  }

  /** A name made only of a leading dot and a suffix, such as ".pdf", has no extension. */
  lemma HiddenFileHasNoExtension()
    ensures Extension(".pdf") == ""
  {
    var p := ".pdf";
    assert p[0] == '.' && p[1] == 'p' && p[2] == 'd' && p[3] == 'f';
    assert LastIndexOf(p, '.') == 0;
  }
}
