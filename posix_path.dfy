/**
 * The two POSIX path helpers the handler uses on the object key:
 * `os.path.basename` and `os.path.splitext`, as Python's `posixpath` defines them.
 * The functions only compute; what they guarantee is stated by the lemmas after each.
 */
module PosixPath {

  const Sep: char := '/'
  const ExtSep: char := '.'

  /** Python's `str.rfind` for one character: the last index of `c` in `s`, or -1. */
  function RFind(s: string, c: char): (i: int)
    ensures -1 <= i < |s|
  {
    if s == [] then -1
    else if s[|s| - 1] == c then |s| - 1
    else RFind(s[..|s| - 1], c)
  }

  /** `RFind` finds `c` if it occurs at all, and no occurrence lies after the one it finds. */
  lemma {:induction false} RFindSpec(s: string, c: char)
    ensures var i := RFind(s, c);
            (0 <= i ==> s[i] == c) &&
            (forall j :: i < j < |s| ==> s[j] != c)
  {
    if s != [] && s[|s| - 1] != c {
      RFindSpec(s[..|s| - 1], c);
      assert forall j :: 0 <= j < |s| - 1 ==> s[..|s| - 1][j] == s[j];
    }
  }

  /** `posixpath.basename`: the text after the last separator. */
  function Basename(p: string): string {
    p[RFind(p, Sep) + 1..]
  }

  /**
   * The basename is the longest suffix of the path without a separator: it holds
   * none, and it is either the whole path or preceded by a separator.
   */
  lemma BasenameSpec(p: string)
    ensures var b := Basename(p);
            Sep !in b && |b| <= |p| && b == p[|p| - |b|..] &&
            (|b| < |p| ==> p[|p| - |b| - 1] == Sep)
  {
    RFindSpec(p, Sep);
    var b := Basename(p);
    assert forall j :: 0 <= j < |b| ==> b[j] == p[RFind(p, Sep) + 1 + j];
  }

  predicate AllDots(s: string) {
    forall i :: 0 <= i < |s| ==> s[i] == ExtSep
  }

  /**
   * `posixpath.splitext`: the extension runs from the last dot of the last path
   * component, unless everything before that dot in the component is dots.
   */
  function SplitExt(p: string): (string, string) {
    var sep := RFind(p, Sep);
    var dot := RFind(p, ExtSep);
    if sep < dot && !AllDots(p[sep + 1..dot]) then (p[..dot], p[dot..]) else (p, [])
  }

  /** What `splitext` may return as an extension: nothing, or one dot and then text with no dot or separator. */
  predicate IsExtension(ext: string) {
    ext == [] || (ext[0] == ExtSep && ExtSep !in ext[1..] && Sep !in ext)
  }

  /** The split loses nothing, and its second part is an extension. */
  lemma SplitExtSpec(p: string)
    ensures SplitExt(p).0 + SplitExt(p).1 == p
    ensures IsExtension(SplitExt(p).1)
  {
    var sep := RFind(p, Sep);
    var dot := RFind(p, ExtSep);
    if sep < dot && !AllDots(p[sep + 1..dot]) {
      var ext := p[dot..];
      assert p[..dot] + ext == p;
      assert ext[0] == ExtSep by {
        RFindSpec(p, ExtSep);
      }
      assert ExtSep !in ext[1..] by {
        RFindSpec(p, ExtSep);
        assert forall j :: 0 <= j < |ext| - 1 ==> ext[1..][j] == p[dot + 1 + j];
      }
      assert Sep !in ext by {
        RFindSpec(p, Sep);
        assert forall j :: 0 <= j < |ext| ==> ext[j] == p[dot + j];
      }
    }
  }

  /** A name without separators is its own basename. */
  lemma BasenameOfName(p: string)
    requires Sep !in p
    ensures Basename(p) == p
  {
    RFindSpec(p, Sep);
  }

  /** Behind a directory part ending in a separator, the basename is the separator-free rest. */
  lemma BasenameAfterDirectory(dir: string, name: string)
    requires |dir| > 0 && dir[|dir| - 1] == Sep
    requires Sep !in name
    ensures Basename(dir + name) == name
  {
    var p := dir + name;
    RFindSpec(p, Sep);
    assert p[|dir| - 1] == Sep;
    assert forall j :: |dir| <= j < |p| ==> p[j] == name[j - |dir|];
    assert RFind(p, Sep) == |dir| - 1;
    assert p[|dir|..] == name;
  }

  /**
   * A separator-free file name whose extension is a dot followed by dot-free text
   * splits there, provided some character of the name before it (at `k`) is not a dot.
   */
  lemma SplitAtExtension(name: string, ext: string, k: nat)
    requires Sep !in name + ext
    requires |ext| > 0 && ext[0] == ExtSep && ExtSep !in ext[1..]
    requires k < |name| && name[k] != ExtSep
    ensures SplitExt(name + ext) == (name, ext)
  {
    var p := name + ext;
    RFindSpec(p, Sep);
    RFindSpec(p, ExtSep);
    assert p[..|name|] == name && p[|name|..] == ext && p[|name| + 1..] == ext[1..];
    assert p[k] == name[k];
  }

  /** A separator-free name made of leading dots and then dot-free text has no extension. */
  lemma NoExtension(dots: string, rest: string)
    requires AllDots(dots) && ExtSep !in rest && Sep !in rest
    ensures SplitExt(dots + rest) == (dots + rest, [])
  {
    var p := dots + rest;
    assert forall j :: |dots| <= j < |p| ==> p[j] == rest[j - |dots|];
    var sep := RFind(p, Sep);
    assert sep == -1 by {
      RFindSpec(p, Sep);
      assert forall j :: 0 <= j < |dots| ==> p[j] == ExtSep;
    }
    var dot := RFind(p, ExtSep);
    if 0 <= dot {
      assert dot < |dots| by {
        RFindSpec(p, ExtSep);
      }
      assert forall j :: 0 <= j < dot ==> p[..dot][j] == dots[j];
      assert AllDots(p[sep + 1..dot]);
    }
  }
}
