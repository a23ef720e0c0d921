/**
 * The handful of POSIX path operations of Python's standard library that the
 * service uses to name files: `str.rfind`, `str.find`, `os.path.basename`,
 * `os.path.join` (two arguments), `os.path.splitext`, `pathlib.PurePath.suffix`
 * and `str.split('.')[0]`.
 */
module Paths {
  import opened Common

  /** `s.rfind(c)`: the last index holding `c`, or -1. */
  function RFind(s: string, c: char): (r: int)
    ensures -1 <= r < |s|
    ensures r >= 0 ==> s[r] == c
    ensures forall i :: r < i < |s| ==> s[i] != c
  {
    if |s| == 0 then -1
    else if s[|s| - 1] == c then |s| - 1
    else RFind(s[..|s| - 1], c)
  }

  /** `s.find(c)`: the first index holding `c`, or -1. */
  function Find(s: string, c: char): (r: int)
    ensures -1 <= r < |s|
    ensures r >= 0 ==> s[r] == c
    ensures forall i :: 0 <= i < |s| && (r < 0 || i < r) ==> s[i] != c
  {
    if |s| == 0 then -1
    else if s[0] == c then 0
    else
      var r := Find(s[1..], c);
      if r < 0 then -1 else r + 1
  }

  /** `os.path.basename(p)`: everything after the last separator. */
  function Basename(p: string): (b: string)
    ensures '/' !in b
    ensures |b| <= |p| && b == p[|p| - |b|..]
    ensures |b| == |p| || p[|p| - |b| - 1] == '/'
  {
    p[RFind(p, '/') + 1..]
  }

  /** `os.path.join(dir, name)` on POSIX. */
  function Join(dir: string, name: string): (p: string)
    ensures |name| <= |p| && p[|p| - |name|..] == name
  {
    if |name| > 0 && name[0] == '/' then name
    else if dir == "" || dir[|dir| - 1] == '/' then dir + name
    else dir + "/" + name
  }

  /** A relative name joined under a plain directory lands inside it. */
  lemma JoinUnder(dir: string, name: string)
    requires dir != "" && dir[|dir| - 1] != '/'
    requires name == "" || name[0] != '/'
    ensures Join(dir, name) == dir + "/" + name
  {
  }

  /** True when some index in [lo, hi) of `p` holds a character other than '.'. */
  predicate HasNonDot(p: string, lo: nat, hi: nat)
    requires lo <= hi <= |p|
  {
    exists i :: lo <= i < hi && p[i] != '.'
  }

  /**
   * `os.path.splitext(p)[0]`: the path without its extension. The extension
   * starts at the last dot of the last component, unless everything before
   * that dot in the component is dots (".bashrc" has no extension).
   */
  function SplitExtRoot(p: string): (root: string)
    ensures |root| <= |p| && root == p[..|root|]
    // what is removed starts at the last dot, inside the last component, after a non-dot of it
    ensures root != p ==>
      && p[|root|] == '.' && '/' !in p[|root|..] && '.' !in p[|root| + 1..]
      && HasNonDot(p, RFind(p, '/') + 1, |root|)
    // nothing is removed only when no dot of the last component follows a non-dot of it
    ensures root == p ==>
      forall d :: RFind(p, '/') < d < |p| && p[d] == '.' ==> !HasNonDot(p, RFind(p, '/') + 1, d)
  {
    var sep := RFind(p, '/');
    var dot := RFind(p, '.');
    if dot > sep && HasNonDot(p, sep + 1, dot) then
      assert p[dot..][0] == '.';
      assert forall j :: 0 <= j < |p[dot..]| ==> p[dot..][j] == p[dot + j];
      p[..dot]
    else
      assert forall d :: sep < d < |p| && p[d] == '.' ==> d <= dot;
      p
  }

  /**
   * `PurePath(name).suffix`: from the last dot of the final component, when
   * that dot is neither its first nor its last character; otherwise "".
   */
  function PathSuffix(name: string): (ext: string)
    ensures ext == "" || (|ext| >= 2 && ext[0] == '.' && '.' !in ext[1..])
    ensures |ext| <= |name| && ext == name[|name| - |ext|..]
  {
    var base := Basename(name);
    var i := RFind(base, '.');
    if 0 < i < |base| - 1 then
      SuffixOfSuffix(name, base, i);
      NoDotPastLast(base, i);
      base[i..]
    else ""
  }

  /** The last `c` of `s` is past its first character exactly when `s[1..]` holds a `c`. */
  lemma RFindAfterFirst(s: string, c: char)
    ensures RFind(s, c) > 0 <==> |s| > 0 && c in s[1..]
  {
    if |s| > 0 && c in s[1..] {
      var j :| 0 <= j < |s| - 1 && s[1..][j] == c;
      assert s[j + 1] == c;
    }
  }

  /**
   * A name has a suffix exactly when its last component has a dot after its
   * first character and does not end in a dot.
   */
  lemma PathSuffixPresent(name: string)
    ensures var b := Basename(name);
      PathSuffix(name) != "" <==> |b| >= 2 && '.' in b[1..] && b[|b| - 1] != '.'
  {
    RFindAfterFirst(Basename(name), '.');
  }

  /** The suffix of a dotted name without separators is its last dot and what follows it. */
  lemma PathSuffixOfDotted(stem: string, extension: string)
    requires stem != "" && extension != ""
    requires '/' !in stem && '/' !in extension && '.' !in extension
    ensures PathSuffix(stem + "." + extension) == "." + extension
  {
    var name := stem + "." + extension;
    assert forall j :: 0 <= j < |stem| ==> name[j] == stem[j];
    assert forall j :: |stem| < j < |name| ==> name[j] == extension[j - |stem| - 1];
    assert name[|stem|] == '.';
    assert '/' !in name;
    assert RFind(name, '/') == -1;
    assert Basename(name) == name;
    assert RFind(name, '.') == |stem|;
    assert name[|stem|..] == "." + extension;
  }

  /** When `s[i]` is the last dot of `s`, what follows it holds no dot. */
  lemma NoDotPastLast(s: string, i: nat)
    requires i < |s| && forall j :: i < j < |s| ==> s[j] != '.'
    ensures '.' !in s[i..][1..]
  {
    assert s[i..][1..] == s[i + 1..];
  }

  /** `s.split('.')[0]`: everything before the first dot. */
  function BeforeFirstDot(s: string): (r: string)
    ensures '.' !in r
    ensures |r| <= |s| && r == s[..|r|]
    ensures r == s || s[|r|] == '.'
  {
    var i := Find(s, '.');
    if i < 0 then s else s[..i]
  }
}
