/** POSIX path operations the source uses to build file names:
    `os.path.join`, `os.path.basename`, `os.path.splitext` and
    `pathlib.PurePosixPath(p).name` / `.stem`. */
module Paths {

  /** `s.rfind(c)`: the last index holding `c`, or -1. */
  function RFind(s: string, c: char): (r: int)
    ensures -1 <= r < |s|
    ensures r >= 0 ==> s[r] == c
    ensures forall k :: r < k < |s| ==> s[k] != c
    decreases |s|
  {
    if |s| == 0 then -1
    else if s[|s| - 1] == c then |s| - 1
    else RFind(s[..|s| - 1], c)
  }

  /** `s` ends with `t`. */
  predicate EndsWith(s: string, t: string)
  {
    |s| >= |t| && s[|s| - |t|..] == t
  }

  /** A concatenation ends with its second part. */
  lemma EndsWithAppend(a: string, b: string)
    ensures EndsWith(a + b, b)
  {
    assert (a + b)[|a|..] == b;
  }

  /** A suffix of a suffix is a suffix. */
  lemma EndsWithTransitive(s: string, t: string, u: string)
    requires EndsWith(s, t) && EndsWith(t, u)
    ensures EndsWith(s, u)
  {
    assert s[|s| - |u|..] == s[|s| - |t|..][|t| - |u|..];
  }

  /** `os.path.join(dir, name)` on POSIX. */
  function Join(dir: string, name: string): string
  {
    if |name| > 0 && name[0] == '/' then name
    else if dir == "" || dir[|dir| - 1] == '/' then dir + name
    else dir + "/" + name
  }

  /** An absolute name replaces the directory; a relative one is put under
      it, with at most one slash added between them. Either way the joined
      path ends with the name. */
  lemma JoinShape(dir: string, name: string)
    ensures EndsWith(Join(dir, name), name)
    ensures |name| > 0 && name[0] == '/' ==> Join(dir, name) == name
    ensures (|name| == 0 || name[0] != '/') ==>
      dir <= Join(dir, name) && |dir| + |name| <= |Join(dir, name)| <= |dir| + 1 + |name|
  {
    var r := Join(dir, name);
    assert r[|r| - |name|..] == name;
  }

  /** Joining one directory with two relative names gives equal paths only for equal names. */
  lemma JoinInjective(dir: string, a: string, b: string)
    requires (|a| == 0 || a[0] != '/') && (|b| == 0 || b[0] != '/')
    requires Join(dir, a) == Join(dir, b)
    ensures a == b
  {
    var prefix := if dir == "" || dir[|dir| - 1] == '/' then dir else dir + "/";
    assert Join(dir, a) == prefix + a && Join(dir, b) == prefix + b;
    assert a == (prefix + a)[|prefix|..];
    assert b == (prefix + b)[|prefix|..];
  }

  /** `os.path.basename(p)`: everything after the last slash. */
  function Basename(p: string): (r: string)
    ensures '/' !in r
  {
    p[RFind(p, '/') + 1..]
  }

  /** Some character of `s[from..to]` is not a dot. */
  predicate HasNonDot(s: string, from: nat, to: nat)
    requires from <= to <= |s|
  {
    exists k :: from <= k < to && s[k] != '.'
  }

  /** `os.path.splitext(p)[0]` on POSIX: the path without its last
      extension; leading dots of the final component do not start one. */
  function SplitextRoot(p: string): (r: string)
    ensures |r| <= |p| && r == p[..|r|]
  {
    var sep := RFind(p, '/');
    var dot := RFind(p, '.');
    if dot > sep && HasNonDot(p, sep + 1, dot) then p[..dot] else p
  }

  /** `PurePosixPath(p).name`: the last component, ignoring empty and `.`
      components; empty for a path with none. */
  function PathName(p: string): (r: string)
    ensures '/' !in r
    decreases |p|
  {
    var k := RFind(p, '/');
    var tail := p[k + 1..];
    if tail != "" && tail != "." then tail
    else if k < 0 then ""
    else PathName(p[..k])
  }

  /** `PurePosixPath(p).stem`: the name without its suffix, where a suffix
      starts at the last dot unless that dot is first or last in the name. */
  function PathStem(p: string): (r: string)
    ensures r <= PathName(p) && '/' !in r
    ensures r == "" <==> PathName(p) == ""
  {
    var name := PathName(p);
    var i := RFind(name, '.');
    if 0 < i < |name| - 1 then name[..i] else name
  }
}
