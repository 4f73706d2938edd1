/** The three operations of Node's `path` module that the registry relies on, on
    POSIX-style paths: `basename`, `extname` and `join`. Watchers are keyed by the
    base name, schema slots by the base name without its extension, and `.json`
    decides between an alias manifest and a binary schema. */
module Paths {

  type Path = string

  /** Index of the last occurrence of `c` in `s`, or -1 when there is none. */
  function LastIndexOf(s: string, c: char): (i: int)
    ensures -1 <= i < |s|
  {
    if s == [] then -1
    else if s[|s| - 1] == c then |s| - 1
    else LastIndexOf(s[..|s| - 1], c)
  }

  /** `LastIndexOf` finds an occurrence, and no later one exists. */
  lemma {:induction false} LastIndexOfIsLast(s: string, c: char)
    ensures var i := LastIndexOf(s, c);
      && -1 <= i < |s|
      && (0 <= i ==> s[i] == c)
      && forall j | i < j < |s| :: s[j] != c
  {
    if s != [] && s[|s| - 1] != c {
      LastIndexOfIsLast(s[..|s| - 1], c);
    }
  }

  /** `path.basename(p)`: everything after the last separator. */
  function Basename(p: Path): string
  {
    p[LastIndexOf(p, '/') + 1..]
  }

  /** The base name is the longest tail of the path that holds no separator: it is
      the whole path, or a separator precedes it. */
  lemma BasenameIsLastSegment(p: Path)
    ensures var b := Basename(p);
      && |b| <= |p| && p[|p| - |b|..] == b
      && (forall k | 0 <= k < |b| :: b[k] != '/')
      && (|b| == |p| || p[|p| - |b| - 1] == '/')
  {
    LastIndexOfIsLast(p, '/');
    var i := LastIndexOf(p, '/');
    var b := p[i + 1..];
    forall k | 0 <= k < |b|
      ensures b[k] != '/'
    {
      assert b[k] == p[i + 1 + k];
    }
  }

  /** `path.extname(p)`: the base name from its last dot on, except that a name
      whose only dot leads it (".json") and the name ".." have no extension. */
  function Extname(p: Path): string
  {
    var b := Basename(p);
    var d := LastIndexOf(b, '.');
    if d <= 0 || b == ".." then "" else b[d..]
  }

  /** `path.basename(p, path.extname(p))`: the base name with its extension removed. */
  function Stem(p: Path): string
  {
    var b := Basename(p);
    var e := Extname(p);
    if |e| <= |b| then b[..|b| - |e|] else b
  }

  /** An extension is empty or a dot followed by dot-free text, and it is a proper
      tail of the base name; the stem is what precedes it. */
  lemma ExtnameSplitsBasename(p: Path)
    ensures var b, e := Basename(p), Extname(p);
      && (e == "" || (e[0] == '.' && |e| < |b|))
      && (forall k | 0 < k < |e| :: e[k] != '.')
      && Stem(p) + e == b
      && (e != "" ==> Stem(p) != "")
      && (e == "" ==> b == ".." || forall k | 0 < k < |b| :: b[k] != '.')
  {
    var b := Basename(p);
    LastIndexOfIsLast(b, '.');
    var d := LastIndexOf(b, '.');
    var e := Extname(p);
    if e != "" {
      assert e == b[d..];
      forall k | 0 < k < |e|
        ensures e[k] != '.'
      {
        assert e[k] == b[d + k];
      }
      assert b[..d] + b[d..] == b;
    }
  }

  /** `path.join(dir, name)`, reduced to a single separator between the two parts. */
  function Join(dir: Path, name: string): Path
  {
    var head := if |dir| > 0 && dir[|dir| - 1] == '/' then dir[..|dir| - 1] else dir;
    var tail := if |name| > 0 && name[0] == '/' then name[1..] else name;
    head + "/" + tail
  }

  /** A directory entry joined to its directory has that entry as its base name. */
  lemma BasenameOfJoin(dir: Path, name: string)
    requires '/' !in name
    ensures Basename(Join(dir, name)) == name
  {
    var head := if |dir| > 0 && dir[|dir| - 1] == '/' then dir[..|dir| - 1] else dir;
    var p := Join(dir, name);
    assert p == head + "/" + name;
    assert p[|head|] == '/';
    LastIndexOfIsLast(p, '/');
    var i := LastIndexOf(p, '/');
    assert i == |head|;
    assert p[|head| + 1..] == name;
  }

}
