/** File-system paths as strings. */
module Paths {

  /** `Path::join` with a relative component: the two parts separated by '/'. */
  function Join(base: string, rel: string): (p: string)
    ensures |p| == |base| + 1 + |rel|
    ensures p[..|base|] == base && p[|base|] == '/' && p[|base| + 1..] == rel
  {
    base + "/" + rel
  }

  /** `path` lies strictly inside directory `dir`. */
  predicate InDir(dir: string, path: string) {
    |dir| < |path| && path[..|dir|] == dir && path[|dir|] == '/'
  }

  /** A joined path lies inside its base. */
  lemma JoinIsInDir(base: string, rel: string)
    ensures InDir(base, Join(base, rel))
  {
  }

  /** A path inside `Join(base, rel)` is inside `base` too. */
  lemma InDirTransitive(base: string, rel: string, path: string)
    requires InDir(Join(base, rel), path)
    ensures InDir(base, path)
  {
    var d := Join(base, rel);
    assert path[..|base|] == d[..|d|][..|base|];
  }
}
