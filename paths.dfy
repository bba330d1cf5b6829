/** Translation of a virtual (mount-relative) path to a location under a root directory. */
module Paths {
  import opened Errors

  predicate StartsWithSep(s: string) {
    |s| > 0 && s[0] == '/'
  }

  predicate HasPrefix(p: string, s: string) {
    |p| <= |s| && s[..|p|] == p
  }

  /** The virtual path with one leading separator removed: the key under which both trees hold it. */
  function Rel(path: string): (r: string)
    ensures path == r || path == "/" + r
    ensures StartsWithSep(path) ==> |r| == |path| - 1
  {
    if StartsWithSep(path) then path[1..] else path
  }

  /** What a two-argument `os.path.join` puts in front of a relative second argument. */
  function Base(root: string): string {
    if root == "" || root[|root| - 1] == '/' then root else root + "/"
  }

  /** `os.path.join(root, rel)`: an absolute `rel` replaces the root. */
  function Join(root: string, rel: string): (full: string)
    ensures StartsWithSep(rel) ==> full == rel
    ensures !StartsWithSep(rel) ==> HasPrefix(root, full) && |full| >= |root| + |rel|
  {
    if StartsWithSep(rel) then rel else Base(root) + rel
  }

  /** The part of `full` below `root`, if `full` lies below it: the inverse of `Join`. */
  function RelativeTo(root: string, full: string): Option<string> {
    var base := Base(root);
    if HasPrefix(base, full) then Some(full[|base|..]) else None
  }

  /** Joining a relative path onto a root and stripping the root again gives the path back. */
  lemma JoinRoundTrip(root: string, rel: string)
    requires !StartsWithSep(rel)
    ensures RelativeTo(root, Join(root, rel)) == Some(rel)
  {
  }

  /** Distinct relative paths land on distinct locations under one root. */
  lemma JoinInjective(root: string, r1: string, r2: string)
    requires !StartsWithSep(r1) && !StartsWithSep(r2)
    requires Join(root, r1) == Join(root, r2)
    ensures r1 == r2
  {
    JoinRoundTrip(root, r1);
    JoinRoundTrip(root, r2);
  }

  /** A root as `os.path.realpath` gives it: absolute, and without a trailing separator unless it is `/`. */
  predicate Resolved(root: string) {
    root == "/" || (StartsWithSep(root) && root[|root| - 1] != '/')
  }

  /** Two different resolved roots never share a location for the same relative path. */
  lemma DistinctRootsApart(root1: string, root2: string, rel: string)
    requires Resolved(root1) && Resolved(root2) && root1 != root2
    requires !StartsWithSep(rel)
    ensures Join(root1, rel) != Join(root2, rel)
  {
  }

  /** A virtual path with two leading separators keeps one after stripping, so the root is ignored. */
  lemma DoubleSeparatorEscapesRoot(root: string, s: string)
    ensures Join(root, Rel("//" + s)) == "/" + s
  {
  }
}
