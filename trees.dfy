/**
 * A directory tree as a map from the relative path of each regular file to its content.
 * Directories are not stored: a directory exists where some file lies below it, and the
 * root (the empty relative path) always exists.
 */
module Trees {
  import opened Content
  import opened Paths

  type Tree = map<string, Bytes>

  /** `key` lies strictly below the directory prefix `pre`. */
  predicate Below(pre: string, key: string) {
    |pre| < |key| && HasPrefix(pre, key)
  }

  /** What a name inside the directory `k` is appended to. */
  function DirPrefix(k: string): string {
    if k == "" then "" else k + "/"
  }

  /** `os.path.isdir` on the location of `k`. */
  predicate IsDir(t: Tree, k: string) {
    k == "" || exists key :: key in t && Below(k + "/", key)
  }

  /** `os.path.exists` on the location of `k`: a file or a directory. */
  predicate Exists(t: Tree, k: string) {
    k in t || IsDir(t, k)
  }

  /** `t` and `u` hold the same files with the same contents, except perhaps at `k`. */
  predicate AgreeExcept(t: Tree, u: Tree, k: string) {
    && t.Keys - {k} == u.Keys - {k}
    && forall x :: x in t && x != k ==> x in u && t[x] == u[x]
  }

  /** The leading component of a relative path: everything before its first separator. */
  function FirstComponent(s: string): (r: string)
    ensures '/' !in r
    ensures |r| <= |s| && s[..|r|] == r
    ensures r == s || s[|r|] == '/'
  {
    if s == [] || s[0] == '/' then [] else [s[0]] + FirstComponent(s[1..])
  }

  /** `os.listdir` on the location of `k`: the first component of every path below it. */
  function ListDir(t: Tree, k: string): set<string> {
    set key | key in t && Below(DirPrefix(k), key) :: FirstComponent(key[|DirPrefix(k)|..])
  }

  /** Only a directory has entries. */
  lemma ListingNeedsDir(t: Tree, k: string)
    ensures ListDir(t, k) != {} ==> IsDir(t, k)
  {
  }

  /** Every entry of a listing is a single name, and lists something that lies below the directory. */
  lemma ListedEntry(t: Tree, k: string, name: string)
    requires name in ListDir(t, k)
    ensures '/' !in name
    ensures exists key :: key in t && Below(DirPrefix(k), key) && HasNamePrefix(DirPrefix(k) + name, key)
  {
    var pre := DirPrefix(k);
    var key :| key in t && Below(pre, key) && FirstComponent(key[|pre|..]) == name;
    var rest := key[|pre|..];
    assert key == pre + rest;
    assert key[..|pre| + |name|] == pre + name;
    assert HasNamePrefix(pre + name, key);
  }

  /** `key` is the path `p` itself or a path inside the directory `p`. */
  predicate HasNamePrefix(p: string, key: string) {
    HasPrefix(p, key) && (|p| == |key| || key[|p|] == '/')
  }

  /** A file directly inside a directory is listed under its own name. */
  lemma ChildListed(t: Tree, k: string, name: string)
    requires name != "" && '/' !in name
    requires DirPrefix(k) + name in t
    ensures name in ListDir(t, k)
  {
  }

  /** Removing the file at `k` does not change whether `k` names a directory. */
  lemma IsDirWithoutSelf(t: Tree, k: string)
    ensures IsDir(t - {k}, k) == IsDir(t, k)
  {
  }

  /** Which tree an attribute query read. */
  datatype Side = Remote | Cache

  /**
   * The attributes `os.lstat` reports. Only the kind and the size are modelled; `side` stands
   * for the fields (times, ownership, mode) that belong to the file that was consulted.
   */
  datatype Stat = FileStat(side: Side, size: nat) | DirStat(side: Side)

  function StatOf(t: Tree, k: string, side: Side): Stat
    requires Exists(t, k)
  {
    if k in t then FileStat(side, |t[k]|) else DirStat(side)
  }
}
