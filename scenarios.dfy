/**
 * Client programs exercising pull-through, write-through, write-back flush, a failed flush,
 * getattr, unlink and readdir, proved from nothing but the contracts of the operations they call.
 */
module Scenarios {
  import opened Errors
  import opened Content
  import opened Paths
  import opened Trees
  import opened CacheFS

  /** The bytes of an ASCII string. */
  function Ascii(s: string): (b: Bytes)
    requires forall i :: 0 <= i < |s| ==> s[i] as int < 256
    ensures |b| == |s|
    ensures forall i :: 0 <= i < |s| ==> b[i] as int == s[i] as int
  {
    seq(|s|, i requires 0 <= i < |s| => s[i] as int as byte)
  }

  /** A file only the remote holds is pulled into the cache on open and read back unchanged. */
  method PullThroughOnOpen() {
    var hello := Ascii("hello");
    var fs := new SimpleCacheFS("/remote", "/cache", WriteThrough, false, map["a.txt" := hello], map[]);
    var fh := fs.Open("/a.txt", false);
    assert fh == Ok(0);
    var got := fs.Read(5, 0, 0);
    ReadWhole(hello);
    assert got == Ok(hello);
    assert fs.cache == map["a.txt" := hello];
  }

  /** Populating twice copies once: the second call finds the cache copy and changes nothing. */
  method PopulateTwice() {
    var fs := new SimpleCacheFS("/remote", "/cache", WriteThrough, false, map["a" := [1, 2, 3]], map[]);
    var first := fs.EnsureCached("/a", false);
    var afterFirst := fs.cache;
    var second := fs.EnsureCached("/a", true);
    assert first.Ok? && second.Ok?;
    assert fs.cache == afterFirst == map["a" := [1, 2, 3]];
  }

  /**
   * For any engine and any file only the remote holds: opening it pulls it into the cache,
   * and one read of its length through the new handle gives the remote bytes, unless the copy fails.
   */
  method PullThroughAny(fs: SimpleCacheFS, path: string, fetchFails: bool) returns (got: Result<Bytes>)
    requires fs.Valid()
    requires Rel(path) in fs.remote && Rel(path) !in fs.cache
    modifies fs`cache, fs`openFiles, fs`nextFh
    ensures fs.Valid()
    ensures fetchFails ==> got == Err(EIO)
    ensures !fetchFails ==> got == Ok(fs.remote[Rel(path)]) && Rel(path) in fs.cache && fs.cache[Rel(path)] == fs.remote[Rel(path)]
  {
    var fh := fs.Open(path, fetchFails);
    if fh.Err? {
      return Err(fh.error);
    }
    var k := Rel(path);
    ReadWhole(fs.remote[k]);
    got := fs.Read(|fs.remote[k]|, 0, fh.value);
  }

  /** For any engine: once population has succeeded, populating again succeeds and changes nothing. */
  method PopulateTwiceAny(fs: SimpleCacheFS, path: string, fails1: bool, fails2: bool)
    returns (first: Result<()>, second: Result<()>)
    modifies fs`cache
    ensures first.Ok? <==> Fetches(old(fs.cache), fs.remote, Rel(path), fails1)
    ensures first.Ok? ==> second.Ok? && fs.cache == Populated(old(fs.cache), fs.remote, Rel(path))
  {
    first := fs.EnsureCached(path, fails1);
    var afterFirst := fs.cache;
    second := fs.EnsureCached(path, fails2);
    if first.Ok? {
      assert fs.cache == afterFirst;
    }
  }

  /** Write-through: the remote holds the written bytes before the handle is released. */
  method WriteThroughBeforeRelease() {
    var data := Ascii("xxxxxxxxxx");
    var fs := new SimpleCacheFS("/remote", "/cache", WriteThrough, false, map[], map[]);
    var fh := fs.Create("/b.txt", false);
    assert fh == Ok(0);
    var n := fs.Write("/b.txt", data, 0, 0, false);
    assert n == Ok(10);
    assert fs.remote["b.txt"] == fs.cache["b.txt"] == data;
    assert fs.dirtyFiles == {};
  }

  /** Write-back: the remote lacks the file until release flushes it. */
  method WriteBackFlushOnRelease() {
    var data := Ascii("xxxxxxxxxx");
    var fs := new SimpleCacheFS("/remote", "/cache", WriteBack, false, map[], map[]);
    var fh := fs.Create("/b.txt", false);
    assert fh == Ok(0);
    var n := fs.Write("/b.txt", data, 0, 0, false);
    assert n == Ok(10);
    assert "b.txt" !in fs.remote;
    assert fs.dirtyFiles == {"/b.txt"};
    var status := fs.Release("/b.txt", 0, false);
    assert status == 0;
    assert fs.remote["b.txt"] == data;
    assert fs.dirtyFiles == {};
  }

  /**
   * A failed flush on release is not reported and leaves the path dirty; releasing the same
   * handle again is refused and does not retry the flush.
   */
  method FailedFlushStaysDirty() {
    var fs := new SimpleCacheFS("/remote", "/cache", WriteBack, false, map[], map[]);
    var fh := fs.Create("/b.txt", false);
    var n := fs.Write("/b.txt", [7], 0, 0, false);
    var status := fs.Release("/b.txt", 0, true);
    assert status == 0;
    assert fs.dirtyFiles == {"/b.txt"};
    status := fs.Release("/b.txt", 0, false);
    assert status == -9;
    assert fs.dirtyFiles == {"/b.txt"};
  }

  /** With metadata caching off, getattr reports the remote copy even though the cache holds a stale one. */
  method StaleCacheIgnoredByGetAttr() {
    var fs := new SimpleCacheFS("/remote", "/cache", WriteThrough, false,
                                map["c.txt" := [1, 2, 3, 4, 5, 6, 7]], map["c.txt" := [1, 2, 3]]);
    assert fs.GetAttr("/c.txt") == Ok(FileStat(Remote, 7));
  }

  /** Unlink removes both copies, after which getattr raises ENOENT. */
  method UnlinkThenGetAttr() {
    var fs := new SimpleCacheFS("/remote", "/cache", WriteBack, true,
                                map["d" := [1]], map["d" := [1, 2]]);
    fs.Unlink("/d");
    assert fs.GetAttr("/d") == Err(ENOENT);
  }

  /**
   * A dirty path need not have a cache copy: a handle outlives the unlink of its file, and a
   * write through it marks the path dirty although neither tree holds it any more.
   */
  method DirtyWithoutCacheCopy() {
    var fs := new SimpleCacheFS("/remote", "/cache", WriteBack, false, map[], map[]);
    var fh := fs.Create("/e", false);
    assert fh == Ok(0);
    fs.Unlink("/e");
    var n := fs.Write("/e", [1], 0, 0, false);
    assert n == Ok(1);
    assert "/e" in fs.dirtyFiles && "e" !in fs.cache;
  }

  /** The listing of a directory both trees hold is the union of their listings, without repeats. */
  method ListingIsUnion() {
    var fs := new SimpleCacheFS("/remote", "/cache", WriteBack, false,
                                map["x" := [1], "y" := [2]], map["x" := [1], "z" := [3]]);
    var entries := fs.Readdir("/");
    assert DirPrefix("") + "x" == "x" && DirPrefix("") + "z" == "z";
    ChildListed(fs.remote, "", "x");
    ChildListed(fs.cache, "", "z");
    assert "x" in entries[2..] && "z" in entries[2..];
    assert entries[..2] == [".", ".."];
  }
}
