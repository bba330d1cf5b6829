/**
 * The caching overlay engine: a remote tree (the authoritative store) seen through a local
 * cache tree, with a table of open handles, a set of dirty paths and a write policy fixed at
 * mount time. Every operation runs to completion before the next one starts.
 */
module CacheFS {
  import opened Errors
  import opened Content
  import opened Paths
  import opened Trees
  import Streaming

  /** The two write policies the engine recognises, by the names it compares against. */
  const WriteThrough: string := "write-through"
  const WriteBack: string := "write-back"

  /** Population of `k` into the cache succeeds: it is already cached, or the copy goes through. */
  predicate Fetches(cache: Tree, remote: Tree, k: string, fails: bool) {
    k in cache || (k in remote && !fails)
  }

  /** The cache after a successful population of `k`. */
  function Populated(cache: Tree, remote: Tree, k: string): Tree
    requires k in cache || k in remote
  {
    if k in cache then cache else cache[k := remote[k]]
  }

  /** The error a failed population raises. */
  function FetchError(remote: Tree, k: string): Errno {
    if k in remote then EIO else ENOENT
  }

  /** After a failed population: a miss on both sides changes nothing, a failed copy leaves `k` unknown. */
  predicate FetchFailed(before: Tree, after: Tree, remote: Tree, k: string) {
    AgreeExcept(after, before, k) && (k !in remote ==> after == before)
  }

  /** A push of `k` to the remote succeeds: the cache copy can be read and the copy goes through. */
  predicate Syncs(cache: Tree, k: string, fails: bool) {
    k in cache && !fails
  }

  /** The remote tree after a push of `k` from `cache`, successful or not. */
  predicate SyncEffect(before: Tree, after: Tree, cache: Tree, k: string, fails: bool) {
    if Syncs(cache, k, fails) then after == before[k := cache[k]]
    else AgreeExcept(after, before, k) && (k !in cache ==> after == before)
  }

  /** The cache after writing `data` at `offset` through a handle onto `k`. */
  function AfterWrite(cache: Tree, k: string, offset: nat, data: Bytes): Tree {
    if k in cache then cache[k := WriteAt(cache[k], offset, data)] else cache
  }

  predicate Distinct(s: seq<string>) {
    forall i, j :: 0 <= i < j < |s| ==> s[i] != s[j]
  }

  /** `list(s)`: the elements of a set, each once, in some order. */
  method ListOf(s: set<string>) returns (r: seq<string>)
    ensures Distinct(r)
    ensures forall x :: x in r <==> x in s
  {
    r := [];
    var rest := s;
    while rest != {}
      invariant rest <= s
      invariant Distinct(r)
      invariant forall x :: x in r <==> x in s && x !in rest
      decreases |rest|
    {
      var x :| x in rest;
      r := r + [x];
      rest := rest - {x};
    }
  }

  class SimpleCacheFS {
    const remoteDir: string
    const cacheDir: string
    const writeMode: string
    const metadataCache: bool

    /** The remote and the cache directory trees, by relative path. */
    var remote: Tree
    var cache: Tree
    /** Virtual paths whose cache copy has not been pushed to the remote yet. */
    var dirtyFiles: set<string>
    /** Live handles, each bound to the relative path of the cache file it opened. */
    var openFiles: map<int, string>
    var nextFh: nat

    /** Every live handle was issued earlier, so the next one issued is new. */
    ghost predicate Valid()
      reads this
    {
      forall fh :: fh in openFiles ==> 0 <= fh < nextFh
    }

    constructor (remoteDir: string, cacheDir: string, writeMode: string, metadataCache: bool,
                 remote: Tree, cache: Tree)
      ensures Valid()
      ensures this.remoteDir == remoteDir && this.cacheDir == cacheDir
      ensures this.writeMode == writeMode && this.metadataCache == metadataCache
      ensures this.remote == remote && this.cache == cache
      ensures dirtyFiles == {} && openFiles == map[] && nextFh == 0
    {
      this.remoteDir := remoteDir;
      this.cacheDir := cacheDir;
      this.writeMode := writeMode;
      this.metadataCache := metadataCache;
      this.remote := remote;
      this.cache := cache;
      dirtyFiles := {};
      openFiles := map[];
      nextFh := 0;
    }

    /** Mounting refuses (`ValueError`) unless both roots are directories. */
    static method Init(remoteDir: string, cacheDir: string, remoteIsDir: bool, cacheIsDir: bool,
                       writeMode: string, metadataCache: bool, remote: Tree, cache: Tree)
      returns (fs: Option<SimpleCacheFS>)
      ensures fs.None? <==> !remoteIsDir || !cacheIsDir
      ensures fs.Some? ==> fresh(fs.value) && fs.value.Valid()
      ensures fs.Some? ==> fs.value.remoteDir == remoteDir && fs.value.cacheDir == cacheDir
      ensures fs.Some? ==> fs.value.writeMode == writeMode && fs.value.metadataCache == metadataCache
      ensures fs.Some? ==> fs.value.remote == remote && fs.value.cache == cache
      ensures fs.Some? ==> fs.value.dirtyFiles == {} && fs.value.openFiles == map[] && fs.value.nextFh == 0
    {
      if !remoteIsDir || !cacheIsDir {
        return None;
      }
      var created := new SimpleCacheFS(remoteDir, cacheDir, writeMode, metadataCache, remote, cache);
      fs := Some(created);
    }

    /** The location of a virtual path in the remote tree: below the remote root, at its relative path. */
    function RemotePath(path: string): (p: string)
      ensures !StartsWithSep(Rel(path)) ==> RelativeTo(remoteDir, p) == Some(Rel(path))
      ensures StartsWithSep(Rel(path)) ==> p == Rel(path)
    {
      Join(remoteDir, Rel(path))
    }

    /** The location of a virtual path in the cache tree: below the cache root, at its relative path. */
    function CachePath(path: string): (p: string)
      ensures !StartsWithSep(Rel(path)) ==> RelativeTo(cacheDir, p) == Some(Rel(path))
      ensures StartsWithSep(Rel(path)) ==> p == Rel(path)
    {
      Join(cacheDir, Rel(path))
    }

    /**
     * Pull-through: a no-op when the cache holds `path`; otherwise ENOENT when the remote lacks
     * it too, EIO when the copy fails, and else the cache gains a byte-identical copy.
     */
    method EnsureCached(path: string, fetchFails: bool) returns (r: Result<()>)
      modifies this`cache
      ensures r.Ok? <==> Fetches(old(cache), remote, Rel(path), fetchFails)
      ensures r.Ok? ==> cache == Populated(old(cache), remote, Rel(path))
      ensures r.Err? ==> r.error == FetchError(remote, Rel(path))
      ensures r.Err? ==> FetchFailed(old(cache), cache, remote, Rel(path))
    {
      var k := Rel(path);
      if k in cache {
        return Ok(());
      }
      if k !in remote {
        return Err(ENOENT);
      }
      if fetchFails {
        return Err(EIO);
      }
      var copy := Streaming.StreamCopy(remote[k]);
      cache := cache[k := copy];
      r := Ok(());
    }

    /** Whole-file push: the remote copy of `path` becomes the cache copy, or EIO is raised. */
    method SyncToRemote(path: string, syncFails: bool) returns (r: Result<()>)
      modifies this`remote
      ensures r.Ok? <==> Syncs(cache, Rel(path), syncFails)
      ensures r.Err? ==> r.error == EIO
      ensures SyncEffect(old(remote), remote, cache, Rel(path), syncFails)
      ensures r.Ok? ==> remote[Rel(path)] == cache[Rel(path)]
    {
      var k := Rel(path);
      if k !in cache || syncFails {
        return Err(EIO);
      }
      var copy := Streaming.StreamCopy(cache[k]);
      remote := remote[k := copy];
      r := Ok(());
    }

    /**
     * Attributes of `path`: the cache copy's when metadata caching is on and the cache holds it,
     * otherwise the remote copy's, and ENOENT when the remote lacks it as well.
     */
    function GetAttr(path: string): (r: Result<Stat>)
      reads this
      ensures r.Err? <==> !Exists(remote, Rel(path)) && !(metadataCache && Exists(cache, Rel(path)))
      ensures r.Err? ==> r.error == ENOENT
      ensures r.Ok? ==> r.value.side == if metadataCache && Exists(cache, Rel(path)) then Cache else Remote
      ensures r.Ok? && r.value.side == Cache ==>
                (r.value.FileStat? <==> Rel(path) in cache) &&
                (r.value.FileStat? ==> r.value.size == |cache[Rel(path)]|)
      ensures r.Ok? && r.value.side == Remote ==>
                (r.value.FileStat? <==> Rel(path) in remote) &&
                (r.value.FileStat? ==> r.value.size == |remote[Rel(path)]|)
    {
      var k := Rel(path);
      if metadataCache && Exists(cache, k) then Ok(StatOf(cache, k, Cache))
      else if !Exists(remote, k) then Err(ENOENT)
      else Ok(StatOf(remote, k, Remote))
    }

    /**
     * Directory listing: `.` and `..`, then every name listed by either tree, each once.
     * A tree in which `path` is no directory contributes nothing.
     */
    method Readdir(path: string) returns (entries: seq<string>)
      ensures |entries| >= 2 && entries[0] == "." && entries[1] == ".."
      ensures Distinct(entries[2..])
      ensures forall name :: name in entries[2..] <==>
                name in ListDir(remote, Rel(path)) || name in ListDir(cache, Rel(path))
    {
      var k := Rel(path);
      var contentSet: set<string> := {};
      if IsDir(remote, k) {
        contentSet := contentSet + ListDir(remote, k);
      } else {
        ListingNeedsDir(remote, k);
      }
      if IsDir(cache, k) {
        contentSet := contentSet + ListDir(cache, k);
      } else {
        ListingNeedsDir(cache, k);
      }
      var names := ListOf(contentSet);
      entries := [".", ".."] + names;
      assert entries[2..] == names;
    }

    /**
     * Open: populate the cache copy, then issue the next handle, bound to that copy.
     * A failed population issues no handle.
     */
    method Open(path: string, fetchFails: bool) returns (r: Result<int>)
      requires Valid()
      modifies this`cache, this`openFiles, this`nextFh
      ensures Valid()
      ensures Fetches(old(cache), remote, Rel(path), fetchFails) ==>
                && r == Ok(old(nextFh))
                && old(nextFh) !in old(openFiles)
                && openFiles == old(openFiles)[old(nextFh) := Rel(path)]
                && nextFh == old(nextFh) + 1
                && cache == Populated(old(cache), remote, Rel(path))
      ensures !Fetches(old(cache), remote, Rel(path), fetchFails) ==>
                && r == Err(FetchError(remote, Rel(path)))
                && openFiles == old(openFiles) && nextFh == old(nextFh)
                && FetchFailed(old(cache), cache, remote, Rel(path))
    {
      var fetched := EnsureCached(path, fetchFails);
      if fetched.Err? {
        return Err(fetched.error);
      }
      var fh := nextFh;
      nextFh := nextFh + 1;
      openFiles := openFiles[fh := Rel(path)];
      r := Ok(fh);
    }

    /**
     * Create: open the cache copy, creating it empty if absent (existing content is kept), issue
     * the next handle, then apply the create-time policy: write-back marks `path` dirty,
     * write-through pushes the copy; a failed push raises EIO but the handle stays issued.
     */
    method Create(path: string, syncFails: bool) returns (r: Result<int>)
      requires Valid()
      modifies this`cache, this`remote, this`dirtyFiles, this`openFiles, this`nextFh
      ensures Valid()
      ensures cache == old(cache)[Rel(path) := if Rel(path) in old(cache) then old(cache)[Rel(path)] else []]
      ensures old(nextFh) !in old(openFiles)
      ensures openFiles == old(openFiles)[old(nextFh) := Rel(path)] && nextFh == old(nextFh) + 1
      ensures writeMode == WriteBack ==>
                r == Ok(old(nextFh)) && dirtyFiles == old(dirtyFiles) + {path} && remote == old(remote)
      ensures writeMode == WriteThrough ==>
                && dirtyFiles == old(dirtyFiles)
                && SyncEffect(old(remote), remote, cache, Rel(path), syncFails)
                && r == if syncFails then Err(EIO) else Ok(old(nextFh))
      ensures writeMode == WriteThrough && r.Ok? ==> remote[Rel(path)] == cache[Rel(path)]
      ensures writeMode != WriteBack && writeMode != WriteThrough ==>
                r == Ok(old(nextFh)) && dirtyFiles == old(dirtyFiles) && remote == old(remote)
    {
      var k := Rel(path);
      if k !in cache {
        cache := cache[k := []];
      }
      var fh := nextFh;
      nextFh := nextFh + 1;
      openFiles := openFiles[fh := k];
      if writeMode == WriteBack {
        dirtyFiles := dirtyFiles + {path};
      } else if writeMode == WriteThrough {
        var synced := SyncToRemote(path, syncFails);
        if synced.Err? {
          return Err(synced.error);
        }
      }
      r := Ok(fh);
    }

    /** The bytes a handle reads: its cache file, or nothing once that file is gone. */
    function HandleContent(fh: int): Bytes
      reads this
      requires fh in openFiles
    {
      if openFiles[fh] in cache then cache[openFiles[fh]] else []
    }

    /** Read through a handle; EBADF for a handle that is not live. Nothing changes. */
    function Read(length: nat, offset: nat, fh: int): (r: Result<Bytes>)
      reads this
      ensures r.Err? <==> fh !in openFiles
      ensures r.Err? ==> r.error == EBADF
      ensures r.Ok? ==> r.value == ReadAt(HandleContent(fh), offset, length)
    {
      if fh !in openFiles then Err(EBADF) else Ok(ReadAt(HandleContent(fh), offset, length))
    }

    /**
     * Write through a handle (EBADF, and no change, for a handle that is not live), then apply
     * the write-time policy to `path`: write-through pushes it (EIO on failure), write-back
     * marks it dirty. The count returned is the length of `data`.
     */
    method Write(path: string, data: Bytes, offset: nat, fh: int, syncFails: bool) returns (r: Result<nat>)
      modifies this`cache, this`remote, this`dirtyFiles
      ensures fh !in openFiles ==>
                r == Err(EBADF) && cache == old(cache) && remote == old(remote) && dirtyFiles == old(dirtyFiles)
      ensures fh in openFiles ==> cache == AfterWrite(old(cache), openFiles[fh], offset, data)
      ensures fh in openFiles && writeMode == WriteThrough ==>
                && dirtyFiles == old(dirtyFiles)
                && SyncEffect(old(remote), remote, cache, Rel(path), syncFails)
                && r == if Syncs(cache, Rel(path), syncFails) then Ok(|data|) else Err(EIO)
      ensures fh in openFiles && writeMode == WriteThrough && r.Ok? ==>
                Rel(path) in cache && remote[Rel(path)] == cache[Rel(path)]
      ensures fh in openFiles && writeMode != WriteThrough ==>
                && r == Ok(|data|) && remote == old(remote)
                && dirtyFiles == if writeMode == WriteBack then old(dirtyFiles) + {path} else old(dirtyFiles)
    {
      if fh !in openFiles {
        return Err(EBADF);
      }
      var k := openFiles[fh];
      if k in cache {
        cache := cache[k := WriteAt(cache[k], offset, data)];
      }
      if writeMode == WriteThrough {
        var synced := SyncToRemote(path, syncFails);
        if synced.Err? {
          return Err(synced.error);
        }
      } else if writeMode == WriteBack && path !in dirtyFiles {
        dirtyFiles := dirtyFiles + {path};
      }
      r := Ok(|data|);
    }

    /**
     * Release a handle: -EBADF, and no change, for a handle that is not live; otherwise retire
     * it and return 0. In write-back mode a dirty `path` is pushed; only a successful push makes
     * it clean, a failed one leaves it dirty and is not reported.
     */
    method Release(path: string, fh: int, syncFails: bool) returns (status: int)
      requires Valid()
      modifies this`openFiles, this`remote, this`dirtyFiles
      ensures Valid()
      ensures fh !in old(openFiles) ==>
                && status == -EBADF.Code()
                && openFiles == old(openFiles) && remote == old(remote) && dirtyFiles == old(dirtyFiles)
      ensures fh in old(openFiles) ==> status == 0 && openFiles == old(openFiles) - {fh}
      ensures fh in old(openFiles) && writeMode == WriteBack && path in old(dirtyFiles) ==>
                && SyncEffect(old(remote), remote, cache, Rel(path), syncFails)
                && dirtyFiles == if Syncs(cache, Rel(path), syncFails) then old(dirtyFiles) - {path} else old(dirtyFiles)
      ensures fh in old(openFiles) && writeMode == WriteBack && path in old(dirtyFiles) && path !in dirtyFiles ==>
                remote[Rel(path)] == cache[Rel(path)]
      ensures fh in old(openFiles) && !(writeMode == WriteBack && path in old(dirtyFiles)) ==>
                remote == old(remote) && dirtyFiles == old(dirtyFiles)
    {
      if fh !in openFiles {
        return -EBADF.Code();
      }
      openFiles := openFiles - {fh};
      if writeMode == WriteBack && path in dirtyFiles {
        var synced := SyncToRemote(path, syncFails);
        if synced.Ok? {
          dirtyFiles := dirtyFiles - {path};
        }
      }
      status := 0;
    }

    /**
     * Truncate: populate the cache copy (ENOENT or EIO as for open), cut or zero-extend it to
     * `length`, then apply the same policy as a write.
     */
    method Truncate(path: string, length: nat, fetchFails: bool, syncFails: bool) returns (r: Result<()>)
      modifies this`cache, this`remote, this`dirtyFiles
      ensures !Fetches(old(cache), old(remote), Rel(path), fetchFails) ==>
                && r == Err(FetchError(old(remote), Rel(path)))
                && FetchFailed(old(cache), cache, old(remote), Rel(path))
                && remote == old(remote) && dirtyFiles == old(dirtyFiles)
      ensures Fetches(old(cache), old(remote), Rel(path), fetchFails) ==>
                var c := Populated(old(cache), old(remote), Rel(path));
                cache == c[Rel(path) := Resize(c[Rel(path)], length)]
      ensures Fetches(old(cache), old(remote), Rel(path), fetchFails) && writeMode == WriteThrough ==>
                && dirtyFiles == old(dirtyFiles)
                && SyncEffect(old(remote), remote, cache, Rel(path), syncFails)
                && r == if syncFails then Err(EIO) else Ok(())
      ensures writeMode == WriteThrough && r.Ok? ==> remote[Rel(path)] == cache[Rel(path)]
      ensures Fetches(old(cache), old(remote), Rel(path), fetchFails) && writeMode != WriteThrough ==>
                && r == Ok(()) && remote == old(remote)
                && dirtyFiles == if writeMode == WriteBack then old(dirtyFiles) + {path} else old(dirtyFiles)
    {
      var fetched := EnsureCached(path, fetchFails);
      if fetched.Err? {
        return Err(fetched.error);
      }
      var k := Rel(path);
      cache := cache[k := Resize(cache[k], length)];
      if writeMode == WriteThrough {
        var synced := SyncToRemote(path, syncFails);
        if synced.Err? {
          return Err(synced.error);
        }
      } else if writeMode == WriteBack && path !in dirtyFiles {
        dirtyFiles := dirtyFiles + {path};
      }
      r := Ok(());
    }

    /**
     * Unlink: drop the cache copy and the remote copy where present, and forget any dirty mark;
     * it never fails. Unless some tree still has a directory of that name, getattr then raises ENOENT.
     */
    method Unlink(path: string)
      modifies this`cache, this`remote, this`dirtyFiles
      ensures cache == old(cache) - {Rel(path)}
      ensures remote == old(remote) - {Rel(path)}
      ensures dirtyFiles == old(dirtyFiles) - {path}
      ensures !IsDir(old(cache), Rel(path)) && !IsDir(old(remote), Rel(path)) ==> GetAttr(path) == Err(ENOENT)
    {
      var k := Rel(path);
      IsDirWithoutSelf(cache, k);
      IsDirWithoutSelf(remote, k);
      if k in cache {
        cache := cache - {k};
      }
      if k in remote {
        remote := remote - {k};
      }
      dirtyFiles := dirtyFiles - {path};
    }
  }
}
