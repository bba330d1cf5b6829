# SimpleCacheFS caching overlay, modelled in Dafny

This project models the engine of `SimpleCacheFS`, a FUSE filesystem that shows a "remote"
directory tree (the store that counts) through a local "cache" directory tree. Reads pull a
file into the cache the first time it is opened. Writes are pushed back to the remote either
right away (`write-through`) or when a dirty file is closed (`write-back`).

The two trees are maps from relative path to file content (`Trees.Tree`). Directories are not
stored. A directory exists where some file lies below it, and the root always exists. The
engine itself is the class `CacheFS.SimpleCacheFS`. Its fields are the ones the Python class
updates in place: the two trees, `dirtyFiles`, `openFiles` (handle to the relative path of the
cache file it opened, standing in for the OS descriptor) and `nextFh`. The mount-time
configuration (`writeMode`, `metadataCache`, the two roots) is held in `const` fields, so it
cannot change after mounting.

Modules, leaves first:

- `Errors`: the error numbers ENOENT (2), EIO (5) and EBADF (9), and `Result`/`Option`.
- `Paths`: stripping one leading `/`, and two-argument `os.path.join` with its inverse `RelativeTo`.
- `Content`: what `lseek`+`read`, `lseek`+`write` and `truncate` do to the bytes of one file.
- `Trees`: `isdir`, `exists` and `listdir` over a tree, and the `lstat` result.
- `Streaming`: the 64 KiB `while True` copy loop.
- `CacheFS`: the engine, with the pure predicates that state what each step promises.
- `Scenarios`: client methods exercising pull-through, write-through, write-back flush, a failed
  flush, getattr, unlink and readdir, using only the contracts of the operations they call.

Storage failures are parameters. `fetchFails` makes the remote-to-cache copy fail, and
`syncFails` makes the cache-to-remote copy fail. After a failed copy the model makes no claim
about the target file's content. The one exception is a push whose cache copy is missing: the
source opens the cache file first, so the remote is not touched at all.

Behaviour of the source worth noting:

- The write modes are the strings `'write-through'` and `'write-back'` that the code compares
  against. Any other string means no policy at all.
- `create` adds no pull-through. It keeps an existing cache copy, or else makes an empty one.
  So in write-through mode, creating a path the cache lacks overwrites the remote copy with
  nothing.
- A dirty path need not have a cache copy. A handle survives the unlink of its file, and a
  write through it still marks the path dirty
  (`Scenarios.DirtyWithoutCacheCopy`).
- In write-through mode, a `create` whose push fails raises EIO, but the handle stays issued.

## Model

| member | source | states |
|---|---|---|
| `Paths.Rel` | simple_cache_fs.py:71-72 | the key is the virtual path with at most one leading separator removed |
| `Paths.Join` | simple_cache_fs.py:73 | an absolute second argument replaces the root; otherwise the result starts with the root and is at least as long as root and path together |
| `Paths.JoinRoundTrip` | simple_cache_fs.py:69-79 | stripping the root from a joined relative path gives that path back |
| `Paths.JoinInjective` | simple_cache_fs.py:69-79 | distinct relative paths translate to distinct locations under one root |
| `Paths.DistinctRootsApart` | simple_cache_fs.py:69-79 | two different roots as `os.path.realpath` gives them (lines 50-51) never share a location for the same relative path, so, when the engine's roots are distinct resolved roots, the remote copy and the cache copy of a path that does not start with two separators are different files; the lemma is about `Join` alone, and no engine member requires `Resolved` or distinct roots |
| `Paths.DoubleSeparatorEscapesRoot` | simple_cache_fs.py:71-73 | a path that starts with two separators ignores the root and translates to `/` followed by the rest |
| `CacheFS.SimpleCacheFS.RemotePath` | simple_cache_fs.py:69-73 | the remote location lies below the remote root at the path's relative position |
| `CacheFS.SimpleCacheFS.CachePath` | simple_cache_fs.py:75-79 | the cache location lies below the cache root at the path's relative position |
| `Content.ReadAt` | simple_cache_fs.py:200-202 | gives at most `length` bytes, equal to the file from `offset` on; short at end of file and empty at or past it |
| `Content.WriteAt` | simple_cache_fs.py:211-212 | `data` lands at `offset`; all other bytes are the old ones, with zeros in any gap past the old end; an empty write changes nothing |
| `Content.Resize` | simple_cache_fs.py:245-246 | the result has exactly `length` bytes: the old prefix, then zeros |
| `Content.ReadAfterWrite` | simple_cache_fs.py:200-212 | reading the range just written returns the written bytes |
| `Content.WriteGapIsResize` | simple_cache_fs.py:211-212 | below `offset`, a write leaves the file as truncating to `offset` would |
| `Content.ReadWhole` | simple_cache_fs.py:201-202 | one read of the file's length from offset 0 returns the whole file |
| `Content.ResizeRoundTrip` | simple_cache_fs.py:246 | zero-extending and then truncating back to the old length restores the file |
| `Scenarios.PullThroughAny` | simple_cache_fs.py:170-177 | for any engine and any file only the remote holds, open (which populates the cache) then a full-length `read` through the new handle gives the remote bytes, and the cache then holds them; EIO when the copy fails |
| `Scenarios.PopulateTwiceAny` | simple_cache_fs.py:86-92 | for any engine, once population has succeeded a second population succeeds and changes nothing |
| `Streaming.ReadChunk` | simple_cache_fs.py:100-101 | a chunk holds at most 64 KiB of the source from the current position, and is empty exactly at end of file |
| `Streaming.StreamCopy` | simple_cache_fs.py:98-103 | the chunked loop ends and its copy equals the source byte for byte |
| `Trees.FirstComponent` | simple_cache_fs.py:159 | the leading name of a relative path: a separator-free prefix that ends at the first separator or at the end |
| `Trees.ListingNeedsDir` | simple_cache_fs.py:158-162 | only a directory has listing entries, so a tree where the path is no directory adds nothing |
| `Trees.ListedEntry` | simple_cache_fs.py:158-162 | every listed entry is a single name, and the tree holds a file at or below that name in the directory |
| `Trees.ChildListed` | simple_cache_fs.py:158-162 | a file directly inside the directory is listed under its name |
| `Trees.IsDirWithoutSelf` | simple_cache_fs.py:260-265 | removing the file at a path does not change whether the path names a directory |
| `CacheFS.ListOf` | simple_cache_fs.py:164 | the list holds each element of the set exactly once and nothing else |
| `CacheFS.SimpleCacheFS.constructor` | simple_cache_fs.py:50-59 | the configuration and the two trees are stored, with no dirty paths, no live handles and the counter at 0 |
| `CacheFS.SimpleCacheFS.Init` | simple_cache_fs.py:47-59 | mounting is refused unless both roots are directories; otherwise a fresh engine in the initial state |
| `CacheFS.SimpleCacheFS.EnsureCached` | simple_cache_fs.py:86-106 | it succeeds exactly when the cache holds the file or the copy goes through; a cached path is left alone; on a miss the cache gains the remote bytes; ENOENT when both trees lack the file, with nothing changed; EIO when the copy fails |
| `CacheFS.SimpleCacheFS.SyncToRemote` | simple_cache_fs.py:110-125 | on success the remote copy becomes the cache copy and no other file changes; EIO otherwise; the remote is untouched when the cache copy is missing |
| `CacheFS.SimpleCacheFS.GetAttr` | simple_cache_fs.py:132-140 | reads the cache tree exactly when metadata caching is on and the cache has the path, otherwise only the remote; ENOENT exactly when neither consulted tree has it; a file's size is its length |
| `CacheFS.SimpleCacheFS.Readdir` | simple_cache_fs.py:153-166 | `.` and `..` first, then names without repeats whose set is the union of both trees' listings |
| `CacheFS.SimpleCacheFS.Open` | simple_cache_fs.py:170-177 | after population it returns the old counter, which was not live, binds exactly that handle and advances the counter; a failed population raises its error and issues no handle |
| `CacheFS.SimpleCacheFS.Create` | simple_cache_fs.py:181-193 | keeps or empties the cache copy and issues the next handle; write-back adds the path to the dirty set and leaves the remote alone; write-through leaves the dirty set alone and makes the remote equal the cache copy, or raises EIO with the handle still issued |
| `CacheFS.SimpleCacheFS.Read` | simple_cache_fs.py:197-202 | EBADF exactly for a handle that is not live; otherwise the bytes at `offset` of the file the handle opened |
| `CacheFS.SimpleCacheFS.Write` | simple_cache_fs.py:206-220 | EBADF with no change for an unknown handle; else splices `data` into the handle's file; write-through pushes `path` (after success remote equals cache) and leaves the dirty set alone; write-back adds `path` to the dirty set, leaves the remote alone and returns the length of `data` |
| `CacheFS.SimpleCacheFS.Release` | simple_cache_fs.py:224-238 | returns -9 and changes nothing for an unknown handle; otherwise removes exactly that handle and returns 0; in write-back mode a dirty path is pushed, and becomes clean only if the push succeeds, after which remote equals cache |
| `CacheFS.SimpleCacheFS.Truncate` | simple_cache_fs.py:242-252 | raises the population error and changes nothing else when population fails; else the cache copy is cut or zero-extended to `length`, followed by the same policy as a write |
| `CacheFS.SimpleCacheFS.Unlink` | simple_cache_fs.py:256-268 | removes the path from the cache, the remote and the dirty set, whether or not the copies exist; afterwards getattr raises ENOENT for any metadata setting, unless a tree has a directory of that name |

## Left out

- Locking (`rwlock`): every operation is atomic and runs one after another.
- FUSE mounting, `FuseOSError` plumbing, argument parsing and `main()`: these are host glue. The refused mount is `Init` returning `None`.
- Logging: it has no effect on state.
- `os.path.realpath` on the roots: both roots are taken as already-resolved strings.
- OS path normalisation (`a//b`, `./`, `..`, symbolic links): two spellings of one file are two keys in the model.
- A virtual path with two leading separators (FUSE never sends one): in the source both `_remote_path` and `_cache_path` resolve it outside both roots, to one shared host file. The model keys it as the same absolute string in two separate trees, so the two copies are not aliased.
- `CacheFS.SimpleCacheFS.Init`: the model takes the remote and the cache as two independent trees whatever the roots are; it assumes, and the source does not check, that the roots are distinct and neither lies inside the other. With overlapping roots the source's trees alias: with equal roots population never copies and every push opens the shared file for writing before reading it, so the push leaves the file empty; with a cache root inside the remote root, populating a file also creates it in the remote tree.
- Well-formedness of a tree is not required: a tree may hold `a` and `a/b` together, or keys that start with `/` or contain `//`. Such trees stand for no real directory, and what the operations report on them means nothing.
- Directory creation (`os.makedirs`) and its failures: a tree has no empty directories.
- A directory path given to `open`, `create`, `truncate`, `unlink` or `_sync_to_remote`: the kernel routes directory operations elsewhere, so the model tests only for a regular file where the OS tests `os.path.exists`.
- `create` failing because the cache lacks the parent directory: `create` does not create parents, and the model's `create` always succeeds.
- Open flags, the create mode and the access mode of a descriptor: every handle can read and write, and `O_TRUNC`/`O_APPEND` are not modelled.
- `CacheFS.SimpleCacheFS.Read`: a handle whose cache file was unlinked while open reads as empty. The OS would still read the unlinked file. Writes through such a handle change neither tree, as in the OS.
- A handle is bound to a path, not to a file. If a path is unlinked and then created again, an old handle sees the new file.
- `CacheFS.SimpleCacheFS.EnsureCached`, `CacheFS.SimpleCacheFS.SyncToRemote`: after a copy fails partway, the partial content of the target file is not described (no claim is made about it).
- `lstat` fields other than the kind and the size (times, mode, owner, link count): `Stat.side` records only which tree was consulted.
- The unused `path` argument of `read` and the `fh` arguments of `getattr`, `readdir` and `truncate` are dropped.
- `main.py` (an unrelated image-annotation tool) is not part of this model.
