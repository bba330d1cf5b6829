/** The bounded-buffer copy loop that moves a whole file between the two trees. */
module Streaming {
  import opened Content

  /** The size of one read from the source file. */
  const ChunkSize: nat := 64 * 1024

  /** One `read(64 * 1024)` on a source positioned at `pos`: empty exactly at end of file. */
  function ReadChunk(src: Bytes, pos: nat): (chunk: Bytes)
    requires pos <= |src|
    ensures |chunk| <= ChunkSize
    ensures chunk == [] <==> pos == |src|
    ensures pos + |chunk| <= |src| && src[pos..pos + |chunk|] == chunk
  {
    src[pos..Min(pos + ChunkSize, |src|)]
  }

  /** Copy `src` chunk by chunk until a read comes back empty; the copy equals the source. */
  method StreamCopy(src: Bytes) returns (dst: Bytes)
    ensures dst == src
  {
    dst := [];
    var pos: nat := 0;
    while true
      invariant pos <= |src|
      invariant dst == src[..pos]
      decreases |src| - pos
    {
      var chunk := ReadChunk(src, pos);
      if chunk == [] {
        break;
      }
      dst := dst + chunk;
      pos := pos + |chunk|;
    }
    assert pos == |src|;
  }
}
