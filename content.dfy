/** The bytes of one regular file, and how reading, writing and truncating act on them. */
module Content {

  newtype byte = b: int | 0 <= b < 256

  type Bytes = seq<byte>

  function Min(a: int, b: int): int {
    if a <= b then a else b
  }

  function Max(a: int, b: int): int {
    if a <= b then b else a
  }

  function Zeros(n: nat): (z: Bytes)
    ensures |z| == n
    ensures forall i :: 0 <= i < n ==> z[i] == 0
  {
    seq(n, _ => 0)
  }

  /** `lseek(offset)` then `read(length)`: at most `length` bytes from `offset`, fewer at end of file. */
  function ReadAt(c: Bytes, offset: nat, length: nat): (r: Bytes)
    ensures |r| == if offset < |c| then Min(length, |c| - offset) else 0
    ensures forall i :: 0 <= i < |r| ==> r[i] == c[offset + i]
  {
    if offset < |c| then c[offset..Min(offset + length, |c|)] else []
  }

  /**
   * `lseek(offset)` then `write(data)`: `data` replaces the bytes from `offset` on, and a gap
   * between the old end of file and `offset` reads as zeros. Writing nothing changes nothing.
   */
  function WriteAt(c: Bytes, offset: nat, data: Bytes): (r: Bytes)
    ensures |r| == if data == [] then |c| else Max(|c|, offset + |data|)
    ensures forall i :: 0 <= i < |data| ==> r[offset + i] == data[i]
    ensures forall i :: 0 <= i < |r| && !(offset <= i < offset + |data|) ==>
              r[i] == if i < |c| then c[i] else 0
  {
    if data == [] then c
    else if offset <= |c| then
      c[..offset] + data + (if offset + |data| < |c| then c[offset + |data|..] else [])
    else
      c + Zeros(offset - |c|) + data
  }

  /** `truncate(length)`: cut the file to `length` bytes, or extend it with zeros. */
  function Resize(c: Bytes, length: nat): (r: Bytes)
    ensures |r| == length
    ensures forall i :: 0 <= i < length ==> r[i] == if i < |c| then c[i] else 0
  {
    if length <= |c| then c[..length] else c + Zeros(length - |c|)
  }

  /** Reading back the range just written yields exactly the bytes written. */
  lemma ReadAfterWrite(c: Bytes, offset: nat, data: Bytes)
    ensures ReadAt(WriteAt(c, offset, data), offset, |data|) == data
  {
  }

  /** Below the written range a write leaves the file as truncating it to `offset` would. */
  lemma WriteGapIsResize(c: Bytes, offset: nat, data: Bytes)
    requires data != []
    ensures WriteAt(c, offset, data)[..offset] == Resize(c, offset)
  {
  }

  /** The whole file is read back by one read of its own length from the start. */
  lemma ReadWhole(c: Bytes)
    ensures ReadAt(c, 0, |c|) == c
  {
  }

  /** Extending with zeros and truncating back to the old length restores the file. */
  lemma ResizeRoundTrip(c: Bytes, length: nat)
    requires |c| <= length
    ensures Resize(Resize(c, length), |c|) == c
  {
  }
}
