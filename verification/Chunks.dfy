/** Division of a file into chunks, and reading and writing one chunk in place. */
module Chunks {
  import opened Integers
  import opened Outcomes

  newtype byte = x: int | 0 <= x < 256

  type Bytes = seq<byte>

  /** 4 MiB. */
  const CHUNK_SIZE: int := 0x40_0000

  // ----- Chunk arithmetic on mathematical integers -----

  function ChunkNum(size: nat): nat {
    (size + CHUNK_SIZE - 1) / CHUNK_SIZE
  }

  function Offset(i: nat): nat {
    i * CHUNK_SIZE
  }

  function Len(size: nat, i: nat): (n: nat)
    requires i < ChunkNum(size)
    ensures 0 < n <= CHUNK_SIZE && Offset(i) + n <= size
  {
    if size - Offset(i) < CHUNK_SIZE then size - Offset(i) else CHUNK_SIZE
  }

  function Range(file: Bytes, i: nat): (data: Bytes)
    requires i < ChunkNum(|file|)
    ensures |data| == Len(|file|, i)
  {
    file[Offset(i)..Offset(i) + Len(|file|, i)]
  }

  /** The file with `data` written over the bytes that start at `offset`. */
  function Overwrite(file: Bytes, offset: nat, data: Bytes): (r: Bytes)
    requires offset + |data| <= |file|
    ensures |r| == |file|
  {
    file[..offset] + data + file[offset + |data|..]
  }

  /** Writing at an offset: a file that ends before is first filled up with zeros. */
  function WriteAt(file: Bytes, offset: nat, data: Bytes): (r: Bytes)
    ensures offset + |data| <= |file| ==> r == Overwrite(file, offset, data)
    ensures data != [] ==> offset + |data| <= |r| && r[offset..offset + |data|] == data
    ensures |file| <= |r| && (data == [] ==> r == file)
    ensures forall k :: 0 <= k < |file| && !(offset <= k < offset + |data|) ==> r[k] == file[k]
  {
    if data == [] then file
    else if offset + |data| <= |file| then Overwrite(file, offset, data)
    else Overwrite(file + seq(offset + |data| - |file|, _ => 0), offset, data)
  }

  lemma TilesAreDisjoint(size: nat, i: nat, j: nat)
    requires i < j < ChunkNum(size)
    ensures Offset(i) + Len(size, i) <= Offset(j)
  {
    assert Offset(j) >= Offset(i + 1) == Offset(i) + CHUNK_SIZE;
  }

  /** Each byte of the file lies in exactly one chunk. */
  lemma ByteHasOneTile(size: nat, p: nat)
    requires p < size
    ensures p / CHUNK_SIZE < ChunkNum(size)
    ensures forall i: nat | i < ChunkNum(size) ::
              Offset(i) <= p < Offset(i) + Len(size, i) <==> i == p / CHUNK_SIZE
  {
  }

  /** Writing (a prefix of) one chunk leaves the other chunks alone. */
  lemma OverwriteKeepsOtherTiles(file: Bytes, i: nat, data: Bytes, j: nat)
    requires i < ChunkNum(|file|) && j < ChunkNum(|file|) && i != j
    requires |data| <= Len(|file|, i)
    ensures Range(Overwrite(file, Offset(i), data), j) == Range(file, j)
  {
  }

  lemma OverwriteFillsTile(file: Bytes, i: nat, data: Bytes)
    requires i < ChunkNum(|file|) && |data| == Len(|file|, i)
    ensures Range(Overwrite(file, Offset(i), data), i) == data
  {
  }

  lemma SameTilesSameFile(a: Bytes, b: Bytes)
    requires |a| == |b|
    requires forall i: nat | i < ChunkNum(|a|) :: Range(a, i) == Range(b, i)
    ensures a == b
  {
    forall p | 0 <= p < |a| ensures a[p] == b[p] {
      ByteHasOneTile(|a|, p);
      var i := p / CHUNK_SIZE;
      assert Range(a, i)[p - Offset(i)] == Range(b, i)[p - Offset(i)];
    }
  }

  // ----- Total length of a set of chunks -----

  function TotalLen(size: nat, chunks: set<int>, k: nat): nat
    requires k <= ChunkNum(size)
  {
    if k == 0 then 0
    else TotalLen(size, chunks, k - 1) + if k - 1 in chunks then Len(size, k - 1) else 0
  }

  lemma {:induction false} TotalLenOfPrefix(size: nat, chunks: set<int>, k: nat)
    requires k <= ChunkNum(size)
    requires forall i :: 0 <= i < k ==> i in chunks
    ensures TotalLen(size, chunks, k) == if Offset(k) <= size then Offset(k) else size
  {
    if k > 0 {
      TotalLenOfPrefix(size, chunks, k - 1);
    }
  }

  /** The chunk lengths add up to the file size. */
  lemma TotalLenOfAll(size: nat, chunks: set<int>)
    requires forall i :: 0 <= i < ChunkNum(size) ==> i in chunks
    ensures TotalLen(size, chunks, ChunkNum(size)) == size
  {
    TotalLenOfPrefix(size, chunks, ChunkNum(size));
  }

  lemma {:induction false} TotalLenAdd(size: nat, chunks: set<int>, i: nat, k: nat)
    requires k <= ChunkNum(size) && i < ChunkNum(size) && i !in chunks
    ensures TotalLen(size, chunks + {i}, k)
         == TotalLen(size, chunks, k) + if i < k then Len(size, i) else 0
  {
    if k > 0 {
      TotalLenAdd(size, chunks, i, k - 1);
    }
  }

  // ----- Copying a file chunk by chunk -----

  ghost predicate ValidOrder(order: seq<nat>, count: nat) {
    forall k | 0 <= k < |order| :: order[k] < count
  }

  /** `target` after the chunks listed in `order` were read from `source` and saved. */
  ghost function CopyChunks(source: Bytes, target: Bytes, order: seq<nat>): (r: Bytes)
    requires |source| == |target|
    requires ValidOrder(order, ChunkNum(|source|))
    ensures |r| == |source|
  {
    if order == [] then target
    else
      var last := order[|order| - 1];
      Overwrite(CopyChunks(source, target, order[..|order| - 1]), Offset(last), Range(source, last))
  }

  lemma {:induction false} CopiedChunkAgrees(source: Bytes, target: Bytes, order: seq<nat>, i: nat)
    requires |source| == |target|
    requires ValidOrder(order, ChunkNum(|source|))
    requires i in order
    ensures Range(CopyChunks(source, target, order), i) == Range(source, i)
  {
    var rest, last := order[..|order| - 1], order[|order| - 1];
    var before := CopyChunks(source, target, rest);
    if i == last {
      OverwriteFillsTile(before, i, Range(source, i));
    } else {
      assert i in rest;
      CopiedChunkAgrees(source, target, rest, i);
      OverwriteKeepsOtherTiles(before, last, Range(source, last), i);
    }
  }

  /** In any order and with any repetitions, copying every chunk copies the file. */
  lemma CopyingEveryChunkCopiesFile(source: Bytes, target: Bytes, order: seq<nat>)
    requires |source| == |target|
    requires ValidOrder(order, ChunkNum(|source|))
    requires forall i: nat | i < ChunkNum(|source|) :: i in order
    ensures CopyChunks(source, target, order) == source
  {
    forall i: nat | i < ChunkNum(|source|)
      ensures Range(CopyChunks(source, target, order), i) == Range(source, i)
    {
      CopiedChunkAgrees(source, target, order, i);
    }
    SameTilesSameFile(CopyChunks(source, target, order), source);
  }

  // ----- The file handle -----

  /** Sizes for which the ceiling division stays within 64 bits. */
  type FileSize = x: int64 | 0 <= x <= 0x7FFF_FFFF_FFBF_FFFF

  datatype ChunkError = InvalidIndex | ShortBuffer | WrongLength | IoError

  /** An open file together with the size recorded when it was opened.  The file on
      disk may since have become shorter or longer. */
  class FileChunk {
    const statSize: Option<FileSize>
    var content: Bytes

    constructor (statSize: Option<FileSize>, content: Bytes)
      ensures this.statSize == statSize && this.content == content
    {
      this.statSize := statSize;
      this.content := content;
    }

    function GetChunkNum(): (n: int64)
      ensures statSize.None? ==> n == 0
      ensures statSize.Some? ==> n as int == ChunkNum(statSize.value as int)
    {
      if statSize.None? || statSize.value == 0 then 0
      else (statSize.value + CHUNK_SIZE as int64 - 1) / CHUNK_SIZE as int64
    }

    /** How much of a chunk of `n` bytes the file on disk still has. */
    function Available(offset: nat, n: nat): (k: nat)
      reads this
      ensures k <= n && (k > 0 ==> offset + k <= |content|)
      ensures k == n <==> n == 0 || offset + n <= |content|
    {
      if offset + n <= |content| then n else if offset <= |content| then |content| - offset else 0
    }

    /** Reads one chunk into the front of `buf`; if the file became shorter the front holds what
        was left of the chunk, and the read fails. */
    method ReadChunk(index: int64, buf: array<byte>) returns (r: Result<int64, ChunkError>)
      modifies buf
      ensures r.Ok? <==>
                && 0 <= index < GetChunkNum()
                && Offset(index as int) + Len(statSize.value as int, index as int) <= |content|
                && Len(statSize.value as int, index as int) <= buf.Length
      ensures r.Ok? ==>
                && r.value as int == Len(statSize.value as int, index as int)
                && buf[..r.value] == content[Offset(index as int)..Offset(index as int) + r.value as int]
                && buf[r.value..] == old(buf[r.value..])
      ensures r.Ok? && |content| == statSize.value as int ==> buf[..r.value] == Range(content, index as int)
      ensures r == Err(InvalidIndex) || r == Err(ShortBuffer) ==> buf[..] == old(buf[..])
      ensures r.Err? && r != Err(InvalidIndex) && r != Err(ShortBuffer) ==>
                && r == Err(IoError) && 0 <= index < GetChunkNum()
                && var k := Available(Offset(index as int), Len(statSize.value as int, index as int));
                && k < Len(statSize.value as int, index as int) <= buf.Length
                && (k > 0 ==> buf[..k] == content[Offset(index as int)..Offset(index as int) + k])
                && buf[k..] == old(buf[k..])
    {
      if index >= GetChunkNum() || index < 0 {
        return Err(InvalidIndex);
      }
      var size := statSize.value;
      var readSize := CHUNK_SIZE as int64;
      var offset := CHUNK_SIZE as int64 * index;
      if offset + readSize > size {
        readSize := size - offset;
      }
      if buf.Length < readSize as int {
        return Err(ShortBuffer);
      }
      var n := Available(offset as int, readSize as int);
      forall k | 0 <= k < n {
        buf[k] := content[offset as int + k];
      }
      assert buf[n..] == old(buf[n..]);
      assert n > 0 ==> buf[..n] == content[offset as int..offset as int + n];
      if n < readSize as int {
        return Err(IoError);
      }
      return Ok(readSize);
    }

    /** Writes one chunk.  The disk decides how many bytes it accepts: `accepted` bytes
        reach the file, and fewer than all of them is an error. */
    method Save(index: int64, data: Bytes, accepted: nat) returns (r: Result<(), ChunkError>)
      requires accepted <= |data|
      modifies this
      ensures r == if !(0 <= index < GetChunkNum()) then Err(InvalidIndex)
                   else if |data| != Len(statSize.value as int, index as int) then Err(WrongLength)
                   else if accepted < |data| then Err(IoError)
                   else Ok(())
      ensures content == if r.Ok? || r == Err(IoError)
                         then WriteAt(old(content), Offset(index as int), data[..accepted])
                         else old(content)
    {
      if index < 0 || index >= GetChunkNum() {
        return Err(InvalidIndex);
      }
      var size, chunk := statSize.value, CHUNK_SIZE as int64;
      var want := if chunk <= size - index * chunk then chunk else size - index * chunk;
      if |data| != want as int {
        return Err(WrongLength);
      }
      content := WriteAt(content, (index * chunk) as int, data[..accepted]);
      if accepted < |data| {
        return Err(IoError);
      }
      return Ok(());
    }
  }

  /** A chunk read from one file and saved into an equally long one arrives intact. */
  method TransferChunk(source: FileChunk, target: FileChunk, index: int64, buf: array<byte>)
    returns (ok: bool)
    requires source != target && source.statSize.Some? && source.statSize == target.statSize
    requires |source.content| == source.statSize.value as int == |target.content|
    requires buf.Length == CHUNK_SIZE
    modifies target, buf
    ensures ok <==> 0 <= index < source.GetChunkNum()
    ensures ok ==> target.content ==
                   CopyChunks(source.content, old(target.content), [index as int])
    ensures !ok ==> target.content == old(target.content)
  {
    var n := source.ReadChunk(index, buf);
    if n.Err? {
      return false;
    }
    var data := buf[..n.value];
    var saved := target.Save(index, data, |data|);
    assert [index as int][..0] == [];
    assert data[..|data|] == data;
    return saved.Ok?;
  }
}
