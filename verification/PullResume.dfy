/** Resuming a pull from whatever an earlier, crashed attempt left in the partial file
    (`write_all`, `resume_from_partial` in src/pull/pull_engine.cpp). */
module PullResume {
  import opened Common
  import opened ObjectLayouts

  /** The number of leading chunks, counting from chunk `i`, that the bytes hold completely and intact. */
  function IntactFrom(hash: Bytes -> ChunkId, chunks: seq<ChunkRef>, bytes: Bytes, i: nat): (n: nat)
    requires i <= |chunks|
    ensures i <= n <= |chunks|
    decreases |chunks| - i
  {
    if i < |chunks| && Holds(hash, chunks, bytes, i) then IntactFrom(hash, chunks, bytes, i + 1) else i
  }

  /** Chunk `i` is there, complete and with the right hash. */
  predicate Holds(hash: Bytes -> ChunkId, chunks: seq<ChunkRef>, bytes: Bytes, i: nat)
    requires i < |chunks|
  {
    Offset(chunks, i + 1) <= |bytes| && hash(bytes[Offset(chunks, i)..Offset(chunks, i + 1)]) == chunks[i].chunkId
  }

  /** The bytes are exactly the first `n` chunks. */
  ghost predicate IsPrefix(hash: Bytes -> ChunkId, chunks: seq<ChunkRef>, bytes: Bytes, n: nat)
    requires n <= |chunks|
  {
    |bytes| == Offset(chunks, n) && forall i: nat | i < n :: Holds(hash, chunks, bytes, i)
  }

  lemma {:induction false} IntactChunksHold(hash: Bytes -> ChunkId, chunks: seq<ChunkRef>, bytes: Bytes, i: nat)
    requires i <= |chunks|
    ensures var n := IntactFrom(hash, chunks, bytes, i);
            && (forall k | i <= k < n :: Holds(hash, chunks, bytes, k))
            && (n < |chunks| ==> !Holds(hash, chunks, bytes, n))
    decreases |chunks| - i
  {
    if i < |chunks| && Holds(hash, chunks, bytes, i) {
      IntactChunksHold(hash, chunks, bytes, i + 1);
    }
  }

  /** Cutting the file behind an intact chunk does not affect it. */
  lemma PrefixAfterCut(hash: Bytes -> ChunkId, chunks: seq<ChunkRef>, bytes: Bytes, n: nat)
    requires n <= |chunks| && Offset(chunks, n) <= |bytes|
    requires forall i: nat | i < n :: Holds(hash, chunks, bytes, i)
    ensures IsPrefix(hash, chunks, bytes[..Offset(chunks, n)], n)
  {
    forall i: nat | i < n
      ensures Holds(hash, chunks, bytes[..Offset(chunks, n)], i)
    {
      OffsetMonotonic(chunks, i + 1, n);
      assert Holds(hash, chunks, bytes, i);
      assert bytes[..Offset(chunks, n)][Offset(chunks, i)..Offset(chunks, i + 1)] == bytes[Offset(chunks, i)..Offset(chunks, i + 1)];
    }
  }

  /** Appending the next chunk extends the prefix. */
  lemma PrefixExtends(hash: Bytes -> ChunkId, chunks: seq<ChunkRef>, bytes: Bytes, n: nat, chunk: Bytes)
    requires n < |chunks| && IsPrefix(hash, chunks, bytes, n)
    requires |chunk| == chunks[n].size && hash(chunk) == chunks[n].chunkId
    ensures IsPrefix(hash, chunks, bytes + chunk, n + 1)
  {
    var more := bytes + chunk;
    forall i: nat | i <= n
      ensures Holds(hash, chunks, more, i)
    {
      if i < n {
        OffsetMonotonic(chunks, i + 1, n);
        assert Holds(hash, chunks, bytes, i);
        assert more[Offset(chunks, i)..Offset(chunks, i + 1)] == bytes[Offset(chunks, i)..Offset(chunks, i + 1)];
      } else {
        assert more[Offset(chunks, n)..Offset(chunks, n + 1)] == chunk;
      }
    }
  }

  /** Two files with the same verified chunks hold different bytes for the `i`-th one. */
  ghost predicate CollideAt(hash: Bytes -> ChunkId, chunks: seq<ChunkRef>, a: Bytes, b: Bytes, i: nat) {
    && i < |chunks| && Offset(chunks, i + 1) <= |a| && Offset(chunks, i + 1) <= |b|
    && Collide(hash, a[Offset(chunks, i)..Offset(chunks, i + 1)], b[Offset(chunks, i)..Offset(chunks, i + 1)])
  }

  lemma PrefixContents(hash: Bytes -> ChunkId, chunks: seq<ChunkRef>, a: Bytes, b: Bytes, n: nat, i: nat)
    requires i < n <= |chunks| && IsPrefix(hash, chunks, a, n) && IsPrefix(hash, chunks, b, n)
    ensures Offset(chunks, i + 1) <= |a| && Offset(chunks, i + 1) <= |b|
    ensures || a[Offset(chunks, i)..Offset(chunks, i + 1)] == b[Offset(chunks, i)..Offset(chunks, i + 1)]
            || CollideAt(hash, chunks, a, b, i)
  {
    assert Holds(hash, chunks, a, i) && Holds(hash, chunks, b, i);
  }

  lemma CollisionInWhole(hash: Bytes -> ChunkId, chunks: seq<ChunkRef>, a: Bytes, b: Bytes, cut: nat, i: nat)
    requires cut <= |a| && cut <= |b| && CollideAt(hash, chunks, a[..cut], b[..cut], i)
    ensures CollideAt(hash, chunks, a, b, i)
  {
    var from, to := Offset(chunks, i), Offset(chunks, i + 1);
    assert a[..cut][from..to] == a[from..to] && b[..cut][from..to] == b[from..to];
  }

  /** The chunk list alone determines the bytes, unless the two files contain a collision at one of its
      chunks. */
  lemma {:induction false} PrefixUnique(hash: Bytes -> ChunkId, chunks: seq<ChunkRef>, a: Bytes, b: Bytes, n: nat)
    requires n <= |chunks| && IsPrefix(hash, chunks, a, n) && IsPrefix(hash, chunks, b, n)
    ensures a == b || exists i: nat | i < n :: CollideAt(hash, chunks, a, b, i)
    decreases n
  {
    if n == 0 {
    } else {
      var cut := Offset(chunks, n - 1);
      assert forall i: nat | i < n - 1 :: Holds(hash, chunks, a, i) && Holds(hash, chunks, b, i);
      PrefixAfterCut(hash, chunks, a, n - 1);
      PrefixAfterCut(hash, chunks, b, n - 1);
      PrefixUnique(hash, chunks, a[..cut], b[..cut], n - 1);
      if a[..cut] == b[..cut] {
        PrefixContents(hash, chunks, a, b, n, n - 1);
        assert a == a[..cut] + a[cut..] && b == b[..cut] + b[cut..];
      } else {
        var i: nat :| i < n - 1 && CollideAt(hash, chunks, a[..cut], b[..cut], i);
        CollisionInWhole(hash, chunks, a, b, cut, i);
      }
    }
  }

  /** The effect of `pwrite` on the bytes of a file; a gap is filled with zeros. */
  function Written(bytes: Bytes, offset: nat, data: Bytes): (r: Bytes)
    ensures |r| == if data == [] || offset + |data| <= |bytes| then |bytes| else offset + |data|
    ensures forall i | 0 <= i < |r| :: r[i] == ByteAfterWrite(bytes, offset, data, i)
  {
    if data == [] then bytes
    else seq(if offset + |data| <= |bytes| then |bytes| else offset + |data|,
             i requires 0 <= i => ByteAfterWrite(bytes, offset, data, i))
  }

  function ByteAfterWrite(bytes: Bytes, offset: nat, data: Bytes, i: nat): Byte {
    if offset <= i < offset + |data| then data[i - offset] else if i < |bytes| then bytes[i] else 0
  }

  class PartialFile {
    var bytes: Bytes

    constructor (bytes: Bytes)
      ensures this.bytes == bytes
    {
      this.bytes := bytes;
    }

    method Truncate(length: nat)
      modifies this
      ensures bytes == if length <= |old(bytes)| then old(bytes)[..length] else old(bytes) + seq(length - |old(bytes)|, i => 0)
    {
      if length <= |bytes| {
        bytes := bytes[..length];
      } else {
        bytes := bytes + seq(length - |bytes|, i => 0);
      }
    }

    /** Writes all of `data` in as many calls as it takes; `accepted` says how many bytes each call
        takes. If a call takes none, or the process dies, some prefix has been written. */
    method WriteAll(offset: nat, data: Bytes, accepted: seq<nat>) returns (ok: bool)
      modifies this
      ensures ok ==> bytes == Written(old(bytes), offset, data)
      ensures !ok ==> exists n | 0 <= n < |data| :: bytes == Written(old(bytes), offset, data[..n])
    {
      var position, call := 0, 0;
      while position < |data|
        invariant 0 <= position <= |data| && call <= |accepted|
        invariant bytes == Written(old(bytes), offset, data[..position])
        decreases |accepted| - call
      {
        if call == |accepted| {
          return false;
        }
        var written := if accepted[call] <= |data| - position then accepted[call] else |data| - position;
        call := call + 1;
        if written == 0 {
          return false;
        }
        WrittenTwice(old(bytes), offset, data, position, position + written);
        bytes := Written(bytes, offset + position, data[position..position + written]);
        position := position + written;
      }
      assert data[..position] == data;
      return true;
    }

    /** Keeps the intact leading chunks, cuts everything else off, and starts the object hash with
        what was kept. */
    method ResumeFromPartial(hash: Bytes -> ChunkId, totalSize: nat, chunks: seq<ChunkRef>)
      returns (firstDownloadIndex: nat, chunksReused: nat, hashed: Bytes)
      requires ValidLayout(chunks) && totalSize == TotalSize(chunks)
      modifies this
      ensures firstDownloadIndex == (if |old(bytes)| > totalSize then 0 else IntactFrom(hash, chunks, old(bytes), 0))
      ensures chunksReused == firstDownloadIndex
      ensures IsPrefix(hash, chunks, bytes, firstDownloadIndex)
      ensures bytes == hashed && bytes <= old(bytes)
    {
      var partialSize := |bytes|;
      if partialSize > totalSize {
        Truncate(0);
        partialSize := 0;
      }
      ghost var start := bytes;
      firstDownloadIndex, chunksReused, hashed := 0, 0, [];
      var index := 0;
      while index < |chunks|
        invariant index <= |chunks| && firstDownloadIndex == chunksReused == index
        invariant bytes == start && partialSize == |start| && Offset(chunks, index) <= partialSize
        invariant hashed == start[..Offset(chunks, index)]
        invariant forall i: nat | i < index :: Holds(hash, chunks, start, i)
        invariant IntactFrom(hash, chunks, start, 0) == IntactFrom(hash, chunks, start, index)
      {
        var chunk := chunks[index];
        assert WellPlaced(chunks, index);
        var chunkEnd := chunk.offset + chunk.size;
        if partialSize >= chunkEnd {
          var read := bytes[chunk.offset..chunkEnd];
          if hash(read) != chunk.chunkId {
            Truncate(chunk.offset);
            break;
          }
          assert start[..chunk.offset] + read == start[..chunkEnd];
          hashed := hashed + read;
          chunksReused := chunksReused + 1;
          firstDownloadIndex := index + 1;
          index := index + 1;
        } else {
          if partialSize > chunk.offset {
            Truncate(chunk.offset);
          }
          break;
        }
      }
      EmptyFileIsNotIntact(hash, chunks, old(bytes), totalSize);
      PrefixAfterCut(hash, chunks, start, index);
    }
  }

  /** After an oversized file has been cut to nothing no chunk is found: chunks are not empty. */
  lemma EmptyFileIsNotIntact(hash: Bytes -> ChunkId, chunks: seq<ChunkRef>, bytes: Bytes, totalSize: nat)
    requires ValidLayout(chunks)
    ensures IntactFrom(hash, chunks, [], 0) == 0
  {
    if chunks != [] {
      assert WellPlaced(chunks, 0);
      assert Offset(chunks, 1) == chunks[0].size;
    }
  }

  lemma WrittenTwice(bytes: Bytes, offset: nat, data: Bytes, i: nat, j: nat)
    requires i <= j <= |data|
    ensures Written(Written(bytes, offset, data[..i]), offset + i, data[i..j]) == Written(bytes, offset, data[..j])
  {
    var once, twice := Written(bytes, offset, data[..j]), Written(Written(bytes, offset, data[..i]), offset + i, data[i..j]);
    assert |twice| == |once|;
    forall k | 0 <= k < |once|
      ensures twice[k] == once[k]
    {
      assert twice[k] == ByteAfterWrite(Written(bytes, offset, data[..i]), offset + i, data[i..j], k);
    }
  }
}
