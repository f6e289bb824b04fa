/** The fixed-size chunker (src/chunking/fixed_size_chunker.cpp), proved against the same
    byte-at-a-time scan as the FastCDC chunker although it copies whole pieces. */
module FixedSizeChunkers {
  import opened Common
  import opened Chunking
  import opened FastCdcChunkers

  function FullAt(chunkSize: nat): CutRule {
    buffer => |buffer| == chunkSize
  }

  /** Filling the buffer by a whole piece equals filling it byte by byte. */
  lemma {:induction false} FillPiece(chunkSize: nat, state: ScanState, piece: Bytes)
    requires piece != [] && |state.buffer| + |piece| <= chunkSize
    ensures Scan(FullAt(chunkSize), state, piece) ==
            if |state.buffer| + |piece| == chunkSize then ScanState(state.chunks + [state.buffer + piece], [])
            else ScanState(state.chunks, state.buffer + piece)
  {
    var front, last := piece[..|piece| - 1], piece[|piece| - 1];
    if front != [] {
      FillPiece(chunkSize, state, front);
    } else {
      assert state.buffer + front == state.buffer;
    }
    assert state.buffer + front + [last] == state.buffer + piece;
  }

  /** Every chunk but the last has the chunk size, and the last is not larger. */
  lemma FixedChunkSizes(chunkSize: nat, data: Bytes)
    requires chunkSize > 0
    ensures var after := Scan(FullAt(chunkSize), START, data);
            && (forall i | 0 <= i < |after.chunks| :: |after.chunks[i]| == chunkSize)
            && |after.buffer| < chunkSize
  {
    var cut := FullAt(chunkSize);
    var after := Scan(cut, START, data);
    ChunksWereCut(cut, START, data);
    forall i | 0 <= i < |after.chunks|
      ensures |after.chunks[i]| == chunkSize
    {
      assert CutExactly(cut, after.chunks[i]);
    }
    var n := if |after.buffer| < chunkSize then |after.buffer| else chunkSize;
    if n > 0 {
      assert !cut(after.buffer[..n]);
    }
  }

  lemma ScanNext(chunkSize: nat, state: ScanState, data: Bytes, position: nat, count: nat)
    requires position + count <= |data|
    ensures var cut := FullAt(chunkSize);
            Scan(cut, state, data[..position + count]) == Scan(cut, Scan(cut, state, data[..position]), data[position..position + count])
  {
    assert data[..position] + data[position..position + count] == data[..position + count];
    ScanConcat(FullAt(chunkSize), state, data[..position], data[position..position + count]);
  }

  class FixedSizeChunker {
    const chunkSize: nat

    var buffer: Bytes
    var nextChunkOffset: nat
    var finalized: bool
    var delivered: seq<ChunkBuffer>

    ghost predicate Valid()
      reads this
    {
      && |buffer| < chunkSize
      && nextChunkOffset == |Concat(BytesOf(delivered))|
      && OffsetsMatch(delivered)
    }

    ghost function State(): ScanState
      reads this
    {
      ScanState(BytesOf(delivered), buffer)
    }

    constructor (chunkSize: nat)
      requires chunkSize > 0
      ensures Valid() && State() == START && !finalized && this.chunkSize == chunkSize
    {
      this.chunkSize := chunkSize;
      buffer, nextChunkOffset, finalized, delivered := [], 0, false, [];
    }

    method Update(data: Bytes) returns (accepted: bool)
      requires Valid()
      modifies this
      ensures Valid() && finalized == old(finalized) && accepted == !finalized
      ensures State() == if accepted then Scan(FullAt(chunkSize), old(State()), data) else old(State())
    {
      if finalized {
        return false;
      }
      var position := 0;
      while position < |data|
        invariant position <= |data|
        invariant Valid() && !finalized
        invariant State() == Scan(FullAt(chunkSize), old(State()), data[..position])
      {
        var remainingCapacity := chunkSize - |buffer|;
        var bytesToCopy := if remainingCapacity < |data| - position then remainingCapacity else |data| - position;
        ScanNext(chunkSize, old(State()), data, position, bytesToCopy);
        Take(data[position..position + bytesToCopy]);
        position := position + bytesToCopy;
      }
      assert data[..|data|] == data;
      return true;
    }

    /** Copies what fits into the buffer, and emits the buffer when it is full. */
    method Take(piece: Bytes)
      requires Valid() && piece != [] && |buffer| + |piece| <= chunkSize
      modifies this
      ensures Valid() && finalized == old(finalized)
      ensures State() == Scan(FullAt(chunkSize), old(State()), piece)
    {
      FillPiece(chunkSize, State(), piece);
      buffer := buffer + piece;
      if |buffer| == chunkSize {
        EmitCurrentChunk();
      }
    }

    method EmitCurrentChunk()
      requires nextChunkOffset == |Concat(BytesOf(delivered))| && OffsetsMatch(delivered) && chunkSize > 0
      modifies this
      ensures Valid() && finalized == old(finalized)
      ensures State() == ScanState(old(State()).chunks + [old(buffer)], [])
    {
      var chunk := ChunkBuffer(nextChunkOffset, buffer);
      DeliverKeepsOffsets(delivered, buffer);
      buffer := [];
      nextChunkOffset := nextChunkOffset + |chunk.bytes|;
      delivered := delivered + [chunk];
    }

    method Finalize() returns (accepted: bool)
      requires Valid()
      modifies this
      ensures Valid() && finalized && accepted == !old(finalized)
      ensures accepted ==> State() == ScanState(AllChunks(old(State())), [])
      ensures !accepted ==> State() == old(State())
    {
      if finalized {
        return false;
      }
      if buffer != [] {
        EmitCurrentChunk();
      }
      finalized := true;
      return true;
    }
  }
}
