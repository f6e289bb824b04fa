/** What both chunkers compute: bytes are buffered one at a time, and a cut rule that looks only
    at the buffer decides when the buffer becomes the next chunk. */
module Chunking {
  import opened Common
  import opened ObjectLayouts

  type CutRule = Bytes -> bool

  /** Chunks handed to the consumer so far, and the bytes still buffered. */
  datatype ScanState = ScanState(chunks: seq<Bytes>, buffer: Bytes)

  const START := ScanState([], [])

  function Feed(cut: CutRule, state: ScanState, byte: Byte): ScanState {
    var buffer := state.buffer + [byte];
    if cut(buffer) then ScanState(state.chunks + [buffer], []) else ScanState(state.chunks, buffer)
  }

  function Scan(cut: CutRule, state: ScanState, data: Bytes): ScanState {
    if data == [] then state
    else Feed(cut, Scan(cut, state, data[..|data| - 1]), data[|data| - 1])
  }

  /** The chunks of a whole input: those emitted by `update`, then the rest by `finalize`. */
  function AllChunks(state: ScanState): seq<Bytes> {
    if state.buffer == [] then state.chunks else state.chunks + [state.buffer]
  }

  function Split(cut: CutRule, data: Bytes): seq<Bytes> {
    AllChunks(Scan(cut, START, data))
  }

  function Concat(chunks: seq<Bytes>): Bytes {
    if chunks == [] then [] else Concat(chunks[..|chunks| - 1]) + chunks[|chunks| - 1]
  }

  /** Feeding the input in several pieces gives the same chunks as feeding it at once. */
  lemma {:induction false} ScanConcat(cut: CutRule, state: ScanState, a: Bytes, b: Bytes)
    ensures Scan(cut, state, a + b) == Scan(cut, Scan(cut, state, a), b)
  {
    if b == [] {
      assert a + b == a;
    } else {
      var last := |b| - 1;
      assert (a + b)[..|a + b| - 1] == a + b[..last];
      ScanConcat(cut, state, a, b[..last]);
    }
  }

  lemma ScanByte(cut: CutRule, state: ScanState, byte: Byte)
    ensures Scan(cut, state, [byte]) == Feed(cut, state, byte)
  {
    assert [byte][..0] == [];
    assert Scan(cut, state, []) == state;
  }

  /** Chunks emitted earlier do not influence what follows. */
  lemma {:induction false} ScanFrom(cut: CutRule, state: ScanState, data: Bytes)
    ensures var later := Scan(cut, ScanState([], state.buffer), data);
            Scan(cut, state, data) == ScanState(state.chunks + later.chunks, later.buffer)
  {
    if data != [] {
      ScanFrom(cut, state, data[..|data| - 1]);
    }
  }

  /** Nothing is lost, duplicated or reordered. */
  lemma {:induction false} ScanPartitions(cut: CutRule, state: ScanState, data: Bytes)
    ensures var after := Scan(cut, state, data);
            Concat(after.chunks) + after.buffer == Concat(state.chunks) + state.buffer + data
  {
    if data == [] {
    } else {
      var last := |data| - 1;
      ScanPartitions(cut, state, data[..last]);
      var before := Scan(cut, state, data[..last]);
      var buffer := before.buffer + [data[last]];
      ConcatAppend(before.chunks, buffer);
      calc {
        Concat(before.chunks) + buffer;
        Concat(before.chunks) + before.buffer + [data[last]];
        Concat(state.chunks) + state.buffer + data[..last] + [data[last]];
        { assert data == data[..last] + [data[last]]; }
        Concat(state.chunks) + state.buffer + data;
      }
    }
  }

  lemma ConcatAppend(chunks: seq<Bytes>, chunk: Bytes)
    ensures Concat(chunks + [chunk]) == Concat(chunks) + chunk
  {
    assert (chunks + [chunk])[..|chunks|] == chunks;
  }

  lemma EmittedChunksAreNotEmpty(cut: CutRule, data: Bytes)
    ensures forall i | 0 <= i < |Scan(cut, START, data).chunks| :: Scan(cut, START, data).chunks[i] != []
  {
    ChunksWereCut(cut, START, data);
    var chunks := Scan(cut, START, data).chunks;
    forall i | 0 <= i < |chunks|
      ensures chunks[i] != []
    {
      assert CutExactly(cut, chunks[i]);
    }
  }

  /** The chunks of an input concatenate to it, and none is empty. */
  lemma SplitPartitions(cut: CutRule, data: Bytes)
    ensures Concat(Split(cut, data)) == data
    ensures forall i | 0 <= i < |Split(cut, data)| :: Split(cut, data)[i] != []
  {
    var after := Scan(cut, START, data);
    ScanPartitions(cut, START, data);
    ConcatAppend(after.chunks, after.buffer);
    assert Concat([]) + [] + data == data;
    EmittedChunksAreNotEmpty(cut, data);
  }

  /** Every chunk emitted before the end satisfied the cut rule, and no proper prefix of it did. */
  ghost predicate CutExactly(cut: CutRule, chunk: Bytes) {
    && chunk != []
    && cut(chunk)
    && forall n | 0 < n < |chunk| :: !cut(chunk[..n])
  }

  ghost predicate Uncut(cut: CutRule, buffer: Bytes) {
    forall n | 0 < n <= |buffer| :: !cut(buffer[..n])
  }

  lemma {:induction false} ChunksWereCut(cut: CutRule, state: ScanState, data: Bytes)
    requires forall i | 0 <= i < |state.chunks| :: CutExactly(cut, state.chunks[i])
    requires Uncut(cut, state.buffer)
    ensures var after := Scan(cut, state, data);
            && (forall i | 0 <= i < |after.chunks| :: CutExactly(cut, after.chunks[i]))
            && Uncut(cut, after.buffer)
  {
    if data != [] {
      ChunksWereCut(cut, state, data[..|data| - 1]);
      var before := Scan(cut, state, data[..|data| - 1]);
      var buffer := before.buffer + [data[|data| - 1]];
      forall n | 0 < n < |buffer|
        ensures !cut(buffer[..n])
      {
        assert buffer[..n] == before.buffer[..n];
      }
      assert buffer[..|buffer|] == buffer;
    }
  }

  /** Conversely, cutting is deterministic: any division of the input into exactly cut chunks and an
      uncut rest is the one the scan finds. */
  lemma {:induction false} SplitUnique(cut: CutRule, state: ScanState, chunks: seq<Bytes>, rest: Bytes)
    requires state.buffer == []
    requires forall i | 0 <= i < |chunks| :: CutExactly(cut, chunks[i])
    requires Uncut(cut, rest)
    ensures Scan(cut, state, Concat(chunks) + rest) == ScanState(state.chunks + chunks, rest)
  {
    ScanConcat(cut, state, Concat(chunks), rest);
    if chunks == [] {
      assert Scan(cut, state, Concat(chunks)) == state;
    } else {
      var last := |chunks| - 1;
      SplitUnique(cut, state, chunks[..last], []);
      assert Concat(chunks[..last]) + [] == Concat(chunks[..last]);
      var before := Scan(cut, state, Concat(chunks[..last]));
      ScanOneChunk(cut, before, chunks[last]);
      ScanConcat(cut, state, Concat(chunks[..last]), chunks[last]);
      assert state.chunks + chunks[..last] + [chunks[last]] == state.chunks + chunks;
    }
    ScanUncut(cut, Scan(cut, state, Concat(chunks)), rest);
  }

  lemma ScanOneChunk(cut: CutRule, state: ScanState, chunk: Bytes)
    requires state.buffer == [] && CutExactly(cut, chunk)
    ensures Scan(cut, state, chunk) == ScanState(state.chunks + [chunk], [])
  {
    var front, final := chunk[..|chunk| - 1], chunk[|chunk| - 1];
    assert forall n | 0 < n <= |front| :: front[..n] == chunk[..n];
    ScanUncut(cut, state, front);
    assert front + [final] == chunk;
  }

  lemma {:induction false} ScanUncut(cut: CutRule, state: ScanState, rest: Bytes)
    requires state.buffer == [] && Uncut(cut, rest)
    ensures Scan(cut, state, rest) == ScanState(state.chunks, rest)
  {
    if rest != [] {
      var last := |rest| - 1;
      assert forall n | 0 < n <= last :: rest[..last][..n] == rest[..n];
      ScanUncut(cut, state, rest[..last]);
      assert rest[..last] + [rest[last]] == rest == rest[..|rest|];
    }
  }

  /** Appending data never changes a chunk that was already emitted. */
  lemma EmittedChunksAreFinal(cut: CutRule, a: Bytes, b: Bytes)
    ensures Scan(cut, START, a).chunks <= Scan(cut, START, a + b).chunks
    ensures Scan(cut, START, a).chunks <= Split(cut, a + b)
  {
    ScanConcat(cut, START, a, b);
    ScanFrom(cut, Scan(cut, START, a), b);
  }

  /** Re-synchronization: if two inputs end in the same bytes and a chunk ends right before those
      bytes in each, then from there on the chunks are the same. */
  lemma Resynchronizes(cut: CutRule, a: Bytes, b: Bytes, suffix: Bytes)
    requires Scan(cut, START, a).buffer == [] && Scan(cut, START, b).buffer == []
    ensures Split(cut, a + suffix) == Split(cut, a) + Split(cut, suffix)
    ensures Split(cut, b + suffix) == Split(cut, b) + Split(cut, suffix)
  {
    ScanConcat(cut, START, a, suffix);
    ScanConcat(cut, START, b, suffix);
    ScanFrom(cut, Scan(cut, START, a), suffix);
    ScanFrom(cut, Scan(cut, START, b), suffix);
  }

  /** The layout a push records for its chunks; `sha` maps chunk bytes to chunk IDs. */
  function Refs(sha: Bytes -> ChunkId, chunks: seq<Bytes>): (refs: seq<ChunkRef>)
    ensures |refs| == |chunks|
  {
    if chunks == [] then []
    else
      var before := chunks[..|chunks| - 1];
      Refs(sha, before) + [ChunkRef(sha(chunks[|chunks| - 1]), |Concat(before)|, |chunks[|chunks| - 1]|)]
  }

  lemma {:induction false} RefsAt(sha: Bytes -> ChunkId, chunks: seq<Bytes>, i: nat)
    requires i < |chunks|
    ensures Refs(sha, chunks)[i] == ChunkRef(sha(chunks[i]), |Concat(chunks[..i])|, |chunks[i]|)
    decreases |chunks|
  {
    if i < |chunks| - 1 {
      RefsAt(sha, chunks[..|chunks| - 1], i);
      assert chunks[..|chunks| - 1][..i] == chunks[..i];
    }
  }

  lemma {:induction false} RefsOffsets(sha: Bytes -> ChunkId, chunks: seq<Bytes>, i: nat)
    requires i <= |chunks|
    ensures Offset(Refs(sha, chunks), i) == |Concat(chunks[..i])|
    decreases i
  {
    if i > 0 {
      RefsAt(sha, chunks, i - 1);
      RefsOffsets(sha, chunks, i - 1);
      assert chunks[..i][..i - 1] == chunks[..i - 1];
    }
  }

  /** Whatever the cut rule, the recorded layout passes `ObjectLayout::validate` and covers
      exactly the input. */
  lemma RecordedLayoutIsValid(sha: Bytes -> ChunkId, cut: CutRule, data: Bytes)
    requires forall b :: IsContentId(sha(b))
    requires |data| <= UINT64_MAX
    ensures ValidLayout(Refs(sha, Split(cut, data)))
    ensures TotalSize(Refs(sha, Split(cut, data))) == |data|
  {
    var chunks := Split(cut, data);
    var refs := Refs(sha, chunks);
    SplitPartitions(cut, data);
    forall i: nat | i < |refs|
      ensures WellPlaced(refs, i)
    {
      RefsAt(sha, chunks, i);
      RefsOffsets(sha, chunks, i);
    }
    RefsOffsets(sha, chunks, |chunks|);
    assert chunks[..|chunks|] == chunks;
  }

  /** A chunk ID occurs with two sizes only if two of the recorded chunks collide. */
  lemma RecordedSizesAgree(sha: Bytes -> ChunkId, chunks: seq<Bytes>, i: nat, j: nat)
    requires i < |chunks| && j < |chunks|
    requires Refs(sha, chunks)[i].chunkId == Refs(sha, chunks)[j].chunkId
    ensures Refs(sha, chunks)[i].size == Refs(sha, chunks)[j].size || Collide(sha, chunks[i], chunks[j])
  {
    RefsAt(sha, chunks, i);
    RefsAt(sha, chunks, j);
  }
}
