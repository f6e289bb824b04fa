/** Object layouts and their descriptors (src/metadata/object_layout.cpp,
    src/metadata/object_layout_descriptor.cpp). */
module ObjectLayouts {
  import opened Common

  datatype ChunkRef = ChunkRef(chunkId: ChunkId, offset: nat, size: nat)

  datatype FastCdcParameters = FastCdcParameters(min: nat, avg: nat, max: nat)

  datatype Strategy = FixedSize | FastCdc(parameters: FastCdcParameters)

  /** What a layout ID is the hash of; two descriptors are the same exactly when their canonical
      bytes are (module CanonicalBytes). */
  datatype Descriptor = Descriptor(objectId: ObjectId, totalSize: nat, strategy: Strategy, chunks: seq<ChunkRef>)

  /** The chunking an upload session was created with. */
  datatype SessionChunking = FixedChunks(chunkSize: nat) | CdcChunks(parameters: FastCdcParameters)

  function StrategyOf(chunking: SessionChunking): Strategy {
    match chunking
    case FixedChunks(_) => FixedSize
    case CdcChunks(parameters) => FastCdc(parameters)
  }

  /** The size checks of `finalize_upload`: the descriptor's strategy and chunk sizes must be ones the
      session's chunker could have produced. An empty layout skips the parameter comparison. */
  predicate ShapeMatches(chunking: SessionChunking, d: Descriptor) {
    && d.strategy.FixedSize? == chunking.FixedChunks?
    && (d.chunks != [] ==>
          var final := d.chunks[|d.chunks| - 1].size;
          match chunking
          case FixedChunks(chunkSize) =>
            && (forall i | 0 <= i < |d.chunks| - 1 :: d.chunks[i].size == chunkSize)
            && 0 < final <= chunkSize
          case CdcChunks(parameters) =>
            && d.strategy == FastCdc(parameters)
            && (forall i | 0 <= i < |d.chunks| - 1 :: parameters.min <= d.chunks[i].size <= parameters.max)
            && 0 < final <= parameters.max)
  }

  /** No chunk ID occurs with two sizes. */
  predicate SizesAgree(chunks: seq<ChunkRef>) {
    forall i, j | 0 <= i < |chunks| && 0 <= j < |chunks| :: chunks[i].chunkId == chunks[j].chunkId ==> chunks[i].size == chunks[j].size
  }

  /** Where chunk `i` has to start: the size of all chunks before it. */
  function Offset(chunks: seq<ChunkRef>, i: nat): nat
    requires i <= |chunks|
  {
    if i == 0 then 0 else Offset(chunks, i - 1) + chunks[i - 1].size
  }

  function TotalSize(chunks: seq<ChunkRef>): nat {
    Offset(chunks, |chunks|)
  }

  predicate WellPlaced(chunks: seq<ChunkRef>, i: nat)
    requires i < |chunks|
  {
    && IsContentId(chunks[i].chunkId)
    && chunks[i].size > 0
    && chunks[i].offset == Offset(chunks, i)
  }

  /** Chunks follow one another without gap or overlap and fit in 64 bits. */
  predicate ValidLayout(chunks: seq<ChunkRef>) {
    && (forall i: nat | i < |chunks| :: WellPlaced(chunks, i))
    && TotalSize(chunks) <= UINT64_MAX
  }

  datatype LayoutError = InvalidChunkId | ZeroSizedChunk | NotContiguous | SizeOverflow

  /** The validation loop and the total size set by the constructor. */
  method Validate(chunks: seq<ChunkRef>) returns (result: Result<nat, LayoutError>)
    ensures result.Ok? <==> ValidLayout(chunks)
    ensures result.Ok? ==> result.value == TotalSize(chunks)
    ensures result == Err(SizeOverflow) ==> TotalSize(chunks) > UINT64_MAX
  {
    var expectedOffset := 0;
    for index := 0 to |chunks|
      invariant expectedOffset == Offset(chunks, index) <= UINT64_MAX
      invariant forall i: nat | i < index :: WellPlaced(chunks, i)
    {
      var chunk := chunks[index];
      assert WellPlaced(chunks, index) <==>
             IsContentId(chunk.chunkId) && chunk.size > 0 && chunk.offset == expectedOffset;
      if !IsContentId(chunk.chunkId) {
        return Err(InvalidChunkId);
      }
      if chunk.size == 0 {
        return Err(ZeroSizedChunk);
      }
      if chunk.offset != expectedOffset {
        return Err(NotContiguous);
      }
      if chunk.size > UINT64_MAX - expectedOffset {
        OffsetMonotonic(chunks, index + 1, |chunks|);
        return Err(SizeOverflow);
      }
      expectedOffset := expectedOffset + chunk.size;
    }
    if chunks == [] {
      return Ok(0);
    }
    assert WellPlaced(chunks, |chunks| - 1);
    return Ok(chunks[|chunks| - 1].offset + chunks[|chunks| - 1].size);
  }

  lemma {:induction false} OffsetMonotonic(chunks: seq<ChunkRef>, i: nat, j: nat)
    requires i <= j <= |chunks|
    ensures Offset(chunks, i) <= Offset(chunks, j)
    decreases j
  {
    if i < j {
      OffsetMonotonic(chunks, i, j - 1);
    }
  }

  predicate Covers(chunk: ChunkRef, position: nat) {
    chunk.offset <= position < chunk.offset + chunk.size
  }

  /** In a valid layout every byte of the object lies in exactly one chunk. */
  lemma LayoutTiles(chunks: seq<ChunkRef>, position: nat)
    requires ValidLayout(chunks) && position < TotalSize(chunks)
    ensures exists i | 0 <= i < |chunks| :: Covers(chunks[i], position)
    ensures forall i, j | 0 <= i < |chunks| && 0 <= j < |chunks| :: Covers(chunks[i], position) && Covers(chunks[j], position) ==> i == j
  {
    var _ := ChunkAt(chunks, position, |chunks|);
    forall i, j | 0 <= i < j < |chunks|
      ensures !(Covers(chunks[i], position) && Covers(chunks[j], position))
    {
      assert WellPlaced(chunks, i) && WellPlaced(chunks, j);
      OffsetMonotonic(chunks, i + 1, j);
    }
  }

  lemma {:induction false} ChunkAt(chunks: seq<ChunkRef>, position: nat, n: nat) returns (i: nat)
    requires ValidLayout(chunks) && n <= |chunks| && position < Offset(chunks, n)
    ensures i < n && Covers(chunks[i], position)
    decreases n
  {
    assert WellPlaced(chunks, n - 1);
    if chunks[n - 1].offset <= position {
      return n - 1;
    }
    i := ChunkAt(chunks, position, n - 1);
  }
}
