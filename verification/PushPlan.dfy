/** What a push records while it reads its source file (src/push/push_engine.cpp): the layout, the
    unique chunks, and the negotiation batches that feed the upload queue. */
module PushPlan {
  import opened Common
  import opened ObjectLayouts
  import opened Chunking
  import FastCdc
  import FixedSizeChunkers

  const NEGOTIATION_BATCH_SIZE := 4

  /** The cut rule of the chunker that a session asks for. */
  function RuleOf(chunking: SessionChunking, gear: FastCdc.GearTable): CutRule {
    match chunking
    case FixedChunks(chunkSize) => FixedSizeChunkers.FullAt(chunkSize)
    case CdcChunks(parameters) => FastCdc.Cut(parameters, gear)
  }

  ghost predicate ValidChunking(chunking: SessionChunking) {
    match chunking
    case FixedChunks(chunkSize) => chunkSize > 0
    case CdcChunks(parameters) => FastCdc.ValidParameters(parameters)
  }

  /** The descriptor a push of `data` submits. */
  function PushedDescriptor(sha: Bytes -> ChunkId, gear: FastCdc.GearTable, chunking: SessionChunking, data: Bytes): Descriptor {
    Descriptor(sha(data), |data|, StrategyOf(chunking), Refs(sha, Split(RuleOf(chunking, gear), data)))
  }

  lemma SplitSizes(gear: FastCdc.GearTable, chunking: SessionChunking, data: Bytes)
    requires ValidChunking(chunking)
    ensures var chunks := Split(RuleOf(chunking, gear), data);
            forall i | 0 <= i < |chunks| ::
              && 0 < |chunks[i]| <= (if chunking.FixedChunks? then chunking.chunkSize else chunking.parameters.max)
              && (i < |chunks| - 1 ==>
                    if chunking.FixedChunks? then |chunks[i]| == chunking.chunkSize
                    else chunking.parameters.min <= |chunks[i]|)
  {
    SplitPartitions(RuleOf(chunking, gear), data);
    match chunking {
      case FixedChunks(chunkSize) => FixedSizeChunkers.FixedChunkSizes(chunkSize, data);
      case CdcChunks(parameters) => FastCdc.ChunkSizeBounds(parameters, gear, data);
    }
  }

  /** What the chunkers produce is what finalization accepts: the descriptor's layout is valid, its
      size agrees with the object's, and it passes every size check of `finalize_upload`; only two
      chunks of the input that collide could be recorded under one ID with two sizes. */
  lemma PushedDescriptorIsAccepted(sha: Bytes -> ChunkId, gear: FastCdc.GearTable, chunking: SessionChunking, data: Bytes)
    requires ValidChunking(chunking)
    requires forall b :: IsContentId(sha(b))
    requires |data| <= UINT64_MAX
    ensures var d := PushedDescriptor(sha, gear, chunking, data);
            var chunks := Split(RuleOf(chunking, gear), data);
            && ValidLayout(d.chunks)
            && TotalSize(d.chunks) == d.totalSize
            && ShapeMatches(chunking, d)
            && (SizesAgree(d.chunks) || exists i, j | 0 <= i < |chunks| && 0 <= j < |chunks| :: Collide(sha, chunks[i], chunks[j]))
  {
    var d := PushedDescriptor(sha, gear, chunking, data);
    var chunks := Split(RuleOf(chunking, gear), data);
    RecordedLayoutIsValid(sha, RuleOf(chunking, gear), data);
    SplitSizes(gear, chunking, data);
    forall i | 0 <= i < |chunks|
      ensures d.chunks[i].size == |chunks[i]|
    {
      RefsAt(sha, chunks, i);
    }
    forall i, j | 0 <= i < |chunks| && 0 <= j < |chunks| && d.chunks[i].chunkId == d.chunks[j].chunkId
      ensures d.chunks[i].size == d.chunks[j].size || Collide(sha, chunks[i], chunks[j])
    {
      RecordedSizesAgree(sha, chunks, i, j);
    }
  }

  datatype Recorded = Recorded(refs: seq<ChunkRef>, batches: seq<seq<ChunkId>>)

  function Flatten(batches: seq<seq<ChunkId>>): seq<ChunkId> {
    if batches == [] then [] else Flatten(batches[..|batches| - 1]) + batches[|batches| - 1]
  }

  lemma FlattenAppend(batches: seq<seq<ChunkId>>, batch: seq<ChunkId>)
    ensures Flatten(batches + [batch]) == Flatten(batches) + batch
  {
    assert (batches + [batch])[..|batches|] == batches;
  }

  function Ids(sha: Bytes -> ChunkId, chunks: seq<Bytes>): (ids: seq<ChunkId>)
    ensures |ids| == |chunks|
  {
    seq(|chunks|, (i: nat) requires i < |chunks| => sha(chunks[i]))
  }

  /** `record_chunk` for every chunk, then the final flush of `staging`. Negotiation sees each chunk ID
      exactly once, in order of first appearance, in batches of at most four. */
  method RecordChunks(sha: Bytes -> ChunkId, chunks: seq<Bytes>) returns (recorded: Recorded)
    ensures recorded.refs == Refs(sha, chunks)
    ensures Flatten(recorded.batches) == Distinct(Ids(sha, chunks))
    ensures BatchSizesOk(recorded.batches)
  {
    var refs: seq<ChunkRef> := [];
    var seen: set<ChunkId> := {};
    var staging: seq<ChunkId> := [];
    var batches: seq<seq<ChunkId>> := [];
    var offset := 0;
    ghost var ids: seq<ChunkId> := [];
    for index := 0 to |chunks|
      invariant refs == Refs(sha, chunks[..index]) && offset == |Concat(chunks[..index])|
      invariant ids == Ids(sha, chunks[..index])
      invariant forall id :: id in seen <==> id in ids
      invariant Flatten(batches) + staging == Distinct(ids)
      invariant |staging| < NEGOTIATION_BATCH_SIZE
      invariant BatchSizesOk(batches)
    {
      var chunkId := sha(chunks[index]);
      RecordStep(sha, chunks, index);
      refs := refs + [ChunkRef(chunkId, offset, |chunks[index]|)];
      offset := offset + |chunks[index]|;
      DistinctStep(ids, chunkId);
      ids := ids + [chunkId];
      if chunkId !in seen {
        seen := seen + {chunkId};
        staging, batches := StageUniqueChunk(chunkId, staging, batches);
      }
    }
    assert chunks[..|chunks|] == chunks;
    if staging != [] {
      FlattenAppend(batches, staging);
      batches := batches + [staging];
    }
    return Recorded(refs, batches);
  }

  /** Stages one chunk; a full batch is sent to negotiation. */
  method StageUniqueChunk(chunkId: ChunkId, staged: seq<ChunkId>, sent: seq<seq<ChunkId>>)
    returns (staging: seq<ChunkId>, batches: seq<seq<ChunkId>>)
    requires |staged| < NEGOTIATION_BATCH_SIZE && BatchSizesOk(sent)
    ensures Flatten(batches) + staging == Flatten(sent) + staged + [chunkId]
    ensures |staging| < NEGOTIATION_BATCH_SIZE && BatchSizesOk(batches)
  {
    staging, batches := staged + [chunkId], sent;
    if |staging| == NEGOTIATION_BATCH_SIZE {
      FlattenAppend(batches, staging);
      batches := batches + [staging];
      staging := [];
    }
  }

  predicate BatchSizesOk(batches: seq<seq<ChunkId>>) {
    forall batch | batch in batches :: 0 < |batch| <= NEGOTIATION_BATCH_SIZE
  }

  lemma DistinctStep(ids: seq<ChunkId>, id: ChunkId)
    ensures Distinct(ids + [id]) == if id in ids then Distinct(ids) else Distinct(ids) + [id]
  {
    assert (ids + [id])[..|ids|] == ids;
  }

  lemma RecordStep(sha: Bytes -> ChunkId, chunks: seq<Bytes>, i: nat)
    requires i < |chunks|
    ensures var before, through := chunks[..i], chunks[..i + 1];
            && Refs(sha, through) == Refs(sha, before) + [ChunkRef(sha(chunks[i]), |Concat(before)|, |chunks[i]|)]
            && Concat(through) == Concat(before) + chunks[i]
            && Ids(sha, through) == Ids(sha, before) + [sha(chunks[i])]
  {
    assert chunks[..i + 1][..i] == chunks[..i];
  }
}
