/** From push to pull: a file comes back as it was. */
module RoundTrips {
  import opened Common
  import opened ObjectLayouts
  import opened Chunking
  import opened PullResume
  import opened PullWindow
  import opened PullEngine
  import FastCdc
  import PushPlan

  /** The chunks that the chunker cut are where the recorded layout says, with the recorded hashes. */
  lemma RecordedDataIsIntact(sha: Bytes -> ChunkId, cut: CutRule, data: Bytes)
    ensures var refs := Refs(sha, Split(cut, data));
            IsPrefix(sha, refs, data, |refs|)
  {
    var chunks := Split(cut, data);
    var refs := Refs(sha, chunks);
    SplitPartitions(cut, data);
    forall i: nat | i < |refs|
      ensures Holds(sha, refs, data, i)
    {
      ChunkOfConcat(chunks, i);
      RefsAt(sha, chunks, i);
      RefsOffsets(sha, chunks, i);
    }
    RefsOffsets(sha, chunks, |refs|);
    assert chunks[..|refs|] == chunks;
  }

  lemma {:induction false} ChunkOfConcat(chunks: seq<Bytes>, i: nat)
    requires i < |chunks|
    ensures var start := |Concat(chunks[..i])|;
            start + |chunks[i]| <= |Concat(chunks)| && Concat(chunks)[start..start + |chunks[i]|] == chunks[i]
    decreases |chunks|
  {
    var before := chunks[..|chunks| - 1];
    if i < |before| {
      ChunkOfConcat(before, i);
      assert before[..i] == chunks[..i];
    }
  }

  /** What a pull is asked to restore after a push of `data`. */
  ghost function PlanFor(sha: Bytes -> ChunkId, gear: FastCdc.GearTable, chunking: SessionChunking, data: Bytes): Plan {
    var d := PushPlan.PushedDescriptor(sha, gear, chunking, data);
    Plan(sha, sha, d.objectId, d.chunks)
  }

  /** Two different byte strings with one hash: in one chunk of the file and of the data. */
  ghost predicate ChunkCollision(plan: Plan, file: Bytes, data: Bytes) {
    exists i: nat | i < |plan.chunks| :: CollideAt(plan.hash, plan.chunks, file, data, i)
  }

  /** The round trip: whatever an earlier attempt left behind and however the threads are scheduled, a pull of
      what a push of `data` recorded that finishes without a failure also publishes, and what it publishes is
      `data`, or a chunk of the file and one of the data collide. */
  lemma PulledIsPushed(sha: Bytes -> ChunkId, gear: FastCdc.GearTable, chunking: SessionChunking, data: Bytes,
                       partial: Bytes, workerCount: nat, window: nat, events: seq<Event>)
    requires (forall b :: IsContentId(sha(b))) && |data| <= UINT64_MAX && window > 0
    requires var plan := PlanFor(sha, gear, chunking, data);
             ReusedChunks(plan, partial) < |plan.chunks| ==>
               Schedule(WindowOf(plan, partial, window), Begin(WindowOf(plan, partial, window), workerCount, Resumed(plan, partial)), events)
    ensures var plan := PlanFor(sha, gear, chunking, data);
            var end := Attempt(plan, partial, workerCount, window, events);
            end.finished ==> (Publishes(plan, end) && end.file == data) || ChunkCollision(plan, end.file, data)
  {
    hide Split, Run, Schedule, Terminated;
    var plan := PlanFor(sha, gear, chunking, data);
    var cut := PushPlan.RuleOf(chunking, gear);
    RecordedLayoutIsValid(sha, cut, data);
    RecordedDataIsIntact(sha, cut, data);
    ResumedIsPrefix(plan, partial);
    if ReusedChunks(plan, partial) < |plan.chunks| {
      SuccessfulPull(WindowOf(plan, partial, window), workerCount, Resumed(plan, partial), events);
    }
    var end := Attempt(plan, partial, workerCount, window, events);
    if end.finished {
      PrefixUnique(sha, plan.chunks, end.file, data, |plan.chunks|);
    }
  }
}
