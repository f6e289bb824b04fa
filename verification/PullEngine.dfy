/** A pull from start to publication (`PullEngine::pull` in src/pull/pull_engine.cpp). */
module PullEngine {
  import opened Common
  import opened ObjectLayouts
  import opened PullResume
  import opened PullWindow

  predicate Serves(hash: Bytes -> ChunkId, chunk: ChunkRef, reply: Option<Bytes>) {
    reply.Some? && hash(reply.value) == chunk.chunkId
  }

  /** Asks the sources one after the other. `replies` holds what each would answer, `None` if it does
      not have the chunk or the request fails; the client refuses bytes with the wrong hash. */
  method Download(hash: Bytes -> ChunkId, chunk: ChunkRef, replies: seq<Option<Bytes>>) returns (result: Option<Bytes>)
    ensures result.Some? ==> |result.value| == chunk.size && hash(result.value) == chunk.chunkId
    ensures result.Some? <==> exists i | 0 <= i < |replies| ::
              && Serves(hash, chunk, replies[i]) && |replies[i].value| == chunk.size
              && forall j | 0 <= j < i :: !Serves(hash, chunk, replies[j])
  {
    var downloaded: Option<Bytes> := None;
    for source := 0 to |replies|
      invariant downloaded.None?
      invariant forall j | 0 <= j < source :: !Serves(hash, chunk, replies[j])
    {
      if Serves(hash, chunk, replies[source]) {
        downloaded := replies[source];
        if |downloaded.value| != chunk.size {
          return None;
        }
        return downloaded;
      }
    }
    return None;
  }

  /** The object to restore. */
  datatype Plan = Plan(hash: Bytes -> ChunkId, objectHash: Bytes -> ObjectId, objectId: ObjectId, chunks: seq<ChunkRef>)

  function ReusedChunks(plan: Plan, partial: Bytes): (n: nat)
    ensures n <= |plan.chunks|
  {
    if |partial| > TotalSize(plan.chunks) then 0 else IntactFrom(plan.hash, plan.chunks, partial, 0)
  }

  /** What resumption leaves of a partial file. */
  ghost function Resumed(plan: Plan, partial: Bytes): Bytes {
    var cut := Offset(plan.chunks, ReusedChunks(plan, partial));
    if cut <= |partial| then partial[..cut] else []
  }

  lemma ResumedIsPrefix(plan: Plan, partial: Bytes)
    requires ValidLayout(plan.chunks)
    ensures IsPrefix(plan.hash, plan.chunks, Resumed(plan, partial), ReusedChunks(plan, partial))
  {
    var n := ReusedChunks(plan, partial);
    if n > 0 {
      IntactChunksHold(plan.hash, plan.chunks, partial, 0);
      assert Holds(plan.hash, plan.chunks, partial, n - 1);
      PrefixAfterCut(plan.hash, plan.chunks, partial, n);
    }
  }

  function WindowOf(plan: Plan, partial: Bytes, window: nat): Pull {
    Pull(plan.hash, plan.chunks, ReusedChunks(plan, partial), window)
  }

  /** The end of an attempt: the file, the running object hash, and the counters. */
  datatype End = End(finished: bool, file: Bytes, hashed: Bytes, downloaded: nat, received: nat)

  /** One attempt: resume from what is there, and unless that is everything, download the rest under
      some schedule. A crashed attempt is a schedule that stops early. */
  ghost function Attempt(plan: Plan, partial: Bytes, workerCount: nat, window: nat, events: seq<Event>): End
    requires ReusedChunks(plan, partial) < |plan.chunks| ==>
               Schedule(WindowOf(plan, partial, window), Begin(WindowOf(plan, partial, window), workerCount, Resumed(plan, partial)), events)
  {
    var resumed := Resumed(plan, partial);
    if ReusedChunks(plan, partial) == |plan.chunks| then End(true, resumed, resumed, 0, 0)
    else
      var p := WindowOf(plan, partial, window);
      var s := Run(p, Begin(p, workerCount, resumed), events);
      End(Terminated(s) && !s.failed, s.file, s.hashed, s.downloaded, s.received)
  }

  /** The file is renamed to its destination if the object hash is right. */
  ghost predicate Publishes(plan: Plan, end: End) {
    end.finished && plan.objectHash(end.hashed) == plan.objectId
  }

  /** Whatever bytes earlier attempts left behind, and whatever the schedule: what is published consists
      of exactly the layout's chunks, has the object's size and hash, and the counters add up. */
  lemma PublishedFileIsTheObject(plan: Plan, partial: Bytes, workerCount: nat, window: nat, events: seq<Event>)
    requires ValidLayout(plan.chunks) && window > 0
    requires ReusedChunks(plan, partial) < |plan.chunks| ==>
               Schedule(WindowOf(plan, partial, window), Begin(WindowOf(plan, partial, window), workerCount, Resumed(plan, partial)), events)
    ensures var end := Attempt(plan, partial, workerCount, window, events);
            Publishes(plan, end) ==>
              && IsPrefix(plan.hash, plan.chunks, end.file, |plan.chunks|)
              && |end.file| == TotalSize(plan.chunks)
              && plan.objectHash(end.file) == plan.objectId
              && end.downloaded + ReusedChunks(plan, partial) == |plan.chunks|
              && end.received == TotalSize(plan.chunks) - Offset(plan.chunks, ReusedChunks(plan, partial))
  {
    ResumedIsPrefix(plan, partial);
    if ReusedChunks(plan, partial) < |plan.chunks| {
      SuccessfulPull(WindowOf(plan, partial, window), workerCount, Resumed(plan, partial), events);
    }
  }

  /** The published bytes are those of the object that was chunked, or they differ from it in a chunk
      where the two collide. So two pulls of one version, from different leftovers and under different
      schedules, publish the same unless somebody has found a collision. */
  lemma PublishedBytesAreUnique(plan: Plan, partial: Bytes, workerCount: nat, window: nat, events: seq<Event>, original: Bytes)
    requires ValidLayout(plan.chunks) && window > 0
    requires ReusedChunks(plan, partial) < |plan.chunks| ==>
               Schedule(WindowOf(plan, partial, window), Begin(WindowOf(plan, partial, window), workerCount, Resumed(plan, partial)), events)
    requires IsPrefix(plan.hash, plan.chunks, original, |plan.chunks|)
    ensures var end := Attempt(plan, partial, workerCount, window, events);
            Publishes(plan, end) ==>
              end.file == original || exists i: nat | i < |plan.chunks| :: CollideAt(plan.hash, plan.chunks, end.file, original, i)
  {
    PublishedFileIsTheObject(plan, partial, workerCount, window, events);
    var end := Attempt(plan, partial, workerCount, window, events);
    if Publishes(plan, end) {
      PrefixUnique(plan.hash, plan.chunks, end.file, original, |plan.chunks|);
    }
  }
}
