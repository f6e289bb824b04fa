/** What a whole push guarantees before it finalizes: the tasks that negotiation yields, run through the
    queue and its workers (src/push/push_engine.cpp). */
module PushEngine {
  import opened Common
  import opened BoundedQueues
  import opened ObjectLayouts
  import opened Chunking
  import opened PushPlan
  import opened PushQueue
  import FastCdc
  import Placement

  /** The tasks that negotiation yields for the recorded chunks. */
  function TasksFor(digest: Placement.DigestFunction, placement: seq<NodeId>, replicationFactor: nat, ids: seq<ChunkId>): seq<Task> {
    seq(|ids|, i requires 0 <= i < |ids| => Task(ids[i], Placement.Select(digest, ids[i], placement, replicationFactor)))
  }

  lemma PushConfirmsIds(digest: Placement.DigestFunction, placement: seq<NodeId>, replicationFactor: nat, ids: seq<ChunkId>,
                        capacity: nat, workerCount: nat, events: seq<Event>)
    requires Placement.ValidReplication(placement, replicationFactor) && capacity > 0 && workerCount > 0
    requires var tasks := TasksFor(digest, placement, replicationFactor, ids);
             Schedule(tasks, Begin(tasks, capacity, workerCount), events)
    ensures var tasks := TasksFor(digest, placement, replicationFactor, ids);
            var s := Run(tasks, Begin(tasks, capacity, workerCount), events);
            Terminated(s) && !s.failed ==>
              && s.putRequests + s.verifiedTargets == |ids| * replicationFactor
              && forall id, n | id in ids && n in Placement.Select(digest, id, placement, replicationFactor) :: (id, n) in s.confirmed
  {
    var tasks := TasksFor(digest, placement, replicationFactor, ids);
    Placement.SortedNodeIdsDistinct(placement);
    forall k | 0 <= k < |tasks|
      ensures |tasks[k].desired| == replicationFactor
    {
      Placement.SelectionIsTop(digest, ids[k], placement, replicationFactor);
    }
    SuccessfulPush(tasks, capacity, workerCount, events, replicationFactor);
    var s := Run(tasks, Begin(tasks, capacity, workerCount), events);
    forall id, n | Terminated(s) && !s.failed && id in ids && n in Placement.Select(digest, id, placement, replicationFactor)
      ensures (id, n) in s.confirmed
    {
      var k :| 0 <= k < |ids| && ids[k] == id;
      assert n in tasks[k].desired;
    }
  }

  lemma PushedChunksAreRecorded(sha: Bytes -> ChunkId, gear: FastCdc.GearTable, chunking: SessionChunking, data: Bytes)
    ensures var d := PushedDescriptor(sha, gear, chunking, data);
            var ids := Distinct(Ids(sha, Split(RuleOf(chunking, gear), data)));
            forall i | 0 <= i < |d.chunks| :: d.chunks[i].chunkId in ids
  {
    var chunks := Split(RuleOf(chunking, gear), data);
    var d := PushedDescriptor(sha, gear, chunking, data);
    forall i | 0 <= i < |d.chunks|
      ensures d.chunks[i].chunkId in Ids(sha, chunks)
    {
      RefsAt(sha, chunks, i);
      assert Ids(sha, chunks)[i] == d.chunks[i].chunkId;
    }
  }

  /** After a push whose threads all finished without a failure, every chunk of the descriptor it will
      submit has been found or stored on every node desired for it, with one put or one verification
      per unique chunk and replica: the condition under which finalization makes the version durable. */
  lemma PushConfirmsLayout(sha: Bytes -> ChunkId, gear: FastCdc.GearTable, chunking: SessionChunking, data: Bytes,
                           digest: Placement.DigestFunction, placement: seq<NodeId>, replicationFactor: nat,
                           ids: seq<ChunkId>, capacity: nat, workerCount: nat, events: seq<Event>)
    requires Placement.ValidReplication(placement, replicationFactor) && capacity > 0 && workerCount > 0
    requires ids == Distinct(Ids(sha, Split(RuleOf(chunking, gear), data)))
    requires var tasks := TasksFor(digest, placement, replicationFactor, ids);
             Schedule(tasks, Begin(tasks, capacity, workerCount), events)
    ensures var tasks := TasksFor(digest, placement, replicationFactor, ids);
            var s := Run(tasks, Begin(tasks, capacity, workerCount), events);
            var d := PushedDescriptor(sha, gear, chunking, data);
            Terminated(s) && !s.failed ==>
              && s.putRequests + s.verifiedTargets == |ids| * replicationFactor
              && forall i, n | 0 <= i < |d.chunks| && n in Placement.Select(digest, d.chunks[i].chunkId, placement, replicationFactor) ::
                   (d.chunks[i].chunkId, n) in s.confirmed
  {
    PushConfirmsIds(digest, placement, replicationFactor, ids, capacity, workerCount, events);
    PushedChunksAreRecorded(sha, gear, chunking, data);
  }
}
