/** One upload task of a push, served while other clients, and other workers of the same push, act between
    its requests (src/push/push_engine.cpp). */
module UploadWorkers {
  import opened Common
  import opened Tables
  import opened Invariant
  import opened ControlPlane
  import opened OpenWork
  import opened OtherClients
  import opened Deployments
  import PushQueue

  type Task = PushQueue.Task

  datatype UploadCounts = UploadCounts(putRequests: nat, verifiedTargets: nat, repairedTargets: nat, bytesSent: nat)

  datatype UploadError = NodeNotInPool | RequestFailed | RegistrationRefused(error: Error)

  /** How many of these nodes negotiation did not list. */
  function Unlisted(desired: seq<NodeId>, listed: seq<NodeId>): nat {
    if desired == [] then 0
    else Unlisted(desired[..|desired| - 1], listed) + if desired[|desired| - 1] in listed then 0 else 1
  }

  /** The counters when `nodes` have been served: one verification or one put each, every put sends the
      bytes, and a put is a repair exactly when negotiation had listed the node. */
  ghost predicate Counted(before: UploadCounts, after: UploadCounts, nodes: seq<NodeId>, listed: seq<NodeId>, size: nat) {
    && after.putRequests + after.verifiedTargets == before.putRequests + before.verifiedTargets + |nodes|
    && after.putRequests >= before.putRequests
    && after.bytesSent == before.bytesSent + (after.putRequests - before.putRequests) * size
    && after.putRequests - before.putRequests == after.repairedTargets - before.repairedTargets + Unlisted(nodes, listed)
  }

  lemma NoneCounted(counts: UploadCounts, listed: seq<NodeId>, size: nat)
    ensures Counted(counts, counts, [], listed, size)
  {
  }

  lemma OneMoreCounted(before: UploadCounts, counts: UploadCounts, nodes: seq<NodeId>, node: NodeId, listed: seq<NodeId>, size: nat)
    requires Counted(before, counts, nodes, listed, size)
    ensures node in listed ==>
              Counted(before, counts.(verifiedTargets := counts.verifiedTargets + 1), nodes + [node], listed, size)
    ensures Counted(before, AfterPut(counts, node in listed, size), nodes + [node], listed, size)
  {
    assert (nodes + [node])[..|nodes|] == nodes;
    OneMoreFactor(counts.putRequests - before.putRequests, size);
  }

  lemma OneMoreFactor(n: nat, size: nat)
    ensures (n + 1) * size == n * size + size
  {
  }

  function AfterPut(counts: UploadCounts, wasListed: bool, size: nat): UploadCounts {
    UploadCounts(counts.putRequests + 1, counts.verifiedTargets, counts.repairedTargets + (if wasListed then 1 else 0), counts.bytesSent + size)
  }

  /** The push of the session has found or stored the chunk on all these nodes, and they are registered. */
  ghost predicate Uploaded(sessionId: SessionId, w: World, downgraded: set<Replica>, c: ChunkId, nodes: seq<NodeId>) {
    && (forall i | 0 <= i < |nodes| :: (sessionId, c, nodes[i]) in w.confirmed)
    && AllListed(Uploading(sessionId), w, downgraded, c, nodes)
  }

  lemma UploadedStays(sessionId: SessionId, w: World, later: World, before: set<Replica>, downgraded: set<Replica>, c: ChunkId, nodes: seq<NodeId>)
    requires sessionId in w.db.sessions && Acted(w, later, downgraded) && before <= downgraded
    requires Uploaded(sessionId, w, before, c, nodes)
    ensures sessionId in later.db.sessions && Uploaded(sessionId, later, downgraded, c, nodes)
  {
    AllListedStay(Uploading(sessionId), w, later, before, downgraded, c, nodes);
  }

  lemma OneMoreUploaded(sessionId: SessionId, w: World, downgraded: set<Replica>, c: ChunkId, nodes: seq<NodeId>, node: NodeId)
    requires Uploaded(sessionId, w, downgraded, c, nodes)
    requires (sessionId, c, node) in w.confirmed && StillListed(Uploading(sessionId), w, downgraded, c, node)
    ensures Uploaded(sessionId, w, downgraded, c, nodes + [node])
  {
  }

  /** As long as the session is open, the chunk has its row: negotiation has inserted it. */
  ghost predicate Negotiated(sessionId: SessionId, w: World, c: ChunkId) {
    sessionId in w.db.sessions && (w.db.sessions[sessionId].state.Open? ==> c in w.db.chunks)
  }

  lemma NegotiatedStays(sessionId: SessionId, w: World, later: World, downgraded: set<Replica>, c: ChunkId)
    requires Negotiated(sessionId, w, c) && Acted(w, later, downgraded)
    ensures Negotiated(sessionId, later, c)
  {
    if later.db.sessions[sessionId].state.Open? {
      assert StillOpen(w, later, Uploading(sessionId));
    }
  }

  /** One worker of the push of a session. */
  class UploadWorker {
    const deployment: Deployment
    const sessionId: SessionId

    constructor (deployment: Deployment, sessionId: SessionId)
      ensures this.deployment == deployment && this.sessionId == sessionId
    {
      this.deployment, this.sessionId := deployment, sessionId;
    }

    ghost predicate Ready(task: Task, listed: seq<NodeId>)
      reads this, deployment, deployment.repository
    {
      && deployment.Valid() && Negotiated(sessionId, deployment.Now(), task.chunkId)
      && AllListed(Uploading(sessionId), deployment.Now(), deployment.downgraded, task.chunkId, listed)
      && forall n | n in task.desired :: n != ""
    }

    /** Other clients have acted: what this worker has achieved still holds. */
    lemma StillReady(task: Task, listed: seq<NodeId>, nodes: seq<NodeId>, first: World, w: World, before: set<Replica>)
      requires deployment.Valid() && before <= deployment.downgraded
      requires Acted(first, w, before) && Acted(w, deployment.Now(), deployment.downgraded)
      requires Negotiated(sessionId, w, task.chunkId)
      requires AllListed(Uploading(sessionId), w, before, task.chunkId, listed)
      requires Uploaded(sessionId, w, before, task.chunkId, nodes)
      requires forall n | n in task.desired :: n != ""
      ensures Ready(task, listed) && Acted(first, deployment.Now(), deployment.downgraded)
      ensures Uploaded(sessionId, deployment.Now(), deployment.downgraded, task.chunkId, nodes)
    {
      hide Inv;
      ActedLonger(first, w, deployment.Now(), before, deployment.downgraded);
      NegotiatedStays(sessionId, w, deployment.Now(), deployment.downgraded, task.chunkId);
      AllListedStay(Uploading(sessionId), w, deployment.Now(), before, deployment.downgraded, task.chunkId, listed);
      UploadedStays(sessionId, w, deployment.Now(), before, deployment.downgraded, task.chunkId, nodes);
    }

    /** Asks a node that negotiation listed whether it really has the chunk. */
    method Verify(task: Task, node: NodeId, ghost listed: seq<NodeId>, ghost nodes: seq<NodeId>, ghost first: World) returns (has: Option<bool>)
      requires Ready(task, listed) && node in listed
      requires Acted(first, deployment.Now(), deployment.downgraded)
      requires Uploaded(sessionId, deployment.Now(), deployment.downgraded, task.chunkId, nodes)
      modifies deployment, deployment.repository
      ensures Ready(task, listed) && old(deployment.downgraded) <= deployment.downgraded
      ensures Acted(first, deployment.Now(), deployment.downgraded)
      ensures Uploaded(sessionId, deployment.Now(), deployment.downgraded, task.chunkId, nodes)
      ensures has == Some(true) ==> Uploaded(sessionId, deployment.Now(), deployment.downgraded, task.chunkId, nodes + [node])
    {
      hide Acted, Inv, Uploaded;
      ghost var w, before := deployment.Now(), deployment.downgraded;
      has := deployment.VerifyReplica(sessionId, node, task.chunkId);
      StillReady(task, listed, nodes, first, w, before);
      if has == Some(true) {
        OneMoreUploaded(sessionId, deployment.Now(), deployment.downgraded, task.chunkId, nodes, node);
      }
    }

    /** Stores the chunk on one node and registers it. */
    method Put(task: Task, node: NodeId, bytes: Bytes, ghost listed: seq<NodeId>, ghost nodes: seq<NodeId>, ghost first: World)
      returns (error: Option<UploadError>)
      requires Ready(task, listed) && node in task.desired
      requires Acted(first, deployment.Now(), deployment.downgraded)
      requires Uploaded(sessionId, deployment.Now(), deployment.downgraded, task.chunkId, nodes)
      modifies deployment, deployment.repository
      ensures Ready(task, listed) && old(deployment.downgraded) <= deployment.downgraded
      ensures Acted(first, deployment.Now(), deployment.downgraded)
      ensures Uploaded(sessionId, deployment.Now(), deployment.downgraded, task.chunkId, nodes)
      ensures error.None? ==> Uploaded(sessionId, deployment.Now(), deployment.downgraded, task.chunkId, nodes + [node])
      ensures error.Some? ==> error.value == RequestFailed
                              || (error.value.RegistrationRefused? && !WorkOpen(deployment.repository.db, Uploading(sessionId)))
    {
      hide Acted, Inv, Uploaded;
      ghost var w, before := deployment.Now(), deployment.downgraded;
      var stored := deployment.PutReplica(sessionId, node, task.chunkId, bytes);
      StillReady(task, listed, nodes, first, w, before);
      if !stored {
        return Some(RequestFailed);
      }
      ghost var mid, meanwhile := deployment.Now(), deployment.downgraded;
      var reply := deployment.RegisterAvailable(node, task.chunkId);
      StillReady(task, listed, nodes, first, mid, meanwhile);
      if reply.None? {
        return Some(RequestFailed);
      }
      if reply.value.Err? {
        return Some(RegistrationRefused(reply.value.error));
      }
      StillConfirmed(mid, deployment.Now(), deployment.downgraded, sessionId, task.chunkId, node);
      OneMoreUploaded(sessionId, deployment.Now(), deployment.downgraded, task.chunkId, nodes, node);
      return None;
    }

    /** Puts a chunk on every desired node, except where negotiation called it available and the node
        confirms that it has it. `listed` are the nodes negotiation listed. */
    method ProcessUploadTask(task: Task, bytes: Bytes, listed: seq<NodeId>, before: UploadCounts) returns (result: Result<UploadCounts, UploadError>)
      requires Ready(task, listed)
      modifies deployment, deployment.repository
      ensures Ready(task, listed) && old(deployment.downgraded) <= deployment.downgraded
      ensures Acted(old(deployment.Now()), deployment.Now(), deployment.downgraded)
      ensures result.Ok? ==>
                && Uploaded(sessionId, deployment.Now(), deployment.downgraded, task.chunkId, task.desired)
                && Counted(before, result.value, task.desired, listed, |bytes|)
      ensures result == Err(NodeNotInPool) ==> exists n :: n in task.desired && n !in deployment.pool
      ensures result.Err? && result.error.RegistrationRefused? ==> !WorkOpen(deployment.repository.db, Uploading(sessionId))
    {
      hide Acted, Inv, Uploaded, Counted;
      var counts := before;
      ghost var first := deployment.Now();
      ghost var done: seq<NodeId> := [];
      NothingActed(first, deployment.downgraded);
      NoneUploaded(sessionId, first, deployment.downgraded, task.chunkId);
      NoneCounted(before, listed, |bytes|);
      for index := 0 to |task.desired|
        invariant Ready(task, listed) && old(deployment.downgraded) <= deployment.downgraded
        invariant Acted(first, deployment.Now(), deployment.downgraded)
        invariant |done| == index && done <= task.desired
        invariant Uploaded(sessionId, deployment.Now(), deployment.downgraded, task.chunkId, done)
        invariant Counted(before, counts, done, listed, |bytes|)
      {
        var node := task.desired[index];
        if node !in deployment.pool {
          return Err(NodeNotInPool);
        }
        var has := Some(false);
        if node in listed {
          has := Verify(task, node, listed, done, first);
        }
        if has.None? {
          return Err(RequestFailed);
        }
        OneMoreCounted(before, counts, done, node, listed, |bytes|);
        if has.value {
          counts := counts.(verifiedTargets := counts.verifiedTargets + 1);
        } else {
          var error := Put(task, node, bytes, listed, done, first);
          if error.Some? {
            return Err(error.value);
          }
          counts := AfterPut(counts, node in listed, |bytes|);
        }
        done := done + [node];
      }
      assert done == task.desired;
      return Ok(counts);
    }
  }

  lemma StillConfirmed(w: World, later: World, downgraded: set<Replica>, sessionId: SessionId, c: ChunkId, n: NodeId)
    requires Acted(w, later, downgraded) && (sessionId, c, n) in w.confirmed
    ensures (sessionId, c, n) in later.confirmed
  {
  }

  lemma NoneUploaded(sessionId: SessionId, w: World, downgraded: set<Replica>, c: ChunkId)
    ensures Uploaded(sessionId, w, downgraded, c, [])
  {
  }
}
