/** A deployment as one client sees it: the repository, the storage nodes, a network that loses requests
    and answers, and other clients that act before each of its requests is served. */
module Deployments {
  import opened Common
  import opened ObjectLayouts
  import opened Tables
  import opened Outcomes
  import opened Invariant
  import opened ControlPlane
  import opened OtherClients
  import opened Repository

  datatype Fate = Answered | RequestLost | AnswerLost

  /** What a storage node sends when asked for a chunk. */
  datatype SourceReply = Got(bytes: Bytes) | NotFound | RemoteError

  /** What the client makes of it: bytes with a wrong hash are an error of the node. */
  datatype Answer = Supplied(bytes: Bytes) | Lacking | Failed | Lost

  /** Whatever the others do, it is the work of clients. */
  ghost predicate ActLawfully(others: (nat, World) -> World, downgrades: (nat, World) -> set<Replica>) {
    forall k, w | Inv(w) :: Inv(others(k, w)) && Acted(w, others(k, w), downgrades(k, w))
  }

  /** All clients are lawful whose actions are events of the transition system, chosen by any strategy. */
  lemma ClientsActLawfully(script: (nat, World) -> seq<Event>) returns (others: (nat, World) -> World, downgrades: (nat, World) -> set<Replica>)
    ensures forall k, w :: others(k, w) == Exec(w, script(k, w))
    ensures ActLawfully(others, downgrades)
  {
    others := (k: nat, w: World) => Exec(w, script(k, w));
    downgrades := (k: nat, w: World) => DowngradedBy(script(k, w));
    forall k, w | Inv(w)
      ensures Inv(others(k, w)) && Acted(w, others(k, w), downgrades(k, w))
    {
      ClientsAct(w, script(k, w));
    }
  }

  // What the client's own requests do is lawful, too.

  lemma OwnStepActs(first: World, w: World, e: Event, downgraded: set<Replica>)
    requires Inv(w) && Acted(first, w, downgraded) && !IsDowngrade(e)
    ensures Inv(Step(w, e)) && Acted(first, Step(w, e), downgraded)
  {
    ClientActs(w, e, downgraded);
    ActedLonger(first, w, Step(w, e), downgraded, downgraded);
  }

  lemma MaintainingIsStep(w: World, e: RunEvent)
    ensures Step(w, Maintain(e)) == w.(db := MaintainStep(w.db, e))
  {
  }

  lemma StoringIsStep(w: World, n: NodeId, c: ChunkId)
    ensures Step(w, Upload(StoreChunk(n, c))) == w.(disk := w.disk + {(n, c)})
  {
  }

  lemma RegistrationIsStep(w: World, c: ChunkId, n: NodeId)
    ensures Step(w, Catalog(RegisterLocation(c, n, Available))) == w.(db := RegisterStorageLocation(w.db, c, n, Available).db)
  {
  }

  lemma MaintainActs(first: World, w: World, e: RunEvent, later: World, downgraded: set<Replica>)
    requires Inv(w) && Acted(first, w, downgraded) && later == w.(db := MaintainStep(w.db, e))
    ensures Inv(later) && Acted(first, later, downgraded)
  {
    MaintainingIsStep(w, e);
    OwnStepActs(first, w, Maintain(e), downgraded);
  }

  lemma StoringActs(first: World, w: World, n: NodeId, c: ChunkId, later: World, downgraded: set<Replica>)
    requires Inv(w) && Acted(first, w, downgraded) && later == w.(disk := w.disk + {(n, c)})
    ensures Inv(later) && Acted(first, later, downgraded)
  {
    StoringIsStep(w, n, c);
    OwnStepActs(first, w, Upload(StoreChunk(n, c)), downgraded);
  }

  lemma ConfirmingIsStep(w: World, s: SessionId, c: ChunkId, n: NodeId)
    requires s in w.db.sessions && (n, c) in w.disk
    ensures Step(w, Upload(PushVerify(s, c, n))) == w.(confirmed := w.confirmed + {(s, c, n)})
  {
  }

  lemma ConfirmingActs(first: World, w: World, s: SessionId, c: ChunkId, n: NodeId, later: World, downgraded: set<Replica>)
    requires Inv(w) && Acted(first, w, downgraded) && s in w.db.sessions && (n, c) in w.disk
    requires later == w.(confirmed := w.confirmed + {(s, c, n)})
    ensures Inv(later) && Acted(first, later, downgraded)
  {
    ConfirmingIsStep(w, s, c, n);
    OwnStepActs(first, w, Upload(PushVerify(s, c, n)), downgraded);
  }

  lemma RegistrationActs(first: World, w: World, c: ChunkId, n: NodeId, later: World, downgraded: set<Replica>)
    requires Inv(w) && Acted(first, w, downgraded)
    requires later == w.(db := RegisterStorageLocation(w.db, c, n, Available).db)
    ensures Inv(later) && Acted(first, later, downgraded)
  {
    RegistrationIsStep(w, c, n);
    OwnStepActs(first, w, Catalog(RegisterLocation(c, n, Available)), downgraded);
  }

  class Deployment {
    const repository: MetadataRepository
    const pool: set<NodeId>
    const sha: Bytes -> ChunkId
    const others: (nat, World) -> World
    const fates: nat -> Fate
    const sources: (nat, NodeId, ChunkId) -> SourceReply
    ghost const downgrades: (nat, World) -> set<Replica>

    /** The requests made so far. */
    var clock: nat
    var disk: set<(NodeId, ChunkId)>
    var gc: GcEngine
    var confirmed: set<(SessionId, ChunkId, NodeId)>
    var committed: map<SessionId, Descriptor>
    var pushed: set<SessionId>

    /** The replicas that other clients have declared missing or corrupt. */
    ghost var downgraded: set<Replica>

    function Now(): World
      reads this, repository
    {
      World(repository.db, disk, gc, confirmed, committed, pushed)
    }

    ghost predicate Valid()
      reads this, repository
    {
      Inv(Now()) && ActLawfully(others, downgrades)
    }

    constructor (repository: MetadataRepository, pool: set<NodeId>, sha: Bytes -> ChunkId, others: (nat, World) -> World,
                 fates: nat -> Fate, sources: (nat, NodeId, ChunkId) -> SourceReply, w: World,
                 ghost downgrades: (nat, World) -> set<Replica>)
      requires Inv(w) && repository.db == w.db && ActLawfully(others, downgrades)
      ensures Valid() && Now() == w && downgraded == {}
      ensures this.repository == repository && this.pool == pool && this.sha == sha
    {
      this.repository, this.pool, this.sha, this.others, this.fates, this.sources := repository, pool, sha, others, fates, sources;
      this.downgrades, downgraded, clock := downgrades, {}, 0;
      disk, gc, confirmed, committed, pushed := w.disk, w.gc, w.confirmed, w.committed, w.pushed;
    }

    /** What the client learns from asking a node for a chunk in its `t`-th request. */
    function AnswerAt(t: nat, node: NodeId, chunkId: ChunkId): Answer {
      if fates(t) != Answered then Lost
      else
        match sources(t, node, chunkId)
        case Got(bytes) => if sha(bytes) == chunkId then Supplied(bytes) else Failed
        case NotFound => Lacking
        case RemoteError => Failed
    }

    /** Before a request is served, other clients act. */
    method TakeTurn() returns (fate: Fate)
      requires Valid()
      modifies this, repository
      ensures Valid() && Acted(old(Now()), Now(), downgraded) && old(downgraded) <= downgraded
      ensures clock == old(clock) + 1 && fate == fates(old(clock))
    {
      ghost var before := Now();
      var later := others(clock, Now());
      ghost var more := downgrades(clock, before);
      repository.db := later.db;
      disk, gc, confirmed, committed, pushed := later.disk, later.gc, later.confirmed, later.committed, later.pushed;
      downgraded := downgraded + more;
      assert Now() == later;
      MoreDowngraded(before, later, more, downgraded);
      fate := fates(clock);
      clock := clock + 1;
    }

    // In each of the following, `None` stands for a request or an answer that was lost.

    method StartReplicationRun(runId: RunId, versionId: VersionId, replicationFactor: nat) returns (reply: Option<Result<ReplicationRun, Error>>)
      requires Valid()
      modifies this, repository
      ensures Valid() && Acted(old(Now()), Now(), downgraded) && old(downgraded) <= downgraded
      ensures reply.Some? && reply.value.Ok? ==>
                && runId in repository.db.replicationRuns && repository.db.replicationRuns[runId] == reply.value.value
                && reply.value.value.versionId == versionId && reply.value.value.replicationFactor == replicationFactor
    {
      var fate := TakeTurn();
      if fate.RequestLost? {
        return None;
      }
      ghost var before := Now();
      var result := repository.StartReplicationRun(runId, versionId, replicationFactor);
      StartedRunIsRecorded(before.db, runId, versionId, replicationFactor);
      MaintainActs(old(Now()), before, StartReplication(runId, versionId, replicationFactor), Now(), downgraded);
      return if fate.Answered? then Some(result) else None;
    }

    method GetReplicationPlan(runId: RunId) returns (reply: Option<Result<seq<ChunkPlan>, Error>>)
      requires Valid()
      modifies this, repository
      ensures Valid() && Acted(old(Now()), Now(), downgraded) && old(downgraded) <= downgraded
      ensures reply.Some? ==> reply.value == Tables.GetReplicationPlan(repository.db, runId)
    {
      var fate := TakeTurn();
      if fate.RequestLost? {
        return None;
      }
      var result := repository.GetReplicationPlan(runId);
      return if fate.Answered? then Some(result) else None;
    }

    /** `at` is the world in which the request is served. */
    method CompleteReplicationRun(runId: RunId) returns (reply: Option<Result<ReplicationRun, Error>>, ghost at: World)
      requires Valid()
      modifies this, repository
      ensures Valid() && Acted(old(Now()), Now(), downgraded) && old(downgraded) <= downgraded
      ensures Inv(at) && Acted(old(Now()), at, downgraded)
      ensures reply.Some? ==> Reply(repository.db, reply.value) == Tables.CompleteReplicationRun(at.db, runId)
    {
      var fate := TakeTurn();
      at := Now();
      if fate.RequestLost? {
        return None, at;
      }
      var result := repository.CompleteReplicationRun(runId);
      MaintainActs(old(Now()), at, CompleteReplication(runId), Now(), downgraded);
      return if fate.Answered? then Some(result) else None, at;
    }

    method HasChunk(node: NodeId, chunkId: ChunkId) returns (reply: Option<bool>)
      requires Valid()
      modifies this, repository
      ensures Valid() && Acted(old(Now()), Now(), downgraded) && old(downgraded) <= downgraded
      ensures reply.Some? ==> reply.value == ((node, chunkId) in disk)
    {
      var fate := TakeTurn();
      return if fate.Answered? then Some((node, chunkId) in disk) else None;
    }

    method GetChunk(node: NodeId, chunkId: ChunkId) returns (answer: Answer)
      requires Valid()
      modifies this, repository
      ensures Valid() && Acted(old(Now()), Now(), downgraded) && old(downgraded) <= downgraded
      ensures answer == AnswerAt(old(clock), node, chunkId) && clock == old(clock) + 1
    {
      answer := AnswerAt(clock, node, chunkId);
      var fate := TakeTurn();
    }

    /** The node verifies what it stores. */
    method PutChunk(node: NodeId, chunkId: ChunkId, bytes: Bytes) returns (ok: bool)
      requires Valid()
      modifies this, repository
      ensures Valid() && Acted(old(Now()), Now(), downgraded) && old(downgraded) <= downgraded
      ensures ok ==> (node, chunkId) in disk
    {
      var fate := TakeTurn();
      if fate.RequestLost? || sha(bytes) != chunkId {
        return false;
      }
      Store(node, chunkId, old(Now()));
      return fate.Answered?;
    }

    method Store(node: NodeId, chunkId: ChunkId, ghost first: World)
      requires Valid() && Acted(first, Now(), downgraded)
      modifies this`disk
      ensures Valid() && Acted(first, Now(), downgraded)
      ensures (node, chunkId) in disk
    {
      ghost var before := Now();
      disk := disk + {(node, chunkId)};
      assert Now() == before.(disk := before.disk + {(node, chunkId)});
      StoringActs(first, before, node, chunkId, Now(), downgraded);
    }

    method RegisterAvailable(node: NodeId, chunkId: ChunkId) returns (reply: Option<Result<(), Error>>)
      requires Valid()
      modifies this, repository
      ensures Valid() && Acted(old(Now()), Now(), downgraded) && old(downgraded) <= downgraded
      ensures reply.Some? && reply.value.Ok? ==> IsAvailable(repository.db, chunkId, node)
      ensures reply.Some? && reply.value.Err? ==> node == "" || chunkId !in repository.db.chunks
    {
      var fate := TakeTurn();
      if fate.RequestLost? {
        return None;
      }
      ghost var before := Now();
      var result := repository.RegisterStorageLocation(chunkId, node, Available);
      RegistrationActs(old(Now()), before, chunkId, node, Now(), downgraded);
      return if fate.Answered? then Some(result) else None;
    }

    // -------------------------------------------------------------------------------------------
    // Pushes
    // -------------------------------------------------------------------------------------------

    /** Remembers that the push of a session has found the chunk on the node. */
    method Confirm(sessionId: SessionId, node: NodeId, chunkId: ChunkId, ghost first: World)
      requires Valid() && Acted(first, Now(), downgraded) && sessionId in repository.db.sessions && (node, chunkId) in disk
      modifies this`confirmed
      ensures Valid() && Acted(first, Now(), downgraded)
      ensures (sessionId, chunkId, node) in confirmed
    {
      hide Acted, Inv;
      ghost var before := Now();
      confirmed := confirmed + {(sessionId, chunkId, node)};
      ConfirmingActs(first, before, sessionId, chunkId, node, Now(), downgraded);
    }

    method VerifyReplica(sessionId: SessionId, node: NodeId, chunkId: ChunkId) returns (reply: Option<bool>)
      requires Valid() && sessionId in repository.db.sessions
      modifies this, repository
      ensures Valid() && Acted(old(Now()), Now(), downgraded) && old(downgraded) <= downgraded
      ensures sessionId in repository.db.sessions
      ensures reply == Some(true) ==> (sessionId, chunkId, node) in confirmed
    {
      hide Inv;
      reply := HasChunk(node, chunkId);
      if reply == Some(true) {
        Confirm(sessionId, node, chunkId, old(Now()));
      }
    }

    method PutReplica(sessionId: SessionId, node: NodeId, chunkId: ChunkId, bytes: Bytes) returns (ok: bool)
      requires Valid() && sessionId in repository.db.sessions
      modifies this, repository
      ensures Valid() && Acted(old(Now()), Now(), downgraded) && old(downgraded) <= downgraded
      ensures sessionId in repository.db.sessions
      ensures ok ==> (sessionId, chunkId, node) in confirmed
    {
      hide Inv;
      ok := PutChunk(node, chunkId, bytes);
      if ok {
        Confirm(sessionId, node, chunkId, old(Now()));
      }
    }
  }
}
