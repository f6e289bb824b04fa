/** A whole push inside a running deployment: the producer negotiates batches and feeds the queue, the
    workers verify or store and register replicas, and between any two of their steps other clients do
    whatever they like. Storing and registering one replica is one step here; others may store the chunk
    earlier. */
module PushRuns {
  import opened Common
  import opened Ordering
  import opened ObjectLayouts
  import opened Tables
  import opened Outcomes
  import opened Invariant
  import opened ControlPlane
  import opened Runs
  import opened OpenWork
  import opened OtherClients
  import opened Chunking
  import PushQueue
  import PushPlan
  import PushEngine
  import FastCdc
  import Placement

  /** The session as it was created, the hashes in use, the tasks in the order of the queue, and the sizes
      of the chunks. */
  datatype Push = Push(sessionId: SessionId, session: UploadSession, hashing: Hashing, tasks: seq<PushQueue.Task>, sizes: map<ChunkId, nat>)

  /** The push of a file. */
  function PushFor(sha: Bytes -> ChunkId, gear: FastCdc.GearTable, sessionId: SessionId, session: UploadSession, hashing: Hashing, data: Bytes): Push {
    var ids := Distinct(PushPlan.Ids(sha, Split(PushPlan.RuleOf(session.chunking, gear), data)));
    var d := PushPlan.PushedDescriptor(sha, gear, session.chunking, data);
    Push(sessionId, session, hashing,
         PushEngine.TasksFor(hashing.digest, session.placement, session.replicationFactor, ids),
         map id | id in ids :: SizeOf(d.chunks, id))
  }

  datatype PushState = PushState(
    w: World,
    q: PushQueue.State,
    // The chunks negotiated so far, and the replicas that negotiation listed as available.
    negotiated: set<ChunkId>,
    listed: set<Replica>,
    // What other clients have declared missing or corrupt.
    downgraded: set<Replica>)

  datatype Move = Negotiates(batch: seq<ChunkMetadata>) | Mine(event: PushQueue.Event) | Others(other: Event)

  /** The replica that a worker is at. */
  function ReplicaAt(p: Push, q: PushQueue.State, worker: nat): Replica
    requires PushQueue.HasReplicaLeft(p.tasks, q, worker)
  {
    var task := p.tasks[q.workers[worker].task];
    (task.chunkId, task.desired[q.workers[worker].position])
  }

  ghost predicate Possible(p: Push, s: PushState, m: Move) {
    match m
    case Negotiates(batch) =>
      && (forall i | 0 <= i < |batch| :: batch[i].chunkId in p.sizes && batch[i].size == p.sizes[batch[i].chunkId])
      && NegotiateChunks(s.w.db, p.sessionId, batch).result.Ok?
    case Others(_) => true
    case Mine(e) =>
      && PushQueue.Enabled(p.tasks, s.q, e)
      && match e
         case PushNext => p.tasks[s.q.pushed].chunkId in s.negotiated
         case ReplicaVerified(worker) =>
           var replica := ReplicaAt(p, s.q, worker);
           replica in s.listed && (replica.1, replica.0) in s.w.disk
         case ReplicaPut(worker) =>
           var replica := ReplicaAt(p, s.q, worker);
           RegisterStorageLocation(s.w.db, replica.0, replica.1, Available).result.Ok?
         case _ => true
  }

  ghost function Stored(p: Push, w: World, replica: Replica): World {
    Step(w, Upload(PushPut(p.sessionId, replica.0, replica.1)))
  }

  ghost function Registered(w: World, replica: Replica): World {
    Step(w, Catalog(RegisterLocation(replica.0, replica.1, Available)))
  }

  function AvailableOf(db: Db, batch: seq<ChunkMetadata>): set<Replica> {
    set key | key in db.locations && db.locations[key] == Available && exists i | 0 <= i < |batch| :: batch[i].chunkId == key.0
  }

  ghost function After(p: Push, s: PushState, m: Move): PushState
    requires Possible(p, s, m)
  {
    match m
    case Negotiates(batch) =>
      var later := Step(s.w, Upload(Negotiate(p.sessionId, batch)));
      s.(w := later,
         negotiated := s.negotiated + (set i | 0 <= i < |batch| :: batch[i].chunkId),
         listed := s.listed + AvailableOf(later.db, batch))
    case Others(e) => s.(w := Step(s.w, e), downgraded := s.downgraded + DowngradedBy([e]))
    case Mine(e) =>
      var q := PushQueue.Apply(p.tasks, s.q, e);
      match e
      case ReplicaVerified(worker) =>
        var replica := ReplicaAt(p, s.q, worker);
        s.(w := Step(s.w, Upload(PushVerify(p.sessionId, replica.0, replica.1))), q := q)
      case ReplicaPut(worker) =>
        s.(w := Registered(Stored(p, s.w, ReplicaAt(p, s.q, worker)), ReplicaAt(p, s.q, worker)), q := q)
      case _ => s.(q := q)
  }

  ghost predicate Scheduled(p: Push, s: PushState, moves: seq<Move>)
    decreases moves
  {
    moves != [] ==> Possible(p, s, moves[0]) && Scheduled(p, After(p, s, moves[0]), moves[1..])
  }

  ghost function Pushed(p: Push, s: PushState, moves: seq<Move>): PushState
    requires Scheduled(p, s, moves)
    decreases moves
  {
    if moves == [] then s else Pushed(p, After(p, s, moves[0]), moves[1..])
  }

  function Begin(p: Push, w: World, capacity: nat, workerCount: nat): PushState {
    PushState(w, PushQueue.Begin(p.tasks, capacity, workerCount), {}, {}, {})
  }

  // ---------------------------------------------------------------------------------------------
  // What a push has achieved at any time
  // ---------------------------------------------------------------------------------------------

  ghost predicate AllReplicasListed(p: Push, w: World, downgraded: set<Replica>, replicas: set<Replica>) {
    forall c, n | (c, n) in replicas :: StillListed(Uploading(p.sessionId), w, downgraded, c, n)
  }

  ghost predicate AllReplicasConfirmed(p: Push, w: World, replicas: set<Replica>) {
    forall c, n | (c, n) in replicas :: (p.sessionId, c, n) in w.confirmed
  }

  /** While the session is open, the negotiated chunks have their rows, with the right sizes. */
  ghost predicate RowsThere(p: Push, w: World, negotiated: set<ChunkId>) {
    forall c | c in negotiated ::
      c in p.sizes && (WorkOpen(w.db, Uploading(p.sessionId)) ==> c in w.db.chunks && w.db.chunks[c] == p.sizes[c])
  }

  ghost predicate SessionThere(p: Push, w: World) {
    && w.db.hashing == p.hashing
    && p.sessionId in w.db.sessions
    && w.db.sessions[p.sessionId] == p.session.(state := w.db.sessions[p.sessionId].state)
  }

  ghost predicate WorldSound(p: Push, w: World, done: set<Replica>, s: PushState) {
    && SessionThere(p, w)
    && AllReplicasConfirmed(p, w, done) && AllReplicasListed(p, w, s.downgraded, done)
    && AllReplicasListed(p, w, s.downgraded, s.listed)
    && RowsThere(p, w, s.negotiated)
  }

  ghost predicate QueueSound(p: Push, s: PushState) {
    && PushQueue.Inv(p.tasks, s.q) && |s.q.workers| > 0
    && forall k | 0 <= k < s.q.pushed :: p.tasks[k].chunkId in s.negotiated
  }

  ghost predicate Sound(p: Push, s: PushState) {
    Inv(s.w) && WorldSound(p, s.w, s.q.confirmed, s) && QueueSound(p, s)
  }

  lemma ReplicasStayListed(p: Push, w: World, later: World, before: set<Replica>, downgraded: set<Replica>, replicas: set<Replica>)
    requires p.sessionId in w.db.sessions && Acted(w, later, downgraded) && before <= downgraded
    requires AllReplicasListed(p, w, before, replicas)
    ensures AllReplicasListed(p, later, downgraded, replicas)
  {
    forall c, n | (c, n) in replicas
      ensures StillListed(Uploading(p.sessionId), later, downgraded, c, n)
    {
      ListedStays(Uploading(p.sessionId), w, later, before, downgraded, c, n);
    }
  }

  lemma RowsStay(p: Push, w: World, later: World, downgraded: set<Replica>, negotiated: set<ChunkId>)
    requires p.sessionId in w.db.sessions && Acted(w, later, downgraded) && RowsThere(p, w, negotiated)
    ensures RowsThere(p, later, negotiated)
  {
    if WorkOpen(later.db, Uploading(p.sessionId)) {
      OpenBeforeToo(w, later, downgraded, Uploading(p.sessionId));
      assert StillOpen(w, later, Uploading(p.sessionId));
    }
  }

  /** What others do leaves a push its achievements. */
  lemma WorldStaysSound(p: Push, w: World, later: World, done: set<Replica>, s: PushState, downgraded: set<Replica>)
    requires WorldSound(p, w, done, s) && Acted(w, later, downgraded) && s.downgraded <= downgraded
    ensures WorldSound(p, later, done, s.(downgraded := downgraded))
  {
    ReplicasStayListed(p, w, later, s.downgraded, downgraded, done);
    ReplicasStayListed(p, w, later, s.downgraded, downgraded, s.listed);
    RowsStay(p, w, later, downgraded, s.negotiated);
  }

  lemma BeginIsSound(p: Push, w: World, capacity: nat, workerCount: nat)
    requires Inv(w) && SessionThere(p, w) && capacity > 0 && workerCount > 0
    ensures Sound(p, Begin(p, w, capacity, workerCount))
  {
    PushQueue.BeginSatisfiesInv(p.tasks, capacity, workerCount);
  }

  lemma OthersKeepSound(p: Push, s: PushState, e: Event)
    requires Sound(p, s)
    ensures Sound(p, After(p, s, Others(e)))
  {
    hide Acted, Inv, WorldSound, Step;
    var downgraded := s.downgraded + DowngradedBy([e]);
    ClientsAct(s.w, [e]);
    ExecOne(s.w, e);
    MoreDowngraded(s.w, Step(s.w, e), DowngradedBy([e]), downgraded);
    WorldStaysSound(p, s.w, Step(s.w, e), s.q.confirmed, s, downgraded);
    SameParts(p, Step(s.w, e), s.q.confirmed, s.(downgraded := downgraded), After(p, s, Others(e)));
  }

  /** `WorldSound` looks only at these parts of the state. */
  lemma SameParts(p: Push, w: World, done: set<Replica>, s: PushState, later: PushState)
    requires WorldSound(p, w, done, s)
    requires later.downgraded == s.downgraded && later.listed == s.listed && later.negotiated == s.negotiated
    ensures WorldSound(p, w, done, later)
  {
  }

  lemma {:induction false} BatchSizesAt(batch: seq<ChunkMetadata>, i: nat)
    requires i < |batch| && BatchSizesAgree(batch)
    ensures batch[i].chunkId in BatchSizes(batch) && BatchSizes(batch)[batch[i].chunkId] == batch[i].size
  {
    var rest := batch[..|batch| - 1];
    if i < |batch| - 1 {
      assert forall j | 0 <= j < |rest| :: rest[j] == batch[j];
      BatchSizesAt(rest, i);
    }
  }

  lemma NegotiatedRows(db: Db, sessionId: SessionId, batch: seq<ChunkMetadata>, i: nat)
    requires NegotiateChunks(db, sessionId, batch).result.Ok? && i < |batch|
    ensures var later := NegotiateChunks(db, sessionId, batch).db;
            batch[i].chunkId in later.chunks && later.chunks[batch[i].chunkId] == batch[i].size
  {
    BatchSizesAt(batch, i);
  }

  lemma NegotiationIsStep(p: Push, w: World, batch: seq<ChunkMetadata>)
    ensures Step(w, Upload(Negotiate(p.sessionId, batch))) == w.(db := NegotiateChunks(w.db, p.sessionId, batch).db)
  {
  }

  lemma NegotiationAdds(p: Push, w: World, s: PushState, batch: seq<ChunkMetadata>, later: PushState)
    requires WorldSound(p, w, s.q.confirmed, s)
    requires forall i | 0 <= i < |batch| ::
               batch[i].chunkId in p.sizes && batch[i].chunkId in w.db.chunks && w.db.chunks[batch[i].chunkId] == p.sizes[batch[i].chunkId]
    requires later == s.(w := w, negotiated := s.negotiated + (set i | 0 <= i < |batch| :: batch[i].chunkId),
                         listed := s.listed + AvailableOf(w.db, batch))
    ensures WorldSound(p, w, s.q.confirmed, later)
  {
  }

  lemma NegotiationKeepsSound(p: Push, s: PushState, batch: seq<ChunkMetadata>)
    requires Sound(p, s) && Possible(p, s, Negotiates(batch))
    ensures Sound(p, After(p, s, Negotiates(batch)))
  {
    hide Acted, Inv, WorldSound, Step, NegotiateChunks;
    var later := Step(s.w, Upload(Negotiate(p.sessionId, batch)));
    ClientActs(s.w, Upload(Negotiate(p.sessionId, batch)), s.downgraded);
    WorldStaysSound(p, s.w, later, s.q.confirmed, s, s.downgraded);
    assert s.(downgraded := s.downgraded) == s;
    NegotiationIsStep(p, s.w, batch);
    forall i | 0 <= i < |batch|
      ensures batch[i].chunkId in later.db.chunks && later.db.chunks[batch[i].chunkId] == p.sizes[batch[i].chunkId]
    {
      NegotiatedRows(s.w.db, p.sessionId, batch, i);
    }
    NegotiationAdds(p, later, s, batch, After(p, s, Negotiates(batch)));
  }

  lemma OneMoreReplica(p: Push, w: World, done: set<Replica>, s: PushState, replica: Replica)
    requires WorldSound(p, w, done, s)
    requires (p.sessionId, replica.0, replica.1) in w.confirmed
    requires StillListed(Uploading(p.sessionId), w, s.downgraded, replica.0, replica.1)
    ensures WorldSound(p, w, done + {replica}, s)
  {
  }

  /** The session's push has found the replica: it was listed, and so it still is. */
  lemma VerifyIsSound(p: Push, w: World, done: set<Replica>, s: PushState, replica: Replica)
    requires Inv(w) && WorldSound(p, w, done, s) && replica in s.listed && (replica.1, replica.0) in w.disk
    ensures var later := Step(w, Upload(PushVerify(p.sessionId, replica.0, replica.1)));
            Inv(later) && WorldSound(p, later, done + {replica}, s)
  {
    hide Acted, Inv;
    var e := Upload(PushVerify(p.sessionId, replica.0, replica.1));
    ClientActs(w, e, s.downgraded);
    WorldStaysSound(p, w, Step(w, e), done, s, s.downgraded);
    assert s.(downgraded := s.downgraded) == s;
    ConfirmedByVerify(p, w, replica);
    assert (replica.0, replica.1) in s.listed;
    OneMoreReplica(p, Step(w, e), done, s, replica);
  }

  lemma ConfirmedByVerify(p: Push, w: World, replica: Replica)
    requires p.sessionId in w.db.sessions && (replica.1, replica.0) in w.disk
    ensures (p.sessionId, replica.0, replica.1) in Step(w, Upload(PushVerify(p.sessionId, replica.0, replica.1))).confirmed
  {
  }

  lemma StoredMeans(p: Push, w: World, replica: Replica)
    requires p.sessionId in w.db.sessions
    ensures var later := Stored(p, w, replica);
            later.db == w.db && (p.sessionId, replica.0, replica.1) in later.confirmed
  {
  }

  lemma RegisteredMeans(w: World, replica: Replica)
    requires RegisterStorageLocation(w.db, replica.0, replica.1, Available).result.Ok?
    ensures IsAvailable(Registered(w, replica).db, replica.0, replica.1)
    ensures Registered(w, replica).confirmed == w.confirmed
  {
  }

  lemma PutIsSound(p: Push, w: World, done: set<Replica>, s: PushState, replica: Replica)
    requires Inv(w) && WorldSound(p, w, done, s)
    requires RegisterStorageLocation(w.db, replica.0, replica.1, Available).result.Ok?
    ensures var later := Registered(Stored(p, w, replica), replica);
            Inv(later) && WorldSound(p, later, done + {replica}, s)
  {
    hide Acted, Inv, Step;
    var mid := Stored(p, w, replica);
    var later := Registered(mid, replica);
    StoredMeans(p, w, replica);
    ClientActs(w, Upload(PushPut(p.sessionId, replica.0, replica.1)), s.downgraded);
    WorldStaysSound(p, w, mid, done, s, s.downgraded);
    RegisteredMeans(mid, replica);
    ClientActs(mid, Catalog(RegisterLocation(replica.0, replica.1, Available)), s.downgraded);
    WorldStaysSound(p, mid, later, done, s, s.downgraded);
    assert s.(downgraded := s.downgraded) == s;
    OneMoreReplica(p, later, done, s, replica);
  }

  /** What a step of the push's own threads does to the queue state. */
  lemma QueueStep(p: Push, q: PushQueue.State, e: PushQueue.Event)
    requires PushQueue.Inv(p.tasks, q) && PushQueue.Enabled(p.tasks, q, e)
    ensures var later := PushQueue.Apply(p.tasks, q, e);
            && PushQueue.Inv(p.tasks, later) && |later.workers| == |q.workers|
            && later.pushed == (if e.PushNext? then q.pushed + 1 else q.pushed)
            && later.confirmed == if e.ReplicaVerified? || e.ReplicaPut? then q.confirmed + {ReplicaAt(p, q, e.worker)} else q.confirmed
  {
    PushQueue.StepKeepsInv(p.tasks, q, e);
  }

  lemma MyStepKeepsSound(p: Push, s: PushState, e: PushQueue.Event)
    requires Sound(p, s) && Possible(p, s, Mine(e))
    ensures Sound(p, After(p, s, Mine(e)))
  {
    hide Acted, Inv, WorldSound, Step, PushQueue.Inv, PushQueue.Apply, Stored, Registered;
    var later := After(p, s, Mine(e));
    QueueStep(p, s.q, e);
    match e {
      case ReplicaVerified(worker) => VerifyIsSound(p, s.w, s.q.confirmed, s, ReplicaAt(p, s.q, worker));
      case ReplicaPut(worker) => PutIsSound(p, s.w, s.q.confirmed, s, ReplicaAt(p, s.q, worker));
      case _ =>
    }
    SameParts(p, later.w, later.q.confirmed, s, later);
  }

  lemma {:induction false} PushKeepsSound(p: Push, s: PushState, moves: seq<Move>)
    requires Sound(p, s) && Scheduled(p, s, moves)
    ensures Sound(p, Pushed(p, s, moves))
    decreases moves
  {
    hide Sound, Possible, After;
    if moves != [] {
      match moves[0] {
        case Negotiates(batch) => NegotiationKeepsSound(p, s, batch);
        case Mine(e) => MyStepKeepsSound(p, s, e);
        case Others(e) => OthersKeepSound(p, s, e);
      }
      PushKeepsSound(p, After(p, s, moves[0]), moves[1..]);
    }
  }

  // ---------------------------------------------------------------------------------------------
  // A push whose threads have all finished without a failure
  // ---------------------------------------------------------------------------------------------

  ghost predicate Completed(s: PushState) {
    PushQueue.Terminated(s.q) && !s.q.failed
  }

  lemma CompletedTasks(p: Push, s: PushState, sha: Bytes -> ChunkId, gear: FastCdc.GearTable, data: Bytes)
    requires QueueSound(p, s) && Completed(s) && p == PushFor(sha, gear, p.sessionId, p.session, p.hashing, data)
    requires Placement.ValidReplication(p.session.placement, p.session.replicationFactor)
    ensures PushQueue.AllDone(p.tasks, s.q, p.session.replicationFactor)
  {
    Placement.SortedNodeIdsDistinct(p.session.placement);
    forall k | 0 <= k < |p.tasks|
      ensures |p.tasks[k].desired| == p.session.replicationFactor
    {
      Placement.SelectionIsTop(p.hashing.digest, p.tasks[k].chunkId, p.session.placement, p.session.replicationFactor);
    }
    PushQueue.SuccessMeansDone(p.tasks, s.q, p.session.replicationFactor);
  }

  /** Every chunk of the file has its task. */
  lemma TaskOfChunk(p: Push, sha: Bytes -> ChunkId, gear: FastCdc.GearTable, data: Bytes, c: ChunkId) returns (k: nat)
    requires p == PushFor(sha, gear, p.sessionId, p.session, p.hashing, data)
    requires c in ChunkIds(PushPlan.PushedDescriptor(sha, gear, p.session.chunking, data))
    ensures k < |p.tasks| && p.tasks[k].chunkId == c
    ensures p.tasks[k].desired == Placement.Select(p.hashing.digest, c, p.session.placement, p.session.replicationFactor)
    ensures c in p.sizes && p.sizes[c] == SizeOf(PushPlan.PushedDescriptor(sha, gear, p.session.chunking, data).chunks, c)
  {
    var ids := Distinct(PushPlan.Ids(sha, Split(PushPlan.RuleOf(p.session.chunking, gear), data)));
    PushEngine.PushedChunksAreRecorded(sha, gear, p.session.chunking, data);
    var i :| 0 <= i < |ids| && ids[i] == c;
    k := i;
  }

  /** Every chunk has been found or stored on every node desired for it. */
  lemma CompletedPushConfirmsAll(p: Push, s: PushState, sha: Bytes -> ChunkId, gear: FastCdc.GearTable, data: Bytes)
    requires Sound(p, s) && Completed(s) && p == PushFor(sha, gear, p.sessionId, p.session, p.hashing, data)
    ensures AllConfirmed(s.w, p.sessionId, PushPlan.PushedDescriptor(sha, gear, p.session.chunking, data))
  {
    var d := PushPlan.PushedDescriptor(sha, gear, p.session.chunking, data);
    SessionIsValid(p, s.w);
    CompletedTasks(p, s, sha, gear, data);
    forall c, n | c in ChunkIds(d) && n in Desired(s.w.db, s.w.db.sessions[p.sessionId], c)
      ensures (p.sessionId, c, n) in s.w.confirmed
    {
      var k := TaskOfChunk(p, sha, gear, data, c);
      assert (p.tasks[k].chunkId, n) in s.q.confirmed;
    }
  }

  lemma SessionIsValid(p: Push, w: World)
    requires Inv(w) && SessionThere(p, w)
    ensures Placement.ValidReplication(p.session.placement, p.session.replicationFactor)
  {
    assert SessionRowOk(w.db.sessions[p.sessionId], FinalizationOf(w.db.finalizations, p.sessionId), w.db.versions, w.db.retired, w.db.layouts);
  }

  lemma {:induction false} OnlyReplicasRefused(db: Db, s: UploadSession, d: Descriptor, ids: seq<ChunkId>) returns (i: nat)
    requires forall j | 0 <= j < |ids| :: ids[j] in db.chunks && db.chunks[ids[j]] == SizeOf(d.chunks, ids[j])
    ensures FirstRefusal(db, s, d, ids) in {None, Some(ChunkUnderReplicated)}
    ensures FirstRefusal(db, s, d, ids) != None ==> i < |ids| && !FullyReplicated(db, s, ids[i])
  {
    if ids == [] || !FullyReplicated(db, s, ids[0]) {
      i := 0;
    } else {
      i := OnlyReplicasRefused(db, s, d, ids[1..]);
      i := i + 1;
    }
  }

  /** Somebody has declared a replica of the push bad. */
  ghost predicate SomeDowngraded(db: Db, s: UploadSession, d: Descriptor, downgraded: set<Replica>) {
    exists c, n :: c in ChunkIds(d) && n in Desired(db, s, c) && (c, n) in downgraded
  }

  /** While its session is open, the chunks of a completed push pass the check of finalization, unless
      somebody has declared one of their replicas bad. */
  lemma CompletedPushPassesChecks(p: Push, s: PushState, sha: Bytes -> ChunkId, gear: FastCdc.GearTable, data: Bytes)
    requires Sound(p, s) && Completed(s) && p == PushFor(sha, gear, p.sessionId, p.session, p.hashing, data)
    requires s.w.db.sessions[p.sessionId].state.Open?
    ensures var db, session := s.w.db, s.w.db.sessions[p.sessionId];
            var d := PushPlan.PushedDescriptor(sha, gear, p.session.chunking, data);
            var refusal := FirstRefusal(db, session, d, Enumeration(ChunkIds(d)));
            refusal == None || (refusal == Some(ChunkUnderReplicated) && SomeDowngraded(db, session, d, s.downgraded))
  {
    hide Inv;
    var db, session := s.w.db, s.w.db.sessions[p.sessionId];
    var d := PushPlan.PushedDescriptor(sha, gear, p.session.chunking, data);
    var ids := Enumeration(ChunkIds(d));
    SessionIsValid(p, s.w);
    CompletedTasks(p, s, sha, gear, data);
    forall j | 0 <= j < |ids|
      ensures ids[j] in ChunkIds(d) && ids[j] in db.chunks && db.chunks[ids[j]] == SizeOf(d.chunks, ids[j])
    {
      assert ids[j] in Elements(ids);
      var k := TaskOfChunk(p, sha, gear, data, ids[j]);
      assert p.tasks[k].chunkId in s.negotiated;
    }
    var i := OnlyReplicasRefused(db, session, d, ids);
    if FirstRefusal(db, session, d, ids) != None {
      var k := TaskOfChunk(p, sha, gear, data, ids[i]);
      var n :| n in Desired(db, session, ids[i]) && !IsAvailable(db, ids[i], n);
      assert (p.tasks[k].chunkId, n) in s.q.confirmed;
      assert StillListed(Uploading(p.sessionId), s.w, s.downgraded, ids[i], n);
    }
  }

  /** What a push submits when all its threads have finished without a failure, and its session is still
      open, is accepted. The exceptions: somebody has declared one of its replicas bad; the very version has
      been retired before or is its own parent; rows with the same IDs and other contents are there
      already; or two chunks of the file collide. */
  lemma CompletedPushIsAccepted(p: Push, w: World, capacity: nat, workerCount: nat, moves: seq<Move>,
                                sha: Bytes -> ChunkId, gear: FastCdc.GearTable, data: Bytes, now: real)
    requires Inv(w) && SessionThere(p, w) && capacity > 0 && workerCount > 0
    requires p == PushFor(sha, gear, p.sessionId, p.session, p.hashing, data)
    requires PushPlan.ValidChunking(p.session.chunking) && (forall b :: IsContentId(sha(b))) && |data| <= UINT64_MAX
    requires Scheduled(p, Begin(p, w, capacity, workerCount), moves)
    ensures var s := Pushed(p, Begin(p, w, capacity, workerCount), moves);
            && p.sessionId in s.w.db.sessions
            && (Completed(s) && s.w.db.sessions[p.sessionId].state.Open? ==>
                  AcceptedUnless(p, s, PushPlan.PushedDescriptor(sha, gear, p.session.chunking, data), now,
                                 Split(PushPlan.RuleOf(p.session.chunking, gear), data), sha))
  {
    hide Inv, Possible, After, Scheduled, Pushed, WorldSound, QueueSound, FinalizeUpload, PushFor, AcceptedUnless, Completed;
    var s := Pushed(p, Begin(p, w, capacity, workerCount), moves);
    BeginIsSound(p, w, capacity, workerCount);
    PushKeepsSound(p, Begin(p, w, capacity, workerCount), moves);
    SoundHasSession(p, s);
    if Completed(s) && s.w.db.sessions[p.sessionId].state.Open? {
      CompletedPushPassesChecks(p, s, sha, gear, data);
      PushPlan.PushedDescriptorIsAccepted(sha, gear, p.session.chunking, data);
      OpenSessionIsNotFinalized(p, s.w);
      Verdict(p, s, PushPlan.PushedDescriptor(sha, gear, p.session.chunking, data), now,
              Split(PushPlan.RuleOf(p.session.chunking, gear), data), sha);
    }
  }

  lemma SoundHasSession(p: Push, s: PushState)
    requires Sound(p, s)
    ensures SessionThere(p, s.w) && Inv(s.w)
  {
  }

  ghost predicate SomeCollision(sha: Bytes -> ChunkId, chunks: seq<Bytes>) {
    exists i, j | 0 <= i < |chunks| && 0 <= j < |chunks| :: Collide(sha, chunks[i], chunks[j])
  }

  ghost predicate AcceptedUnless(p: Push, s: PushState, d: Descriptor, now: real, chunks: seq<Bytes>, sha: Bytes -> ChunkId)
    requires p.sessionId in s.w.db.sessions
  {
    var db, session := s.w.db, s.w.db.sessions[p.sessionId];
    var versionId := db.hashing.versionId(KeyOf(session, d));
    match FinalizeUpload(db, p.sessionId, d, now).result
    case Ok(value) => value == Finalized(p.sessionId, versionId, d.objectId, db.hashing.layoutId(d))
    case Err(error) =>
      || (error == ChunkUnderReplicated && SomeDowngraded(db, session, d, s.downgraded))
      || (error == VersionRetired && versionId in db.retired)
      || (error == ConstraintViolation && session.parent == Some(versionId))
      || (error == Conflict && (OtherContents(db, session, d) || SomeCollision(sha, chunks)))
  }

  /** There are rows with the same IDs and other contents. */
  predicate OtherContents(db: Db, session: UploadSession, d: Descriptor) {
    var layoutId, versionId := db.hashing.layoutId(d), db.hashing.versionId(KeyOf(session, d));
    || (d.objectId in db.objects && db.objects[d.objectId] != d.totalSize)
    || (layoutId in db.layouts && db.layouts[layoutId] != d)
    || (versionId in db.versions && db.versions[versionId].key != KeyOf(session, d))
  }

  lemma OpenSessionIsNotFinalized(p: Push, w: World)
    requires Inv(w) && SessionThere(p, w) && w.db.sessions[p.sessionId].state.Open?
    ensures p.sessionId !in w.db.finalizations
  {
    assert SessionRowOk(w.db.sessions[p.sessionId], FinalizationOf(w.db.finalizations, p.sessionId), w.db.versions, w.db.retired, w.db.layouts);
  }

  lemma Verdict(p: Push, s: PushState, d: Descriptor, now: real, chunks: seq<Bytes>, sha: Bytes -> ChunkId)
    requires SessionThere(p, s.w) && s.w.db.sessions[p.sessionId].state.Open? && p.sessionId !in s.w.db.finalizations
    requires ShapeMatches(p.session.chunking, d) && (SizesAgree(d.chunks) || SomeCollision(sha, chunks))
    requires var db, session := s.w.db, s.w.db.sessions[p.sessionId];
             var refusal := FirstRefusal(db, session, d, Enumeration(ChunkIds(d)));
             refusal == None || (refusal == Some(ChunkUnderReplicated) && SomeDowngraded(db, session, d, s.downgraded))
    ensures AcceptedUnless(p, s, d, now, chunks, sha)
  {
  }

  /** The finalization of a completed push is the one that makes the session durable: its guard, that all
      replicas are confirmed, holds. From then on every chunk of the file stays on every node desired for
      it, whatever happens, until the version is retired. */
  lemma CompletedPushIsDurable(p: Push, w: World, capacity: nat, workerCount: nat, moves: seq<Move>, events: seq<Event>,
                               sha: Bytes -> ChunkId, gear: FastCdc.GearTable, data: Bytes, now: real)
    requires Inv(w) && SessionThere(p, w) && capacity > 0 && workerCount > 0
    requires p == PushFor(sha, gear, p.sessionId, p.session, p.hashing, data)
    requires Scheduled(p, Begin(p, w, capacity, workerCount), moves)
    ensures var s := Pushed(p, Begin(p, w, capacity, workerCount), moves);
            var d := PushPlan.PushedDescriptor(sha, gear, p.session.chunking, data);
            Completed(s) && Commits(s.w.db, p.sessionId, d) ==>
              var committed := UploadStep(s.w, Finalize(p.sessionId, d, now, true));
              && committed.db == FinalizeUpload(s.w.db, p.sessionId, d, now).db
              && StaysOnNodes(p, d, Exec(committed, events))
  {
    hide Inv, Possible, After, Scheduled, Pushed, WorldSound, QueueSound, FinalizeUpload, PushFor, AllConfirmed, Commits, Step, UploadStep;
    var s := Pushed(p, Begin(p, w, capacity, workerCount), moves);
    var d := PushPlan.PushedDescriptor(sha, gear, p.session.chunking, data);
    BeginIsSound(p, w, capacity, workerCount);
    PushKeepsSound(p, Begin(p, w, capacity, workerCount), moves);
    SoundHasSession(p, s);
    if Completed(s) && Commits(s.w.db, p.sessionId, d) {
      CompletedPushConfirmsAll(p, s, sha, gear, data);
      CommittedPushStays(p, s.w, d, now, events);
    }
  }

  /** As long as the version is active, the chunks are where the session wants them. */
  ghost predicate StaysOnNodes(p: Push, d: Descriptor, later: World) {
    && p.sessionId in later.db.sessions
    && (StillActive(later.db, p.sessionId) ==>
          forall c, n | c in ChunkIds(d) && n in Placement.Select(p.hashing.digest, c, p.session.placement, p.session.replicationFactor) ::
            (n, c) in later.disk)
  }

  lemma CommittedPushStays(p: Push, w: World, d: Descriptor, now: real, events: seq<Event>)
    requires Inv(w) && SessionThere(p, w) && Commits(w.db, p.sessionId, d) && AllConfirmed(w, p.sessionId, d)
    ensures var committed := UploadStep(w, Finalize(p.sessionId, d, now, true));
            && committed.db == FinalizeUpload(w.db, p.sessionId, d, now).db
            && StaysOnNodes(p, d, Exec(committed, events))
  {
    hide Inv, Step, UploadStep, FinalizeUpload, CommitUpload;
    FinalizeStepOutcome(w, p.sessionId, d, now, true);
    FinalizeOutcome(w.db, p.sessionId, d, now);
    var committed := AfterCommit(w, p.sessionId, d, now, true);
    CommitKeepsInv(w, p.sessionId, d, now, true);
    ExecKeepsInv(committed, events);
    ExecRemembers(committed, events);
    CommittedSession(w, p.sessionId, d, now);
    DurableMeans(p, committed, Exec(committed, events), d);
  }

  lemma CommittedSession(w: World, sessionId: SessionId, d: Descriptor, now: real)
    requires sessionId in w.db.sessions
    ensures var committed := AfterCommit(w, sessionId, d, now, true);
            && committed.db.hashing == w.db.hashing && sessionId in committed.pushed
            && sessionId in committed.db.sessions && committed.db.sessions[sessionId].state.Committed?
            && committed.db.sessions[sessionId] == w.db.sessions[sessionId].(state := committed.db.sessions[sessionId].state)
            && sessionId in committed.committed && committed.committed[sessionId] == d
  {
  }

  lemma DurableMeans(p: Push, committed: World, later: World, d: Descriptor)
    requires SessionThere(p, committed) && committed.db.sessions[p.sessionId].state.Committed?
    requires p.sessionId in committed.pushed && p.sessionId in committed.committed && committed.committed[p.sessionId] == d
    requires Inv(later) && Remembers(committed, later)
    ensures StaysOnNodes(p, d, later)
  {
    assert later.committed[p.sessionId] == d && later.db.sessions[p.sessionId] == committed.db.sessions[p.sessionId];
  }
}
