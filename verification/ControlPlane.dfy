/** The control plane as a transition system: the metadata database, the chunks physically stored on
    the nodes, the GC engine, and the pushes that drive them. Every repository call is one step, as
    the service holds one mutex around it; crashes and restarts are steps too. */
module ControlPlane {
  import opened Common
  import opened ObjectLayouts
  import opened Tables
  import opened Outcomes
  import opened Invariant
  import opened Evolution
  import Lifecycle

  /** The engine works on one page of the inventory at a time: the chunks it was told are collectible
      and has not deleted yet. */
  datatype GcEngine = Idle | Collecting(runId: RunId, node: NodeId, dryRun: bool, pending: set<ChunkId>)

  datatype World = World(
    db: Db,
    disk: set<(NodeId, ChunkId)>,
    gc: GcEngine,
    // Replicas that the push of a session found on the node, or stored there, while running.
    confirmed: set<(SessionId, ChunkId, NodeId)>,
    // The descriptor each committed session was finalized with.
    committed: map<SessionId, Descriptor>,
    // The sessions finalized by a push that had confirmed every desired replica.
    pushed: set<SessionId>)

  datatype CatalogEvent =
    | RegisterNode(node: NodeId, nodeState: NodeState)
    | NewArtifact(artifactId: ArtifactId)
    | RegisterLocation(chunkId: ChunkId, node: NodeId, locationState: LocationState)
    | NewPolicy(policyId: PolicyId, policy: Lifecycle.Policy)
    | Pin(versionId: VersionId)
    | Unpin(versionId: VersionId)
    | Tag(artifactId: ArtifactId, name: string, versionId: VersionId)
    | NewManifest(manifestId: ManifestId, entries: map<string, VersionId>)

  /** Pushes, their repository calls and their storage requests. */
  datatype UploadEvent =
    | CreateSession(sessionId: SessionId, session: UploadSession)
    | AbortSession(sessionId: SessionId)
    | Negotiate(sessionId: SessionId, batch: seq<ChunkMetadata>)
    | StoreChunk(node: NodeId, chunkId: ChunkId)
    | PushVerify(sessionId: SessionId, chunkId: ChunkId, node: NodeId)
    | PushPut(sessionId: SessionId, chunkId: ChunkId, node: NodeId)
    | Finalize(sessionId: SessionId, descriptor: Descriptor, now: real, byPush: bool)

  datatype GcEvent =
    | GcStart(runId: RunId, node: NodeId, dryRun: bool)
    | GcClassify(page: seq<ChunkId>)
    | GcDelete(chunkId: ChunkId)
    | GcComplete
    | GcCrash

  datatype RunEvent =
    | StartReplication(runId: RunId, versionId: VersionId, replicationFactor: nat)
    | CompleteReplication(runId: RunId)
    | Retain(runId: RunId, policyId: PolicyId, apply: bool, now: real)

  datatype Event = Catalog(change: CatalogEvent) | Upload(upload: UploadEvent) | Collect(collect: GcEvent) | Maintain(run: RunEvent)

  /** The push of the session has confirmed every desired replica of the layout. */
  ghost predicate AllConfirmed(w: World, sessionId: SessionId, d: Descriptor) {
    && sessionId in w.db.sessions
    && forall c, n | c in ChunkIds(d) && n in Desired(w.db, w.db.sessions[sessionId], c) :: (sessionId, c, n) in w.confirmed
  }

  // In each of the following, a step whose guard does not hold changes nothing.

  ghost function CatalogStep(db: Db, e: CatalogEvent): Db {
    match e
    case RegisterNode(node, nodeState) => RegisterStorageNode(db, node, nodeState).db
    case NewArtifact(artifactId) => CreateArtifact(db, artifactId).db
    case RegisterLocation(chunkId, node, locationState) => RegisterStorageLocation(db, chunkId, node, locationState).db
    case NewPolicy(policyId, policy) => RegisterLifecyclePolicy(db, policyId, policy).db
    case Pin(versionId) => PinVersion(db, versionId).db
    case Unpin(versionId) => UnpinVersion(db, versionId).db
    case Tag(artifactId, name, versionId) => SetTag(db, artifactId, name, versionId).db
    case NewManifest(manifestId, entries) => RegisterManifest(db, manifestId, entries).db
  }

  ghost function UploadStep(w: World, e: UploadEvent): World {
    match e
    case CreateSession(sessionId, session) => w.(db := CreateUploadSession(w.db, sessionId, session).db)
    case AbortSession(sessionId) => w.(db := AbortUploadSession(w.db, sessionId).db)
    case Negotiate(sessionId, batch) => w.(db := NegotiateChunks(w.db, sessionId, batch).db)
    case StoreChunk(node, chunkId) => w.(disk := w.disk + {(node, chunkId)})
    case PushVerify(sessionId, chunkId, node) =>
      if sessionId in w.db.sessions && (node, chunkId) in w.disk
      then w.(confirmed := w.confirmed + {(sessionId, chunkId, node)}) else w
    case PushPut(sessionId, chunkId, node) =>
      if sessionId in w.db.sessions
      then w.(disk := w.disk + {(node, chunkId)}, confirmed := w.confirmed + {(sessionId, chunkId, node)}) else w
    case Finalize(sessionId, d, now, byPush) =>
      if byPush && !AllConfirmed(w, sessionId, d) then w
      else
        var later := FinalizeUpload(w.db, sessionId, d, now).db;
        if Commits(w.db, sessionId, d) then
          w.(db := later, committed := w.committed[sessionId := d], pushed := if byPush then w.pushed + {sessionId} else w.pushed)
        else w.(db := later)
  }

  ghost function CollectStep(w: World, e: GcEvent): World {
    match e
    case GcStart(runId, node, dryRun) =>
      var reply := StartGcRun(w.db, runId, node, dryRun);
      if w.gc.Idle? then
        w.(db := reply.db,
           gc := if reply.result.Ok? && reply.result.value.open then Collecting(runId, node, dryRun, {}) else Idle)
      else w
    case GcClassify(page) =>
      if w.gc.Collecting? && w.gc.pending == {} && !w.gc.dryRun then
        var decisions := ClassifyGcChunks(w.db, w.gc.runId, page);
        if decisions.Ok?
        then w.(gc := w.gc.(pending := set i | 0 <= i < |page| && decisions.value[i] :: page[i])) else w
      else w
    case GcDelete(chunkId) =>
      if w.gc.Collecting? && chunkId in w.gc.pending
      then w.(disk := w.disk - {(w.gc.node, chunkId)}, gc := w.gc.(pending := w.gc.pending - {chunkId})) else w
    case GcComplete =>
      if w.gc.Collecting? && w.gc.pending == {}
      then w.(db := CompleteGcRun(w.db, w.gc.runId).db, gc := Idle) else w
    case GcCrash => w.(gc := Idle)
  }

  ghost function MaintainStep(db: Db, e: RunEvent): Db {
    match e
    case StartReplication(runId, versionId, replicationFactor) => StartReplicationRun(db, runId, versionId, replicationFactor).db
    case CompleteReplication(runId) => CompleteReplicationRun(db, runId).db
    case Retain(runId, policyId, apply, now) => RunLifecycle(db, runId, policyId, apply, now).db
  }

  ghost function Step(w: World, e: Event): World {
    match e
    case Catalog(change) => w.(db := CatalogStep(w.db, change))
    case Upload(upload) => UploadStep(w, upload)
    case Collect(collect) => CollectStep(w, collect)
    case Maintain(run) => w.(db := MaintainStep(w.db, run))
  }

  ghost function Exec(w: World, events: seq<Event>): World {
    if events == [] then w else Step(Exec(w, events[..|events| - 1]), events[|events| - 1])
  }

  function Start(hashing: Hashing): World {
    World(Initial(hashing), {}, Idle, {}, map[], {})
  }

  // ---------------------------------------------------------------------------------------------
  // The invariant
  // ---------------------------------------------------------------------------------------------

  /** A collecting engine's run is open and none of the chunks it is about to delete is live. */
  ghost predicate EngineOk(w: World) {
    w.gc.Collecting? ==>
      && w.gc.runId in w.db.gcRuns
      && w.db.gcRuns[w.gc.runId].open
      && w.db.gcRuns[w.gc.runId].node == w.gc.node
      && w.db.gcRuns[w.gc.runId].dryRun == w.gc.dryRun
      && (w.gc.dryRun ==> w.gc.pending == {})
      && forall c | c in w.gc.pending :: Collectible(w.db, c)
  }

  /** While a session is open, what its push confirmed is still there. */
  ghost predicate ConfirmationsOk(w: World) {
    forall s, c, n | (s, c, n) in w.confirmed ::
      s in w.db.sessions && (w.db.sessions[s].state.Open? ==> (n, c) in w.disk)
  }

  ghost predicate StillActive(db: Db, s: SessionId) {
    s in db.sessions && db.sessions[s].state.Committed? && db.sessions[s].state.versionId !in db.retired
  }

  /** A committed session keeps its version row and, until that version is retired, the very layout it
      was finalized with. */
  ghost predicate CommittedRowOk(db: Db, s: SessionId, d: Descriptor)
    requires s in db.sessions && db.sessions[s].state.Committed?
  {
    var v := db.sessions[s].state.versionId;
    var l := db.hashing.layoutId(d);
    && v == db.hashing.versionId(KeyOf(db.sessions[s], d))
    && v in db.versions && db.versions[v].key == KeyOf(db.sessions[s], d)
    && s in db.finalizations
    && (v !in db.retired ==> db.finalizations[s] == Some(l) && l in db.layouts && db.layouts[l] == d)
  }

  ghost predicate CommittedRowsOk(w: World) {
    forall s | s in w.db.sessions && w.db.sessions[s].state.Committed? ::
      s in w.committed && CommittedRowOk(w.db, s, w.committed[s])
  }

  /** Every chunk of the layout is on every node desired for it. */
  ghost predicate Durable(w: World, s: SessionId)
    requires s in w.db.sessions && s in w.committed
  {
    forall c, n | c in ChunkIds(w.committed[s]) && n in Desired(w.db, w.db.sessions[s], c) :: (n, c) in w.disk
  }

  ghost predicate PushesDurable(w: World) {
    forall s | s in w.pushed ::
      && s in w.db.sessions && w.db.sessions[s].state.Committed? && s in w.committed
      && (StillActive(w.db, s) ==> Durable(w, s))
  }

  ghost predicate Inv(w: World) {
    Valid(w.db) && EngineOk(w) && ConfirmationsOk(w) && CommittedRowsOk(w) && PushesDurable(w)
  }

  lemma StartSatisfiesInv(hashing: Hashing)
    ensures Inv(Start(hashing))
  {
    InitialIsValid(hashing);
  }

  // ---------------------------------------------------------------------------------------------
  // Every step keeps the invariant
  // ---------------------------------------------------------------------------------------------

  ghost predicate NoNewCommits(sessions: map<SessionId, UploadSession>, later: map<SessionId, UploadSession>) {
    forall s | s in later && later[s].state.Committed? :: s in sessions && sessions[s].state.Committed?
  }

  /** What the database part of a step guarantees; `gc` and `commit` say whether it may start or close
      GC runs, and whether it may commit sessions. */
  ghost predicate DbStepOk(db: Db, later: Db, gc: bool, commit: bool) {
    && Valid(later)
    && Evolves(db, later)
    && (!gc ==> later.gcRuns == db.gcRuns)
    && (!commit ==> NoNewCommits(db.sessions, later.sessions))
  }

  lemma PlainStep(db: Db, later: Db)
    requires Valid(later)
    requires later.hashing == db.hashing && SameLiveness(db, later) && later.gcRuns == db.gcRuns
    requires ReplicationsEvolve(db.replicationRuns, later.replicationRuns) && RowsKept(db.chunks, later.chunks)
    ensures DbStepOk(db, later, false, false)
  {
    OtherTablesEvolve(db, later);
  }

  lemma RegisterNodeStep(db: Db, node: NodeId, nodeState: NodeState)
    requires Valid(db)
    ensures DbStepOk(db, RegisterStorageNode(db, node, nodeState).db, false, false)
  {
    RegisterNodeOutcome(db, node, nodeState);
    RegisterNodeKeepsValid(db, node, nodeState);
    PlainStep(db, RegisterStorageNode(db, node, nodeState).db);
  }

  lemma NewArtifactStep(db: Db, artifactId: ArtifactId)
    requires Valid(db)
    ensures DbStepOk(db, CreateArtifact(db, artifactId).db, false, false)
  {
    CreateArtifactOutcome(db, artifactId);
    CreateArtifactKeepsValid(db, artifactId);
    PlainStep(db, CreateArtifact(db, artifactId).db);
  }

  lemma NewPolicyStep(db: Db, policyId: PolicyId, policy: Lifecycle.Policy)
    requires Valid(db)
    ensures DbStepOk(db, RegisterLifecyclePolicy(db, policyId, policy).db, false, false)
  {
    RegisterPolicyOutcome(db, policyId, policy);
    RegisterPolicyKeepsValid(db, policyId, policy);
    PlainStep(db, RegisterLifecyclePolicy(db, policyId, policy).db);
  }

  lemma RegisterLocationStep(db: Db, chunkId: ChunkId, node: NodeId, locationState: LocationState)
    requires Valid(db)
    ensures DbStepOk(db, RegisterStorageLocation(db, chunkId, node, locationState).db, false, false)
  {
    RegisterLocationOutcome(db, chunkId, node, locationState);
    RegisterLocationKeepsValid(db, chunkId, node, locationState);
    PlainStep(db, RegisterStorageLocation(db, chunkId, node, locationState).db);
  }

  lemma NegotiateStep(db: Db, sessionId: SessionId, batch: seq<ChunkMetadata>)
    requires Valid(db)
    ensures DbStepOk(db, NegotiateChunks(db, sessionId, batch).db, false, false)
  {
    NegotiateOutcome(db, sessionId, batch);
    NegotiateKeepsValid(db, sessionId, batch);
    PlainStep(db, NegotiateChunks(db, sessionId, batch).db);
  }

  lemma PinStep(db: Db, versionId: VersionId)
    requires Valid(db)
    ensures DbStepOk(db, PinVersion(db, versionId).db, false, false)
  {
    PinOutcome(db, versionId);
    PinKeepsValid(db, versionId);
    PlainStep(db, PinVersion(db, versionId).db);
  }

  lemma UnpinStep(db: Db, versionId: VersionId)
    requires Valid(db)
    ensures DbStepOk(db, UnpinVersion(db, versionId).db, false, false)
  {
    UnpinKeepsValid(db, versionId);
    PlainStep(db, UnpinVersion(db, versionId).db);
  }

  lemma TagStep(db: Db, artifactId: ArtifactId, name: string, versionId: VersionId)
    requires Valid(db)
    ensures DbStepOk(db, SetTag(db, artifactId, name, versionId).db, false, false)
  {
    SetTagOutcome(db, artifactId, name, versionId);
    SetTagKeepsValid(db, artifactId, name, versionId);
    PlainStep(db, SetTag(db, artifactId, name, versionId).db);
  }

  lemma NewManifestStep(db: Db, manifestId: ManifestId, entries: map<string, VersionId>)
    requires Valid(db)
    ensures DbStepOk(db, RegisterManifest(db, manifestId, entries).db, false, false)
  {
    RegisterManifestOutcome(db, manifestId, entries);
    RegisterManifestKeepsValid(db, manifestId, entries);
    PlainStep(db, RegisterManifest(db, manifestId, entries).db);
  }

  lemma StartReplicationStep(db: Db, runId: RunId, versionId: VersionId, replicationFactor: nat)
    requires Valid(db)
    ensures DbStepOk(db, StartReplicationRun(db, runId, versionId, replicationFactor).db, false, false)
  {
    StartReplicationOutcome(db, runId, versionId, replicationFactor);
    StartReplicationKeepsValid(db, runId, versionId, replicationFactor);
    PlainStep(db, StartReplicationRun(db, runId, versionId, replicationFactor).db);
  }

  lemma CompleteReplicationStep(db: Db, runId: RunId)
    requires Valid(db)
    ensures DbStepOk(db, CompleteReplicationRun(db, runId).db, false, false)
  {
    CompleteReplicationOutcome(db, runId);
    CompleteReplicationKeepsValid(db, runId);
    PlainStep(db, CompleteReplicationRun(db, runId).db);
  }

  lemma CreateSessionStep(db: Db, sessionId: SessionId, session: UploadSession)
    requires Valid(db)
    ensures DbStepOk(db, CreateUploadSession(db, sessionId, session).db, false, false)
  {
    CreateSessionOutcome(db, sessionId, session);
    CreateSessionKeepsValid(db, sessionId, session);
    CreateSessionEvolves(db, sessionId, session);
  }

  lemma AbortSessionStep(db: Db, sessionId: SessionId)
    requires Valid(db)
    ensures DbStepOk(db, AbortUploadSession(db, sessionId).db, false, false)
  {
    AbortOutcome(db, sessionId);
    AbortKeepsValid(db, sessionId);
    AbortEvolves(db, sessionId);
  }

  lemma FinalizeDbStep(db: Db, sessionId: SessionId, d: Descriptor, now: real)
    requires Valid(db)
    ensures DbStepOk(db, FinalizeUpload(db, sessionId, d, now).db, false, true)
  {
    FinalizeOutcome(db, sessionId, d, now);
    FinalizeKeepsValid(db, sessionId, d, now);
    FinalizeEvolves(db, sessionId, d, now);
  }

  lemma GcStartStep(db: Db, runId: RunId, node: NodeId, dryRun: bool)
    requires Valid(db)
    ensures DbStepOk(db, StartGcRun(db, runId, node, dryRun).db, true, false)
  {
    StartGcOutcome(db, runId, node, dryRun);
    StartGcKeepsValid(db, runId, node, dryRun);
    StartGcEvolves(db, runId, node, dryRun);
  }

  lemma GcCompleteStep(db: Db, runId: RunId)
    requires Valid(db)
    ensures DbStepOk(db, CompleteGcRun(db, runId).db, true, false)
  {
    CompleteGcOutcome(db, runId);
    CompleteGcKeepsValid(db, runId);
    CompleteGcEvolves(db, runId);
  }

  lemma RetainStep(db: Db, runId: RunId, policyId: PolicyId, apply: bool, now: real)
    requires Valid(db)
    ensures DbStepOk(db, RunLifecycle(db, runId, policyId, apply, now).db, false, false)
  {
    LifecycleOutcome(db, runId, policyId, apply, now);
    LifecycleKeepsValid(db, runId, policyId, apply, now);
    LifecycleEvolves(db, runId, policyId, apply, now);
  }

  lemma CatalogDbStep(db: Db, e: CatalogEvent)
    requires Valid(db)
    ensures DbStepOk(db, CatalogStep(db, e), false, false)
  {
    match e {
      case RegisterNode(node, nodeState) => RegisterNodeStep(db, node, nodeState);
      case NewArtifact(artifactId) => NewArtifactStep(db, artifactId);
      case RegisterLocation(chunkId, node, locationState) => RegisterLocationStep(db, chunkId, node, locationState);
      case NewPolicy(policyId, policy) => NewPolicyStep(db, policyId, policy);
      case Pin(versionId) => PinStep(db, versionId);
      case Unpin(versionId) => UnpinStep(db, versionId);
      case Tag(artifactId, name, versionId) => TagStep(db, artifactId, name, versionId);
      case NewManifest(manifestId, entries) => NewManifestStep(db, manifestId, entries);
    }
  }

  lemma MaintainDbStep(db: Db, e: RunEvent)
    requires Valid(db)
    ensures DbStepOk(db, MaintainStep(db, e), false, false)
  {
    match e {
      case StartReplication(runId, versionId, replicationFactor) => StartReplicationStep(db, runId, versionId, replicationFactor);
      case CompleteReplication(runId) => CompleteReplicationStep(db, runId);
      case Retain(runId, policyId, apply, now) => RetainStep(db, runId, policyId, apply, now);
    }
  }

  lemma UploadDbStep(w: World, e: UploadEvent)
    requires Valid(w.db)
    ensures DbStepOk(w.db, UploadStep(w, e).db, false, e.Finalize?)
  {
    match e {
      case CreateSession(sessionId, session) => CreateSessionStep(w.db, sessionId, session);
      case AbortSession(sessionId) => AbortSessionStep(w.db, sessionId);
      case Negotiate(sessionId, batch) => NegotiateStep(w.db, sessionId, batch);
      case Finalize(sessionId, descriptor, now, byPush) => FinalizeDbStep(w.db, sessionId, descriptor, now); IdleStep(w.db);
      case _ => IdleStep(w.db);
    }
  }

  lemma CollectDbStep(w: World, e: GcEvent)
    requires Valid(w.db)
    ensures DbStepOk(w.db, CollectStep(w, e).db, e.GcStart? || e.GcComplete?, false)
  {
    IdleStep(w.db);
    match e {
      case GcStart(runId, node, dryRun) => GcStartStep(w.db, runId, node, dryRun);
      case GcComplete =>
        if w.gc.Collecting? {
          GcCompleteStep(w.db, w.gc.runId);
        }
      case _ =>
    }
  }

  lemma IdleStep(db: Db)
    requires Valid(db)
    ensures DbStepOk(db, db, false, false)
  {
    PlainStep(db, db);
  }

  // ---------------------------------------------------------------------------------------------
  // The parts of the invariant
  // ---------------------------------------------------------------------------------------------

  /** The live set does not move while a GC run is open, so neither does what is collectible. */
  lemma CollectibleKept(db: Db, later: Db, c: ChunkId)
    requires Evolves(db, later) && GcOpen(db.gcRuns) && GcOpen(later.gcRuns)
    ensures Collectible(later, c) <==> Collectible(db, c)
    ensures forall l :: Live(later, l) <==> Live(db, l)
  {
  }

  lemma EngineKept(w: World, later: World)
    requires EngineOk(w) && Evolves(w.db, later.db)
    requires later.gc == w.gc && later.db.gcRuns == w.db.gcRuns
    ensures EngineOk(later)
  {
    if w.gc.Collecting? {
      assert GcOpen(w.db.gcRuns);
      forall c | c in w.gc.pending
        ensures Collectible(later.db, c)
      {
        CollectibleKept(w.db, later.db, c);
      }
    }
  }

  lemma ConfirmationsKept(w: World, later: World)
    requires ConfirmationsOk(w) && SessionsEvolve(w.db.sessions, later.db.sessions)
    requires w.disk <= later.disk
    requires forall s, c, n | (s, c, n) in later.confirmed - w.confirmed :: s in w.db.sessions && (n, c) in later.disk
    ensures ConfirmationsOk(later)
  {
    forall s, c, n | (s, c, n) in later.confirmed
      ensures s in later.db.sessions && (later.db.sessions[s].state.Open? ==> (n, c) in later.disk)
    {
      if (s, c, n) !in w.confirmed {
        assert (s, c, n) in later.confirmed - w.confirmed;
      }
    }
  }

  lemma CommittedKept(w: World, later: World)
    requires CommittedRowsOk(w) && Valid(later.db) && Evolves(w.db, later.db) && NoNewCommits(w.db.sessions, later.db.sessions)
    requires later.committed == w.committed
    ensures CommittedRowsOk(later)
  {
    forall s | s in later.db.sessions && later.db.sessions[s].state.Committed?
      ensures s in later.committed && CommittedRowOk(later.db, s, later.committed[s])
    {
      CommittedRowKept(w.db, later.db, s, w.committed[s]);
    }
  }

  lemma CommittedRowKept(db: Db, later: Db, s: SessionId, d: Descriptor)
    requires s in db.sessions && db.sessions[s].state.Committed?
    requires CommittedRowOk(db, s, d) && Valid(later) && Evolves(db, later)
    ensures s in later.sessions && later.sessions[s] == db.sessions[s] && CommittedRowOk(later, s, d)
  {
    assert SessionRowOk(later.sessions[s], FinalizationOf(later.finalizations, s), later.versions, later.retired, later.layouts);
  }

  /** Deleting a chunk that is not live cannot hurt a durable session. */
  lemma PushesKept(w: World, later: World)
    requires PushesDurable(w) && Evolves(w.db, later.db)
    requires later.committed == w.committed && later.pushed == w.pushed && w.disk <= later.disk
    ensures PushesDurable(later)
  {
    forall s | s in later.pushed && StillActive(later.db, s)
      ensures Durable(later, s)
    {
      assert StillActive(w.db, s) && Durable(w, s);
      assert later.db.sessions[s] == w.db.sessions[s];
    }
  }

  /** A step that neither commits a session, nor starts or closes a GC run, nor deletes a chunk. */
  lemma QuietStep(w: World, later: World)
    requires Inv(w) && DbStepOk(w.db, later.db, false, false)
    requires later.gc == w.gc && later.committed == w.committed && later.pushed == w.pushed && w.disk <= later.disk
    requires forall s, c, n | (s, c, n) in later.confirmed - w.confirmed :: s in w.db.sessions && (n, c) in later.disk
    ensures Inv(later)
  {
    EngineKept(w, later);
    ConfirmationsKept(w, later);
    CommittedKept(w, later);
    PushesKept(w, later);
  }

  // ---------------------------------------------------------------------------------------------
  // The steps that matter
  // ---------------------------------------------------------------------------------------------

  /** The world after the first finalization of a session. */
  ghost function AfterCommit(w: World, sessionId: SessionId, d: Descriptor, now: real, byPush: bool): World
    requires sessionId in w.db.sessions
  {
    w.(db := CommitUpload(w.db, sessionId, w.db.sessions[sessionId], d, now),
       committed := w.committed[sessionId := d],
       pushed := if byPush then w.pushed + {sessionId} else w.pushed)
  }

  lemma FinalizeStepOutcome(w: World, sessionId: SessionId, d: Descriptor, now: real, byPush: bool)
    ensures UploadStep(w, Finalize(sessionId, d, now, byPush)) ==
            if Commits(w.db, sessionId, d) && (byPush ==> AllConfirmed(w, sessionId, d))
            then AfterCommit(w, sessionId, d, now, byPush) else w
  {
    FinalizeOutcome(w.db, sessionId, d, now);
  }

  /** Committing a push makes its session durable: no chunk it confirmed can have been deleted, since
      no GC run was open while the session was. */
  lemma CommitKeepsInv(w: World, sessionId: SessionId, d: Descriptor, now: real, byPush: bool)
    requires Inv(w) && Commits(w.db, sessionId, d)
    requires byPush ==> AllConfirmed(w, sessionId, d)
    ensures Inv(AfterCommit(w, sessionId, d, now, byPush))
  {
    var later := AfterCommit(w, sessionId, d, now, byPush);
    CommitDbStep(w.db, sessionId, d, now);
    EngineKept(w, later);
    ConfirmationsKept(w, later);
    NewCommitRow(w.db, sessionId, d, now);
    CommittedAfterCommit(w, sessionId, d, later);
    PushesAfterCommit(w, sessionId, d, now, later);
  }

  lemma CommitDbStep(db: Db, sessionId: SessionId, d: Descriptor, now: real)
    requires Valid(db) && Commits(db, sessionId, d)
    ensures DbStepOk(db, CommitUpload(db, sessionId, db.sessions[sessionId], d, now), false, true)
  {
    CommitKeepsValid(db, sessionId, db.sessions[sessionId], d, now);
    CommitEvolves(db, sessionId, d, now);
  }

  lemma CommittedAfterCommit(w: World, sessionId: SessionId, d: Descriptor, later: World)
    requires CommittedRowsOk(w) && Valid(later.db) && Evolves(w.db, later.db)
    requires sessionId in later.db.sessions && later.db.sessions[sessionId].state.Committed?
    requires CommittedRowOk(later.db, sessionId, d)
    requires forall s | s in later.db.sessions && s != sessionId :: s in w.db.sessions && later.db.sessions[s] == w.db.sessions[s]
    requires later.committed == w.committed[sessionId := d]
    ensures CommittedRowsOk(later)
  {
    forall s | s in later.db.sessions && later.db.sessions[s].state.Committed? && s != sessionId
      ensures s in later.committed && CommittedRowOk(later.db, s, later.committed[s])
    {
      CommittedRowKept(w.db, later.db, s, w.committed[s]);
    }
  }

  lemma NewCommitRow(db: Db, sessionId: SessionId, d: Descriptor, now: real)
    requires Commits(db, sessionId, d)
    ensures var later := CommitUpload(db, sessionId, db.sessions[sessionId], d, now);
            later.sessions[sessionId].state.Committed? && CommittedRowOk(later, sessionId, d)
  {
  }

  lemma PushesAfterCommit(w: World, sessionId: SessionId, d: Descriptor, now: real, later: World)
    requires PushesDurable(w) && ConfirmationsOk(w) && Commits(w.db, sessionId, d)
    requires later.db == CommitUpload(w.db, sessionId, w.db.sessions[sessionId], d, now)
    requires later.committed == w.committed[sessionId := d] && later.disk == w.disk
    requires later.pushed == w.pushed || (later.pushed == w.pushed + {sessionId} && AllConfirmed(w, sessionId, d))
    ensures PushesDurable(later)
  {
    forall s | s in later.pushed
      ensures s in later.db.sessions && later.db.sessions[s].state.Committed? && s in later.committed
      ensures StillActive(later.db, s) ==> Durable(later, s)
    {
      if s == sessionId {
        assert s !in w.pushed;
        forall c, n | c in ChunkIds(d) && n in Desired(later.db, later.db.sessions[s], c)
          ensures (n, c) in later.disk
        {
          assert n in Desired(w.db, w.db.sessions[s], c);
          assert (s, c, n) in w.confirmed;
        }
      } else {
        assert StillActive(later.db, s) ==> Durable(w, s);
      }
    }
  }

  lemma HasChunkMeansListed(d: Descriptor, c: ChunkId)
    ensures c in ChunkIds(d) <==> HasChunk(d, c)
  {
  }

  lemma DeleteKeepsInv(w: World, c: ChunkId)
    requires Inv(w) && w.gc.Collecting? && c in w.gc.pending
    ensures Inv(CollectStep(w, GcDelete(c)))
  {
    var later := CollectStep(w, GcDelete(c));
    assert GcOpen(w.db.gcRuns);
    assert forall s | s in w.db.sessions :: !w.db.sessions[s].state.Open?;
    forall s | s in w.pushed && StillActive(w.db, s)
      ensures Durable(later, s)
    {
      var l := w.db.hashing.layoutId(w.committed[s]);
      assert FinalizedInUse(w.db.sessions, w.db.finalizations, w.db.retired, l);
      assert Live(w.db, l);
      HasChunkMeansListed(w.committed[s], c);
    }
  }

  /** A step that starts or closes GC runs: the engine must be accounted for anew, the rest is kept. */
  lemma GcStepKeepsRest(w: World, later: World)
    requires Inv(w) && DbStepOk(w.db, later.db, true, false)
    requires later.disk == w.disk && later.confirmed == w.confirmed && later.committed == w.committed && later.pushed == w.pushed
    ensures EngineOk(later) ==> Inv(later)
  {
    ConfirmationsKept(w, later);
    CommittedKept(w, later);
    PushesKept(w, later);
  }

  lemma GcStartKeepsInv(w: World, runId: RunId, node: NodeId, dryRun: bool)
    requires Inv(w)
    ensures Inv(CollectStep(w, GcStart(runId, node, dryRun)))
  {
    if w.gc.Idle? {
      var later := CollectStep(w, GcStart(runId, node, dryRun));
      GcStartStep(w.db, runId, node, dryRun);
      StartGcOutcome(w.db, runId, node, dryRun);
      GcStepKeepsRest(w, later);
    }
  }

  lemma GcClassifyKeepsInv(w: World, page: seq<ChunkId>)
    requires Inv(w)
    ensures Inv(CollectStep(w, GcClassify(page)))
  {
    if w.gc.Collecting? && w.gc.pending == {} && !w.gc.dryRun && ClassifyGcChunks(w.db, w.gc.runId, page).Ok? {
      var later := CollectStep(w, GcClassify(page));
      IdleStep(w.db);
      GcStepKeepsRest(w, later);
    }
  }

  lemma GcCompleteKeepsInv(w: World)
    requires Inv(w)
    ensures Inv(CollectStep(w, GcComplete))
  {
    if w.gc.Collecting? && w.gc.pending == {} {
      GcCompleteStep(w.db, w.gc.runId);
      GcStepKeepsRest(w, CollectStep(w, GcComplete));
    }
  }

  lemma GcCrashKeepsInv(w: World)
    requires Inv(w)
    ensures Inv(CollectStep(w, GcCrash))
  {
    IdleStep(w.db);
    GcStepKeepsRest(w, CollectStep(w, GcCrash));
  }

  lemma CollectKeepsInv(w: World, e: GcEvent)
    requires Inv(w)
    ensures Inv(CollectStep(w, e))
  {
    match e {
      case GcStart(runId, node, dryRun) => GcStartKeepsInv(w, runId, node, dryRun);
      case GcClassify(page) => GcClassifyKeepsInv(w, page);
      case GcDelete(chunkId) =>
        if w.gc.Collecting? && chunkId in w.gc.pending {
          DeleteKeepsInv(w, chunkId);
        }
      case GcComplete => GcCompleteKeepsInv(w);
      case GcCrash => GcCrashKeepsInv(w);
    }
  }

  lemma UploadKeepsInv(w: World, e: UploadEvent)
    requires Inv(w)
    ensures Inv(UploadStep(w, e))
  {
    if e.Finalize? {
      FinalizeStepOutcome(w, e.sessionId, e.descriptor, e.now, e.byPush);
      if Commits(w.db, e.sessionId, e.descriptor) && (e.byPush ==> AllConfirmed(w, e.sessionId, e.descriptor)) {
        CommitKeepsInv(w, e.sessionId, e.descriptor, e.now, e.byPush);
      }
    } else {
      UploadDbStep(w, e);
      QuietStep(w, UploadStep(w, e));
    }
  }

  lemma StepKeepsInv(w: World, e: Event)
    requires Inv(w)
    ensures Inv(Step(w, e))
  {
    match e {
      case Catalog(change) =>
        CatalogDbStep(w.db, change);
        QuietStep(w, Step(w, e));
      case Upload(upload) => UploadKeepsInv(w, upload);
      case Collect(collect) => CollectKeepsInv(w, collect);
      case Maintain(run) =>
        MaintainDbStep(w.db, run);
        QuietStep(w, Step(w, e));
    }
  }

  lemma StepEvolves(w: World, e: Event)
    requires Valid(w.db)
    ensures Valid(Step(w, e).db) && Evolves(w.db, Step(w, e).db)
  {
    match e {
      case Catalog(change) => CatalogDbStep(w.db, change);
      case Upload(upload) => UploadDbStep(w, upload);
      case Collect(collect) => CollectDbStep(w, collect);
      case Maintain(run) => MaintainDbStep(w.db, run);
    }
  }
}
