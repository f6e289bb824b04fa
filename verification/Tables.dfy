/** The metadata database: one map or set per table of the schema, and for every repository method
    the reply it gives and the tables it commits
    (src/metadata/postgres_metadata_repository.cpp, migrations/). */
module Tables {
  import opened Common
  import opened Ordering
  import opened ObjectLayouts
  import Placement
  import Lifecycle

  datatype SessionState = Open | Committed(versionId: VersionId) | Aborted

  datatype UploadSession = UploadSession(artifactId: ArtifactId, replicationFactor: nat, placement: seq<NodeId>,
                                         chunking: SessionChunking, parent: Option<VersionId>,
                                         metadata: map<string, string>, state: SessionState)

  /** What a version ID is the hash of. */
  datatype VersionKey = VersionKey(artifactId: ArtifactId, rootObjectId: ObjectId, parent: Option<VersionId>,
                                   metadata: map<string, string>)

  datatype Version = Version(key: VersionKey, createdAt: real)

  datatype LocationState = Available | Missing | Corrupt

  datatype NodeState = Active | Draining | Disabled

  datatype SweepStats = SweepStats(locations: nat, layouts: nat, objects: nat, chunkRows: nat)

  const NO_SWEEP := SweepStats(0, 0, 0, 0)

  datatype GcRun = GcRun(node: NodeId, dryRun: bool, open: bool, stats: SweepStats)

  datatype ReplicationRun = ReplicationRun(versionId: VersionId, layoutId: LayoutId, replicationFactor: nat,
                                           placement: seq<NodeId>, open: bool)

  datatype LifecycleRun = LifecycleRun(policyId: PolicyId, apply: bool, evaluatedAt: real)

  /** The content hashes the repository is built on. SHA-256 itself is not modelled. */
  datatype Hashing = Hashing(layoutId: Descriptor -> LayoutId, versionId: VersionKey -> VersionId,
                             digest: Placement.DigestFunction)

  datatype Db = Db(
    hashing: Hashing,
    nodes: map<NodeId, NodeState>,
    artifacts: set<ArtifactId>,
    sessions: map<SessionId, UploadSession>,
    // The finalized layout of a committed session; NULL once that layout has been deleted.
    finalizations: map<SessionId, Option<LayoutId>>,
    versions: map<VersionId, Version>,
    retired: set<VersionId>,
    pins: set<VersionId>,
    tags: map<(ArtifactId, string), VersionId>,
    manifests: map<ManifestId, map<string, VersionId>>,
    objects: map<ObjectId, nat>,
    // A layout row together with its chunk rows, which are inserted and deleted with it.
    layouts: map<LayoutId, Descriptor>,
    chunks: map<ChunkId, nat>,
    locations: map<(ChunkId, NodeId), LocationState>,
    gcRuns: map<RunId, GcRun>,
    replicationRuns: map<RunId, ReplicationRun>,
    policies: map<PolicyId, Lifecycle.Policy>,
    lifecycleRuns: map<RunId, LifecycleRun>)

  datatype Error =
    | InvalidArgument | ConstraintViolation | Conflict | SessionNotFound | SessionNotOpen | SessionMismatch
    | CannotAbort | VersionNotFound | VersionRetired | ChunkUnderReplicated | ChunkSizeConflict
    | GcInProgress | AnotherRunOpen | ReplicationInProgress | OpenUploadSessions | RunConflict | RunNotFound
    | RunNotOpen | SourceUnavailable | UnderReplicated | PolicyNotFound | PolicyConflict | InvalidArtifactKind
    | LayoutNotLoaded | TargetDisabled

  /** What a repository method returns, and the tables after it. A failed transaction is rolled back. */
  datatype Reply<+T> = Reply(db: Db, result: Result<T, Error>)

  function Fail<T>(db: Db, error: Error): Reply<T> {
    Reply(db, Err(error))
  }

  // ---------------------------------------------------------------------------------------------
  // Liveness of layouts
  // ---------------------------------------------------------------------------------------------

  /** First disjunct of the live-layout predicate: a version of the object is not retired. */
  predicate ObjectInUse(versions: map<VersionId, Version>, retired: set<VersionId>, objectId: ObjectId) {
    exists v :: v in versions && v !in retired && versions[v].key.rootObjectId == objectId
  }

  /** Second disjunct: a session finalized with this layout produced a version that is not retired. */
  predicate FinalizedInUse(sessions: map<SessionId, UploadSession>, finalizations: map<SessionId, Option<LayoutId>>,
                           retired: set<VersionId>, layoutId: LayoutId) {
    exists s :: && s in sessions && s in finalizations
                && finalizations[s] == Some(layoutId)
                && sessions[s].state.Committed?
                && sessions[s].state.versionId !in retired
  }

  predicate Live(db: Db, layoutId: LayoutId) {
    && layoutId in db.layouts
    && (|| ObjectInUse(db.versions, db.retired, db.layouts[layoutId].objectId)
        || FinalizedInUse(db.sessions, db.finalizations, db.retired, layoutId))
  }

  predicate HasChunk(d: Descriptor, chunkId: ChunkId) {
    exists i | 0 <= i < |d.chunks| :: d.chunks[i].chunkId == chunkId
  }

  predicate Referenced(db: Db, chunkId: ChunkId) {
    exists l :: l in db.layouts && HasChunk(db.layouts[l], chunkId)
  }

  /** A chunk may be deleted when no live layout contains it. */
  predicate Collectible(db: Db, chunkId: ChunkId) {
    forall l | l in db.layouts && HasChunk(db.layouts[l], chunkId) :: !Live(db, l)
  }

  // ---------------------------------------------------------------------------------------------
  // Open work
  // ---------------------------------------------------------------------------------------------

  predicate GcOpen(gcRuns: map<RunId, GcRun>) {
    exists r :: r in gcRuns && gcRuns[r].open
  }

  predicate ReplicationOpen(replicationRuns: map<RunId, ReplicationRun>) {
    exists r :: r in replicationRuns && replicationRuns[r].open
  }

  predicate UploadOpen(sessions: map<SessionId, UploadSession>) {
    exists s :: s in sessions && sessions[s].state.Open?
  }

  // ---------------------------------------------------------------------------------------------
  // Nodes, artifacts, chunks and locations
  // ---------------------------------------------------------------------------------------------

  function RegisterStorageNode(db: Db, nodeId: NodeId, state: NodeState): Reply<()> {
    if !Placement.IsNodeId(nodeId) then Fail(db, InvalidArgument)
    else Reply(db.(nodes := db.nodes[nodeId := state]), Ok(()))
  }

  function CreateArtifact(db: Db, artifactId: ArtifactId): Reply<()> {
    if artifactId in db.artifacts then Fail(db, ConstraintViolation)
    else Reply(db.(artifacts := db.artifacts + {artifactId}), Ok(()))
  }

  function RegisterStorageLocation(db: Db, chunkId: ChunkId, nodeId: NodeId, state: LocationState): Reply<()> {
    if nodeId == "" then Fail(db, InvalidArgument)
    else if chunkId !in db.chunks then Fail(db, ConstraintViolation)
    else Reply(db.(locations := db.locations[(chunkId, nodeId) := state]), Ok(()))
  }

  datatype ChunkMetadata = ChunkMetadata(chunkId: ChunkId, size: nat)

  predicate BatchSizesAgree(batch: seq<ChunkMetadata>) {
    forall i, j | 0 <= i < |batch| && 0 <= j < |batch| :: batch[i].chunkId == batch[j].chunkId ==> batch[i].size == batch[j].size
  }

  ghost function BatchSizes(batch: seq<ChunkMetadata>): map<ChunkId, nat> {
    if batch == [] then map[]
    else BatchSizes(batch[..|batch| - 1])[batch[|batch| - 1].chunkId := batch[|batch| - 1].size]
  }

  /** The negotiation route: the session must be open; then new chunk rows are inserted unless some
      stored size contradicts the batch, in which case nothing is. */
  ghost function NegotiateChunks(db: Db, sessionId: SessionId, batch: seq<ChunkMetadata>): Reply<()> {
    if sessionId !in db.sessions then Fail(db, SessionNotFound)
    else if !db.sessions[sessionId].state.Open? then Fail(db, SessionNotOpen)
    else if (exists i | 0 <= i < |batch| :: batch[i].size == 0) || !BatchSizesAgree(batch) then Fail(db, InvalidArgument)
    else if exists i | 0 <= i < |batch| :: batch[i].chunkId in db.chunks && db.chunks[batch[i].chunkId] != batch[i].size
      then Fail(db, ChunkSizeConflict)
    else Reply(db.(chunks := BatchSizes(batch) + db.chunks), Ok(()))
  }

  // ---------------------------------------------------------------------------------------------
  // Upload sessions
  // ---------------------------------------------------------------------------------------------

  predicate WellFormedSession(s: UploadSession) {
    && s.state.Open?
    && Placement.ValidReplication(s.placement, s.replicationFactor)
  }

  ghost function CreateUploadSession(db: Db, sessionId: SessionId, s: UploadSession): Reply<()> {
    if !WellFormedSession(s) then Fail(db, InvalidArgument)
    else if GcOpen(db.gcRuns) then Fail(db, GcInProgress)
    else if sessionId in db.sessions then
      if db.sessions[sessionId] == s then Reply(db, Ok(())) else Fail(db, SessionMismatch)
    else if exists n :: n in s.placement && !(n in db.nodes && db.nodes[n] == Active) then Fail(db, InvalidArgument)
    else if s.artifactId !in db.artifacts || !ParentExists(db, s) then Fail(db, ConstraintViolation)
    else Reply(db.(sessions := db.sessions[sessionId := s]), Ok(()))
  }

  /** The foreign key from a session to its parent version. */
  predicate ParentExists(db: Db, s: UploadSession) {
    s.parent.Some? ==> s.parent.value in db.versions && db.versions[s.parent.value].key.artifactId == s.artifactId
  }

  function AbortUploadSession(db: Db, sessionId: SessionId): Reply<()> {
    if sessionId !in db.sessions then Fail(db, SessionNotFound)
    else
      var s := db.sessions[sessionId];
      match s.state
      case Committed(_) => Fail(db, CannotAbort)
      case Aborted => Reply(db, Ok(()))
      case Open => Reply(db.(sessions := db.sessions[sessionId := s.(state := Aborted)]), Ok(()))
  }

  /** The replica nodes of a chunk in a session. */
  function Desired(db: Db, s: UploadSession, chunkId: ChunkId): seq<NodeId> {
    Placement.Select(db.hashing.digest, chunkId, s.placement, s.replicationFactor)
  }

  function SizeOf(chunks: seq<ChunkRef>, chunkId: ChunkId): nat
  {
    if chunks == [] then 0 else if chunks[0].chunkId == chunkId then chunks[0].size else SizeOf(chunks[1..], chunkId)
  }

  type Locations = map<(ChunkId, NodeId), LocationState>

  predicate AvailableIn(locations: Locations, chunkId: ChunkId, nodeId: NodeId) {
    (chunkId, nodeId) in locations && locations[(chunkId, nodeId)] == Available
  }

  predicate IsAvailable(db: Db, chunkId: ChunkId, nodeId: NodeId) {
    AvailableIn(db.locations, chunkId, nodeId)
  }

  predicate FullyReplicated(db: Db, s: UploadSession, chunkId: ChunkId) {
    var nodes := Desired(db, s, chunkId);
    forall i | 0 <= i < |nodes| :: IsAvailable(db, chunkId, nodes[i])
  }

  /** Checks the chunks in the order of their IDs and reports the first problem. */
  function FirstRefusal(db: Db, s: UploadSession, d: Descriptor, ids: seq<ChunkId>): Option<Error> {
    if ids == [] then None
    else if ids[0] !in db.chunks || db.chunks[ids[0]] != SizeOf(d.chunks, ids[0]) then Some(Conflict)
    else if !FullyReplicated(db, s, ids[0]) then Some(ChunkUnderReplicated)
    else FirstRefusal(db, s, d, ids[1..])
  }

  function ChunkIds(d: Descriptor): set<ChunkId> {
    set i | 0 <= i < |d.chunks| :: d.chunks[i].chunkId
  }

  function KeyOf(s: UploadSession, d: Descriptor): VersionKey {
    VersionKey(s.artifactId, d.objectId, s.parent, s.metadata)
  }

  datatype Finalized = Finalized(sessionId: SessionId, versionId: VersionId, objectId: ObjectId, layoutId: LayoutId)

  /** The tables after a first, successful finalization. */
  function CommitUpload(db: Db, sessionId: SessionId, s: UploadSession, d: Descriptor, now: real): Db {
    var versionId := db.hashing.versionId(KeyOf(s, d));
    var layoutId := db.hashing.layoutId(d);
    db.(objects := db.objects[d.objectId := d.totalSize],
        layouts := db.layouts[layoutId := d],
        versions := if versionId in db.versions then db.versions else db.versions[versionId := Version(KeyOf(s, d), now)],
        finalizations := db.finalizations[sessionId := Some(layoutId)],
        sessions := db.sessions[sessionId := s.(state := Committed(versionId))])
  }

  /** The checks of a retry on a committed session. */
  predicate RetryMatches(db: Db, sessionId: SessionId, s: UploadSession, d: Descriptor)
    requires s.state.Committed?
  {
    var versionId := db.hashing.versionId(KeyOf(s, d));
    var layoutId := db.hashing.layoutId(d);
    && sessionId in db.finalizations && db.finalizations[sessionId] == Some(layoutId)
    && s.state.versionId == versionId
    && d.objectId in db.objects && db.objects[d.objectId] == d.totalSize
    && layoutId in db.layouts && db.layouts[layoutId] == d
    && versionId in db.versions && db.versions[versionId].key == KeyOf(s, d)
  }

  /** Whether object and layout rows can be inserted, or are there already and agree. */
  predicate ObjectRowsCompatible(db: Db, d: Descriptor) {
    var layoutId := db.hashing.layoutId(d);
    && (d.objectId in db.objects ==> db.objects[d.objectId] == d.totalSize)
    && (layoutId in db.layouts ==> db.layouts[layoutId] == d)
  }

  /** Likewise for the version and the finalization record, which come after them. */
  predicate VersionRowsCompatible(db: Db, sessionId: SessionId, s: UploadSession, d: Descriptor) {
    var versionId := db.hashing.versionId(KeyOf(s, d));
    && (versionId in db.versions ==> db.versions[versionId].key == KeyOf(s, d))
    && sessionId !in db.finalizations
  }

  predicate RowsCompatible(db: Db, sessionId: SessionId, s: UploadSession, d: Descriptor) {
    ObjectRowsCompatible(db, d) && VersionRowsCompatible(db, sessionId, s, d)
  }

  /** When a first finalization of an open session passes its checks on the tables. */
  ghost predicate AcceptsUpload(db: Db, sessionId: SessionId, s: UploadSession, d: Descriptor) {
    && SizesAgree(d.chunks)
    && FirstRefusal(db, s, d, Enumeration(ChunkIds(d))).None?
    && RowsCompatible(db, sessionId, s, d)
  }

  ghost function FinalizeUpload(db: Db, sessionId: SessionId, d: Descriptor, now: real): Reply<Finalized> {
    if sessionId !in db.sessions then Fail(db, SessionNotFound)
    else
      var s := db.sessions[sessionId];
      var versionId := db.hashing.versionId(KeyOf(s, d));
      var result := Finalized(sessionId, versionId, d.objectId, db.hashing.layoutId(d));
      if s.state.Aborted? then Fail(db, SessionNotOpen)
      else if versionId in db.retired then Fail(db, VersionRetired)
      else if s.state.Committed? then
        if s.state.versionId in db.retired then Fail(db, VersionRetired)
        else if !RetryMatches(db, sessionId, s, d) then Fail(db, Conflict)
        else Reply(db, Ok(result))
      else if !ShapeMatches(s.chunking, d) then Fail(db, InvalidArgument)
      else if !SizesAgree(d.chunks) then Fail(db, Conflict)
      else
        var refusal := FirstRefusal(db, s, d, Enumeration(ChunkIds(d)));
        if refusal.Some? then Fail(db, refusal.value)
        else if !ObjectRowsCompatible(db, d) then Fail(db, Conflict)
        else if s.parent == Some(versionId) then Fail(db, ConstraintViolation)
        else if !VersionRowsCompatible(db, sessionId, s, d) then Fail(db, Conflict)
        else Reply(CommitUpload(db, sessionId, s, d, now), Ok(result))
  }

  // ---------------------------------------------------------------------------------------------
  // Garbage collection
  // ---------------------------------------------------------------------------------------------

  ghost function StartGcRun(db: Db, runId: RunId, node: NodeId, dryRun: bool): Reply<GcRun> {
    if !Placement.IsNodeId(node) then Fail(db, InvalidArgument)
    else if runId in db.gcRuns then
      var run := db.gcRuns[runId];
      if run.node == node && run.dryRun == dryRun then Reply(db, Ok(run)) else Fail(db, RunConflict)
    else if GcOpen(db.gcRuns) then Fail(db, AnotherRunOpen)
    else if ReplicationOpen(db.replicationRuns) then Fail(db, ReplicationInProgress)
    else if UploadOpen(db.sessions) then Fail(db, OpenUploadSessions)
    else
      var run := GcRun(node, dryRun, true, NO_SWEEP);
      Reply(db.(gcRuns := db.gcRuns[runId := run]), Ok(run))
  }

  ghost function ClassifyGcChunks(db: Db, runId: RunId, chunkIds: seq<ChunkId>): Result<seq<bool>, Error> {
    if !(1 <= |chunkIds| <= 256) || exists i, j | 0 <= i < j < |chunkIds| :: chunkIds[i] == chunkIds[j] then Err(InvalidArgument)
    else if runId !in db.gcRuns then Err(RunNotFound)
    else if !db.gcRuns[runId].open then Err(RunNotOpen)
    else Ok(seq(|chunkIds|, i requires 0 <= i < |chunkIds| => Collectible(db, chunkIds[i])))
  }

  function SweptLocations(db: Db, node: NodeId): set<(ChunkId, NodeId)> {
    set key | key in db.locations && key.1 == node && Collectible(db, key.0)
  }

  function DeadLayouts(db: Db): set<LayoutId> {
    set l | l in db.layouts && !Live(db, l)
  }

  function OrphanObjects(db: Db): set<ObjectId> {
    set o | && o in db.objects
            && (forall v | v in db.versions :: db.versions[v].key.rootObjectId != o)
            && (forall l | l in db.layouts :: db.layouts[l].objectId != o)
  }

  predicate Located(db: Db, chunkId: ChunkId) {
    exists key :: key in db.locations && key.0 == chunkId
  }

  function OrphanChunks(db: Db): set<ChunkId> {
    set c | c in db.chunks && !Referenced(db, c) && !Located(db, c)
  }

  ghost function WithoutLocations(db: Db, node: NodeId): Db {
    db.(locations := db.locations - SweptLocations(db, node))
  }

  /** Deleting a layout clears it from the finalization records (ON DELETE SET NULL). */
  function Cleared(finalizations: map<SessionId, Option<LayoutId>>, dead: set<LayoutId>): map<SessionId, Option<LayoutId>> {
    map s | s in finalizations :: if finalizations[s].Some? && finalizations[s].value in dead then None else finalizations[s]
  }

  ghost function WithoutDeadLayouts(db: Db): Db {
    db.(layouts := db.layouts - DeadLayouts(db), finalizations := Cleared(db.finalizations, DeadLayouts(db)))
  }

  ghost function WithoutOrphanObjects(db: Db): Db {
    db.(objects := db.objects - OrphanObjects(db))
  }

  ghost function WithoutOrphanChunks(db: Db): Db {
    db.(chunks := db.chunks - OrphanChunks(db))
  }

  /** The four deletions of a sweep, in order. */
  ghost function Sweep(db: Db, node: NodeId): Db {
    WithoutOrphanChunks(WithoutOrphanObjects(WithoutDeadLayouts(WithoutLocations(db, node))))
  }

  ghost function SweepCounts(db: Db, node: NodeId): SweepStats {
    var db1 := WithoutLocations(db, node);
    var db2 := WithoutDeadLayouts(db1);
    var db3 := WithoutOrphanObjects(db2);
    SweepStats(|SweptLocations(db, node)|, |DeadLayouts(db1)|, |OrphanObjects(db2)|, |OrphanChunks(db3)|)
  }

  ghost function DryRunCounts(db: Db, node: NodeId): SweepStats {
    SweepStats(|SweptLocations(db, node)|, |DeadLayouts(db)|, |OrphanObjects(db)|, |OrphanChunks(db)|)
  }

  /** Replication runs reference their layout with ON DELETE RESTRICT, whatever their state. */
  predicate DeletionRestricted(db: Db) {
    exists r :: r in db.replicationRuns && db.replicationRuns[r].layoutId in DeadLayouts(db)
  }

  ghost function CompleteGcRun(db: Db, runId: RunId): Reply<GcRun> {
    if runId !in db.gcRuns then Fail(db, RunNotFound)
    else
      var run := db.gcRuns[runId];
      if !run.open then Reply(db, Ok(run))
      else if UploadOpen(db.sessions) then Fail(db, OpenUploadSessions)
      else if run.dryRun then
        var completed := run.(open := false, stats := DryRunCounts(db, run.node));
        Reply(db.(gcRuns := db.gcRuns[runId := completed]), Ok(completed))
      else if DeletionRestricted(db) then Fail(db, ConstraintViolation)
      else
        var completed := run.(open := false, stats := SweepCounts(db, run.node));
        Reply(Sweep(db, run.node).(gcRuns := db.gcRuns[runId := completed]), Ok(completed))
  }

  // ---------------------------------------------------------------------------------------------
  // Replication
  // ---------------------------------------------------------------------------------------------

  predicate ReadableNode(db: Db, node: NodeId) {
    node in db.nodes && db.nodes[node] != Disabled
  }

  ghost predicate Restorable(db: Db, d: Descriptor) {
    forall c | c in ChunkIds(d) :: exists n :: IsAvailable(db, c, n) && ReadableNode(db, n)
  }

  ghost function RestorableLayouts(db: Db, objectId: ObjectId): set<LayoutId> {
    set l | l in db.layouts && db.layouts[l].objectId == objectId && Restorable(db, db.layouts[l])
  }

  ghost function ActiveNodes(db: Db): set<NodeId> {
    set n | n in db.nodes && db.nodes[n] == Active
  }

  ghost function StartReplicationRun(db: Db, runId: RunId, versionId: VersionId, replicationFactor: nat): Reply<ReplicationRun> {
    if !(1 <= replicationFactor <= Placement.MAX_REPLICATION) then Fail(db, InvalidArgument)
    else if GcOpen(db.gcRuns) then Fail(db, GcInProgress)
    else if runId in db.replicationRuns then
      var run := db.replicationRuns[runId];
      if run.versionId == versionId && run.replicationFactor == replicationFactor then Reply(db, Ok(run))
      else Fail(db, RunConflict)
    else if ReplicationOpen(db.replicationRuns) then Fail(db, AnotherRunOpen)
    else if versionId !in db.versions then Fail(db, VersionNotFound)
    else if versionId in db.retired then Fail(db, VersionRetired)
    else
      var layouts := Enumeration(RestorableLayouts(db, db.versions[versionId].key.rootObjectId));
      var active := Enumeration(ActiveNodes(db));
      if layouts == [] then Fail(db, SourceUnavailable)
      else if |active| > Placement.MAX_NODES || |active| < replicationFactor then Fail(db, SourceUnavailable)
      else
        var run := ReplicationRun(versionId, layouts[0], replicationFactor, active, true);
        Reply(db.(replicationRuns := db.replicationRuns[runId := run]), Ok(run))
  }

  /** What a repair has to do for one chunk of the layout: where it should be, and where it can be read. */
  datatype ChunkPlan = ChunkPlan(chunkId: ChunkId, size: nat, desired: seq<NodeId>, sources: seq<NodeId>)

  function SourcesOf(db: Db, chunkId: ChunkId): set<NodeId> {
    set key | key in db.locations && key.0 == chunkId && db.locations[key] == Available && ReadableNode(db, key.1) :: key.1
  }

  function Targets(db: Db, run: ReplicationRun, chunkId: ChunkId): seq<NodeId> {
    Placement.Select(db.hashing.digest, chunkId, run.placement, run.replicationFactor)
  }

  ghost function ChunkPlanOf(db: Db, run: ReplicationRun, chunk: ChunkRef): ChunkPlan {
    ChunkPlan(chunk.chunkId, chunk.size, Targets(db, run, chunk.chunkId), Enumeration(SourcesOf(db, chunk.chunkId)))
  }

  predicate TargetsReadable(db: Db, run: ReplicationRun, chunkId: ChunkId) {
    forall n | n in Targets(db, run, chunkId) :: ReadableNode(db, n)
  }

  /** One entry per chunk of the layout, repeated chunks included. */
  ghost function GetReplicationPlan(db: Db, runId: RunId): Result<seq<ChunkPlan>, Error> {
    if runId !in db.replicationRuns then Err(RunNotFound)
    else
      var run := db.replicationRuns[runId];
      if !run.open then Err(RunNotOpen)
      else if run.layoutId !in db.layouts then Err(LayoutNotLoaded)
      else
        var chunks := db.layouts[run.layoutId].chunks;
        if exists i | 0 <= i < |chunks| :: !TargetsReadable(db, run, chunks[i].chunkId) then Err(TargetDisabled)
        else Ok(seq(|chunks|, i requires 0 <= i < |chunks| => ChunkPlanOf(db, run, chunks[i])))
  }

  predicate ReplicasAvailable(db: Db, run: ReplicationRun, chunkId: ChunkId) {
    var nodes := Targets(db, run, chunkId);
    forall j | 0 <= j < |nodes| :: IsAvailable(db, chunkId, nodes[j])
  }

  /** Every chunk of the run's layout is available on every node the run wants it on. */
  predicate ReplicationSatisfied(db: Db, run: ReplicationRun, d: Descriptor) {
    forall i | 0 <= i < |d.chunks| :: ReplicasAvailable(db, run, d.chunks[i].chunkId)
  }

  ghost function CompleteReplicationRun(db: Db, runId: RunId): Reply<ReplicationRun> {
    if runId !in db.replicationRuns then Fail(db, RunNotFound)
    else
      var run := db.replicationRuns[runId];
      if !run.open then Reply(db, Ok(run))
      else if GcOpen(db.gcRuns) then Fail(db, GcInProgress)
      else if run.layoutId !in db.layouts then Fail(db, LayoutNotLoaded)
      else if !ReplicationSatisfied(db, run, db.layouts[run.layoutId]) then Fail(db, UnderReplicated)
      else
        var completed := run.(open := false);
        Reply(db.(replicationRuns := db.replicationRuns[runId := completed]), Ok(completed))
  }

  // ---------------------------------------------------------------------------------------------
  // Versions: pins, tags, manifests, lifecycle
  // ---------------------------------------------------------------------------------------------

  function PinVersion(db: Db, versionId: VersionId): Reply<()> {
    if versionId !in db.versions then Fail(db, VersionNotFound)
    else if versionId in db.retired then Fail(db, VersionRetired)
    else Reply(db.(pins := db.pins + {versionId}), Ok(()))
  }

  function UnpinVersion(db: Db, versionId: VersionId): Reply<bool> {
    Reply(db.(pins := db.pins - {versionId}), Ok(versionId in db.pins))
  }

  function SetTag(db: Db, artifactId: ArtifactId, name: string, versionId: VersionId): Reply<()> {
    if name == "" then Fail(db, InvalidArgument)
    else if versionId in db.retired then Fail(db, VersionRetired)
    else if versionId !in db.versions || db.versions[versionId].key.artifactId != artifactId then Fail(db, ConstraintViolation)
    else Reply(db.(tags := db.tags[(artifactId, name) := versionId]), Ok(()))
  }

  /** `entries` maps roles to versions; a manifest that is already there must be the same. */
  function RegisterManifest(db: Db, manifestId: ManifestId, entries: map<string, VersionId>): Reply<()> {
    if exists role :: role in entries && entries[role] in db.retired then Fail(db, VersionRetired)
    else if manifestId in db.manifests then
      if db.manifests[manifestId] == entries then Reply(db, Ok(())) else Fail(db, Conflict)
    else if exists role :: role in entries && entries[role] !in db.versions then Fail(db, ConstraintViolation)
    else Reply(db.(manifests := db.manifests[manifestId := entries]), Ok(()))
  }

  ghost function RegisterLifecyclePolicy(db: Db, policyId: PolicyId, policy: Lifecycle.Policy): Reply<()> {
    if !Lifecycle.ValidPolicy(policy) then Fail(db, InvalidArgument)
    else if policyId in db.policies then
      if db.policies[policyId] == policy then Reply(db, Ok(())) else Fail(db, PolicyConflict)
    else Reply(db.(policies := db.policies[policyId := policy]), Ok(()))
  }

  predicate ManifestReferences(db: Db, versionId: VersionId) {
    exists m :: m in db.manifests && versionId in db.manifests[m].Values
  }

  /** The row a lifecycle run reads for a version. */
  function CandidateOf(db: Db, versionId: VersionId, kind: Lifecycle.ArtifactKind): Lifecycle.Candidate
    requires versionId in db.versions
  {
    var version := db.versions[versionId];
    var objectId := version.key.rootObjectId;
    Lifecycle.Candidate(versionId, version.key.artifactId, kind, version.createdAt,
                        if objectId in db.objects then db.objects[objectId] else 0,
                        versionId in db.pins, versionId in db.tags.Values, ManifestReferences(db, versionId))
  }

  /** The versions the query of `run_lifecycle` returns. */
  function ScannedVersions(db: Db): set<VersionId> {
    set v | v in db.versions && v !in db.retired && db.versions[v].key.rootObjectId in db.objects
  }

  predicate KindsValid(db: Db) {
    forall v | v in ScannedVersions(db) :: Lifecycle.ResolveKind(db.versions[v].key.metadata).Some?
  }

  function Candidates(db: Db): set<Lifecycle.Candidate>
    requires KindsValid(db)
  {
    set v | v in ScannedVersions(db) :: CandidateOf(db, v, Lifecycle.ResolveKind(db.versions[v].key.metadata).value)
  }

  function RetiredBy(db: Db, policy: Lifecycle.Policy, now: real): set<VersionId>
    requires KindsValid(db)
  {
    set c | c in Lifecycle.RetireSet(policy, now, Candidates(db)) :: c.versionId
  }

  ghost function RunLifecycle(db: Db, runId: RunId, policyId: PolicyId, apply: bool, now: real): Reply<LifecycleRun> {
    if runId in db.lifecycleRuns then
      var run := db.lifecycleRuns[runId];
      if run.policyId == policyId && run.apply == apply then Reply(db, Ok(run)) else Fail(db, RunConflict)
    else if UploadOpen(db.sessions) then Fail(db, OpenUploadSessions)
    else if GcOpen(db.gcRuns) then Fail(db, GcInProgress)
    else if ReplicationOpen(db.replicationRuns) then Fail(db, ReplicationInProgress)
    else if policyId !in db.policies then Fail(db, PolicyNotFound)
    else if !KindsValid(db) then Fail(db, InvalidArtifactKind)
    else
      var run := LifecycleRun(policyId, apply, now);
      var retired := if apply then RetiredBy(db, db.policies[policyId], now) else {};
      Reply(db.(lifecycleRuns := db.lifecycleRuns[runId := run], retired := db.retired + retired), Ok(run))
  }
}
