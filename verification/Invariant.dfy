/** The invariant of the metadata database, and that every repository method keeps it. */
module Invariant {
  import opened Common
  import opened Ordering
  import opened ObjectLayouts
  import opened Tables
  import opened Outcomes
  import Placement
  import Lifecycle

  /** At most one GC run and one replication run is open, and an open GC run excludes open upload
      sessions and open replication runs. */
  ghost predicate Exclusive(gcRuns: map<RunId, GcRun>, replicationRuns: map<RunId, ReplicationRun>, sessions: map<SessionId, UploadSession>) {
    && (forall r, q | r in gcRuns && q in gcRuns :: gcRuns[r].open && gcRuns[q].open ==> r == q)
    && (forall r, q | r in replicationRuns && q in replicationRuns :: replicationRuns[r].open && replicationRuns[q].open ==> r == q)
    && (GcOpen(gcRuns) ==> !UploadOpen(sessions) && !ReplicationOpen(replicationRuns))
  }

  /** A layout row has its ID, its object with the right size, and a chunk row per chunk. */
  ghost predicate LayoutRowOk(hashing: Hashing, objects: map<ObjectId, nat>, chunks: map<ChunkId, nat>, l: LayoutId, d: Descriptor) {
    && hashing.layoutId(d) == l
    && d.objectId in objects && objects[d.objectId] == d.totalSize
    && forall i | 0 <= i < |d.chunks| :: d.chunks[i].chunkId in chunks && chunks[d.chunks[i].chunkId] == d.chunks[i].size
  }

  ghost predicate LayoutsOk(hashing: Hashing, objects: map<ObjectId, nat>, chunks: map<ChunkId, nat>, layouts: map<LayoutId, Descriptor>) {
    forall l | l in layouts :: LayoutRowOk(hashing, objects, chunks, l, layouts[l])
  }

  ghost predicate VersionsOk(hashing: Hashing, objects: map<ObjectId, nat>, versions: map<VersionId, Version>) {
    forall v | v in versions :: hashing.versionId(versions[v].key) == v && versions[v].key.rootObjectId in objects
  }

  ghost predicate LocationsOk(locations: map<(ChunkId, NodeId), LocationState>, chunks: map<ChunkId, nat>) {
    forall key | key in locations :: key.0 in chunks
  }

  ghost predicate NodesOk(nodes: map<NodeId, NodeState>) {
    forall n | n in nodes :: Placement.IsNodeId(n)
  }

  /** A replication run names a layout of the object of its version, and a placement that selects. */
  ghost predicate RunsOk(replicationRuns: map<RunId, ReplicationRun>, layouts: map<LayoutId, Descriptor>, versions: map<VersionId, Version>) {
    forall r | r in replicationRuns ::
      && replicationRuns[r].layoutId in layouts && replicationRuns[r].versionId in versions
      && layouts[replicationRuns[r].layoutId].objectId == versions[replicationRuns[r].versionId].key.rootObjectId
      && Placement.ValidReplication(replicationRuns[r].placement, replicationRuns[r].replicationFactor)
  }

  ghost predicate VersionPointersOk(retired: set<VersionId>, pins: set<VersionId>, tags: map<(ArtifactId, string), VersionId>,
                                    manifests: map<ManifestId, map<string, VersionId>>, versions: map<VersionId, Version>) {
    && retired <= versions.Keys
    && pins <= versions.Keys
    && (forall t | t in tags :: tags[t] in versions)
    && (forall m, role | m in manifests && role in manifests[m] :: manifests[m][role] in versions)
  }

  /** A committed session points to its version, and to its layout until the version is retired. */
  ghost predicate SessionRowOk(session: UploadSession, finalization: Option<Option<LayoutId>>, versions: map<VersionId, Version>,
                               retired: set<VersionId>, layouts: map<LayoutId, Descriptor>) {
    && Placement.ValidReplication(session.placement, session.replicationFactor)
    && match session.state
       case Open => finalization == None
       case Aborted => finalization == None
       case Committed(v) =>
         && v in versions
         && versions[v].key == VersionKey(session.artifactId, versions[v].key.rootObjectId, session.parent, session.metadata)
         && finalization.Some?
         && (finalization.value.Some? ==> finalization.value.value in layouts)
         && (v !in retired ==>
               && finalization.value.Some?
               && layouts[finalization.value.value].objectId == versions[v].key.rootObjectId)
  }

  function FinalizationOf(finalizations: map<SessionId, Option<LayoutId>>, s: SessionId): Option<Option<LayoutId>> {
    if s in finalizations then Some(finalizations[s]) else None
  }

  ghost predicate SessionsOk(sessions: map<SessionId, UploadSession>, finalizations: map<SessionId, Option<LayoutId>>,
                             versions: map<VersionId, Version>, retired: set<VersionId>, layouts: map<LayoutId, Descriptor>) {
    && (forall s | s in sessions :: SessionRowOk(sessions[s], FinalizationOf(finalizations, s), versions, retired, layouts))
    && finalizations.Keys <= sessions.Keys
  }

  /** Retired versions are not pinned, tagged, referenced by a manifest or being replicated. */
  ghost predicate RetirementTerminal(retired: set<VersionId>, pins: set<VersionId>, tags: map<(ArtifactId, string), VersionId>,
                                     manifests: map<ManifestId, map<string, VersionId>>, replicationRuns: map<RunId, ReplicationRun>) {
    && retired !! pins
    && (forall t | t in tags :: tags[t] !in retired)
    && (forall m, role | m in manifests && role in manifests[m] :: manifests[m][role] !in retired)
    && (forall r | r in replicationRuns && replicationRuns[r].open :: replicationRuns[r].versionId !in retired)
  }

  ghost predicate Valid(db: Db) {
    && Exclusive(db.gcRuns, db.replicationRuns, db.sessions)
    && NodesOk(db.nodes)
    && LayoutsOk(db.hashing, db.objects, db.chunks, db.layouts)
    && VersionsOk(db.hashing, db.objects, db.versions)
    && LocationsOk(db.locations, db.chunks)
    && RunsOk(db.replicationRuns, db.layouts, db.versions)
    && VersionPointersOk(db.retired, db.pins, db.tags, db.manifests, db.versions)
    && SessionsOk(db.sessions, db.finalizations, db.versions, db.retired, db.layouts)
    && RetirementTerminal(db.retired, db.pins, db.tags, db.manifests, db.replicationRuns)
  }

  /** An empty database. */
  function Initial(hashing: Hashing): Db {
    Db(hashing, map[], {}, map[], map[], map[], {}, {}, map[], map[], map[], map[], map[], map[], map[], map[], map[], map[])
  }

  lemma InitialIsValid(hashing: Hashing)
    ensures Valid(Initial(hashing))
  {
  }

  /** In a valid database a layout is live exactly when some version of its object is not retired: the
      second disjunct of the live-layout predicate never adds a layout. */
  lemma LiveIffObjectInUse(db: Db, l: LayoutId)
    requires Valid(db)
    ensures Live(db, l) <==> l in db.layouts && ObjectInUse(db.versions, db.retired, db.layouts[l].objectId)
  {
    if l in db.layouts && FinalizedInUse(db.sessions, db.finalizations, db.retired, l) {
      var s :| && s in db.sessions && s in db.finalizations && db.finalizations[s] == Some(l)
               && db.sessions[s].state.Committed? && db.sessions[s].state.versionId !in db.retired;
      assert SessionRowOk(db.sessions[s], FinalizationOf(db.finalizations, s), db.versions, db.retired, db.layouts);
    }
  }

  lemma RegisterNodeKeepsValid(db: Db, nodeId: NodeId, state: NodeState)
    requires Valid(db)
    ensures Valid(RegisterStorageNode(db, nodeId, state).db)
  {
    RegisterNodeOutcome(db, nodeId, state);
  }

  lemma CreateArtifactKeepsValid(db: Db, artifactId: ArtifactId)
    requires Valid(db)
    ensures Valid(CreateArtifact(db, artifactId).db)
  {
    CreateArtifactOutcome(db, artifactId);
  }

  lemma RegisterPolicyKeepsValid(db: Db, policyId: PolicyId, policy: Lifecycle.Policy)
    requires Valid(db)
    ensures Valid(RegisterLifecyclePolicy(db, policyId, policy).db)
  {
    RegisterPolicyOutcome(db, policyId, policy);
  }

  lemma RegisterLocationKeepsValid(db: Db, chunkId: ChunkId, nodeId: NodeId, state: LocationState)
    requires Valid(db)
    ensures Valid(RegisterStorageLocation(db, chunkId, nodeId, state).db)
  {
    RegisterLocationOutcome(db, chunkId, nodeId, state);
  }

  lemma PinKeepsValid(db: Db, versionId: VersionId)
    requires Valid(db)
    ensures Valid(PinVersion(db, versionId).db)
  {
    PinOutcome(db, versionId);
  }

  lemma UnpinKeepsValid(db: Db, versionId: VersionId)
    requires Valid(db)
    ensures Valid(UnpinVersion(db, versionId).db)
  {
  }

  lemma SetTagKeepsValid(db: Db, artifactId: ArtifactId, name: string, versionId: VersionId)
    requires Valid(db)
    ensures Valid(SetTag(db, artifactId, name, versionId).db)
  {
    SetTagOutcome(db, artifactId, name, versionId);
  }

  lemma RegisterManifestKeepsValid(db: Db, manifestId: ManifestId, entries: map<string, VersionId>)
    requires Valid(db)
    ensures Valid(RegisterManifest(db, manifestId, entries).db)
  {
    RegisterManifestOutcome(db, manifestId, entries);
    var later := RegisterManifest(db, manifestId, entries).db;
    assert VersionPointersOk(later.retired, later.pins, later.tags, later.manifests, later.versions);
    assert RetirementTerminal(later.retired, later.pins, later.tags, later.manifests, later.replicationRuns);
  }

  /** New chunk rows never displace old ones. */
  lemma NegotiateKeepsValid(db: Db, sessionId: SessionId, batch: seq<ChunkMetadata>)
    requires Valid(db)
    ensures Valid(NegotiateChunks(db, sessionId, batch).db)
  {
    NegotiateOutcome(db, sessionId, batch);
    MoreChunksOk(db, BatchSizes(batch) + db.chunks);
  }

  lemma MoreChunksOk(db: Db, chunks: map<ChunkId, nat>)
    requires LayoutsOk(db.hashing, db.objects, db.chunks, db.layouts) && LocationsOk(db.locations, db.chunks)
    requires forall c | c in db.chunks :: c in chunks && chunks[c] == db.chunks[c]
    ensures LayoutsOk(db.hashing, db.objects, chunks, db.layouts) && LocationsOk(db.locations, chunks)
  {
    forall l | l in db.layouts
      ensures LayoutRowOk(db.hashing, db.objects, chunks, l, db.layouts[l])
    {
      assert LayoutRowOk(db.hashing, db.objects, db.chunks, l, db.layouts[l]);
    }
  }

  lemma CreateSessionKeepsValid(db: Db, sessionId: SessionId, s: UploadSession)
    requires Valid(db)
    ensures Valid(CreateUploadSession(db, sessionId, s).db)
  {
    CreateSessionOutcome(db, sessionId, s);
    if sessionId !in db.sessions && WellFormedSession(s) {
      NewSessionOk(db, sessionId, s);
    }
  }

  lemma NewSessionOk(db: Db, sessionId: SessionId, s: UploadSession)
    requires Valid(db) && sessionId !in db.sessions && WellFormedSession(s)
    ensures SessionsOk(db.sessions[sessionId := s], db.finalizations, db.versions, db.retired, db.layouts)
  {
    forall q | q in db.sessions
      ensures SessionRowOk(db.sessions[q], FinalizationOf(db.finalizations, q), db.versions, db.retired, db.layouts)
    {
    }
  }

  lemma AbortKeepsValid(db: Db, sessionId: SessionId)
    requires Valid(db)
    ensures Valid(AbortUploadSession(db, sessionId).db)
  {
    AbortOutcome(db, sessionId);
    if sessionId in db.sessions && db.sessions[sessionId].state.Open? {
      AbortedSessionOk(db, sessionId);
    }
  }

  lemma AbortedSessionOk(db: Db, sessionId: SessionId)
    requires Valid(db) && sessionId in db.sessions && db.sessions[sessionId].state.Open?
    ensures var sessions := db.sessions[sessionId := db.sessions[sessionId].(state := Aborted)];
            && SessionsOk(sessions, db.finalizations, db.versions, db.retired, db.layouts)
            && Exclusive(db.gcRuns, db.replicationRuns, sessions)
  {
    assert SessionRowOk(db.sessions[sessionId], FinalizationOf(db.finalizations, sessionId), db.versions, db.retired, db.layouts);
    assert UploadOpen(db.sessions);
  }

  lemma StartGcKeepsValid(db: Db, runId: RunId, node: NodeId, dryRun: bool)
    requires Valid(db)
    ensures Valid(StartGcRun(db, runId, node, dryRun).db)
  {
    StartGcOutcome(db, runId, node, dryRun);
    if runId !in db.gcRuns && !GcOpen(db.gcRuns) && !ReplicationOpen(db.replicationRuns) && !UploadOpen(db.sessions) {
      OnlyGcOpen(db, runId, GcRun(node, dryRun, true, NO_SWEEP));
    }
  }

  lemma OnlyGcOpen(db: Db, runId: RunId, run: GcRun)
    requires Exclusive(db.gcRuns, db.replicationRuns, db.sessions)
    requires !GcOpen(db.gcRuns) && !ReplicationOpen(db.replicationRuns) && !UploadOpen(db.sessions)
    ensures Exclusive(db.gcRuns[runId := run], db.replicationRuns, db.sessions)
  {
    var runs := db.gcRuns[runId := run];
    assert forall r | r in runs && runs[r].open :: r == runId;
  }

  lemma StartReplicationKeepsValid(db: Db, runId: RunId, versionId: VersionId, replicationFactor: nat)
    requires Valid(db)
    ensures Valid(StartReplicationRun(db, runId, versionId, replicationFactor).db)
  {
    StartReplicationOutcome(db, runId, versionId, replicationFactor);
    var reply := StartReplicationRun(db, runId, versionId, replicationFactor);
    if reply.db != db {
      ActiveNodesArePlacement(db, replicationFactor);
      NewReplicationOk(db, runId, reply.result.value);
    }
  }

  /** The active nodes, listed in the order of their IDs, are a placement if there are enough of them. */
  lemma ActiveNodesArePlacement(db: Db, replicationFactor: nat)
    requires NodesOk(db.nodes) && 1 <= replicationFactor <= Placement.MAX_REPLICATION
    requires replicationFactor <= |Enumeration(ActiveNodes(db))| <= Placement.MAX_NODES
    ensures Placement.ValidReplication(Enumeration(ActiveNodes(db)), replicationFactor)
  {
    var nodes := Enumeration(ActiveNodes(db));
    forall i | 0 <= i < |nodes|
      ensures Placement.IsNodeId(nodes[i])
    {
      assert nodes[i] in Elements(nodes);
    }
  }

  lemma NewReplicationOk(db: Db, runId: RunId, run: ReplicationRun)
    requires Valid(db) && !GcOpen(db.gcRuns) && !ReplicationOpen(db.replicationRuns)
    requires run.layoutId in db.layouts && run.versionId in db.versions && run.versionId !in db.retired
    requires db.layouts[run.layoutId].objectId == db.versions[run.versionId].key.rootObjectId
    requires Placement.ValidReplication(run.placement, run.replicationFactor)
    ensures var runs := db.replicationRuns[runId := run];
            && Exclusive(db.gcRuns, runs, db.sessions)
            && RunsOk(runs, db.layouts, db.versions)
            && RetirementTerminal(db.retired, db.pins, db.tags, db.manifests, runs)
  {
    var runs := db.replicationRuns[runId := run];
    assert forall r | r in runs && runs[r].open :: r == runId;
  }

  lemma CompleteReplicationKeepsValid(db: Db, runId: RunId)
    requires Valid(db)
    ensures Valid(CompleteReplicationRun(db, runId).db)
  {
    CompleteReplicationOutcome(db, runId);
    if runId in db.replicationRuns {
      ClosedReplicationOk(db, runId);
    }
  }

  lemma ClosedReplicationOk(db: Db, runId: RunId)
    requires Valid(db) && runId in db.replicationRuns
    ensures var runs := db.replicationRuns[runId := db.replicationRuns[runId].(open := false)];
            && Exclusive(db.gcRuns, runs, db.sessions)
            && RunsOk(runs, db.layouts, db.versions)
            && RetirementTerminal(db.retired, db.pins, db.tags, db.manifests, runs)
  {
    var runs := db.replicationRuns[runId := db.replicationRuns[runId].(open := false)];
    assert ReplicationOpen(runs) ==> ReplicationOpen(db.replicationRuns);
  }

  lemma LifecycleKeepsValid(db: Db, runId: RunId, policyId: PolicyId, apply: bool, now: real)
    requires Valid(db)
    ensures Valid(RunLifecycle(db, runId, policyId, apply, now).db)
  {
    LifecycleOutcome(db, runId, policyId, apply, now);
    if KindsValid(db) && policyId in db.policies && !ReplicationOpen(db.replicationRuns) {
      var retired := if apply then RetiredBy(db, db.policies[policyId], now) else {};
      if apply {
        RetiredVersionsAreFree(db, db.policies[policyId], now);
      }
      RetirementsOk(db, retired);
    }
  }

  /** What a lifecycle run retires exists and is neither pinned, tagged nor referenced. */
  lemma RetiredVersionsAreFree(db: Db, policy: Lifecycle.Policy, now: real)
    requires KindsValid(db)
    ensures forall v | v in RetiredBy(db, policy, now) ::
              && v in db.versions && v !in db.retired && v !in db.pins && v !in db.tags.Values && !ManifestReferences(db, v)
  {
    forall v | v in RetiredBy(db, policy, now)
      ensures v in db.versions && v !in db.retired && v !in db.pins && v !in db.tags.Values && !ManifestReferences(db, v)
    {
      var c :| c in Lifecycle.RetireSet(policy, now, Candidates(db)) && c.versionId == v;
      Lifecycle.RetentionGuarantee(policy, now, Candidates(db), c);
    }
  }

  /** A pin, a tag or an entry of a manifest protects its version from every lifecycle run. */
  lemma ProtectedFromRetirement(db: Db, v: VersionId)
    requires v in db.pins || v in db.tags.Values || ManifestReferences(db, v)
    ensures ProtectedVersion(db, v)
  {
    forall policy, now | KindsValid(db)
      ensures v !in RetiredBy(db, policy, now)
    {
      RetiredVersionsAreFree(db, policy, now);
    }
  }

  /** No policy retires the version, at any time. */
  ghost predicate ProtectedVersion(db: Db, v: VersionId) {
    KindsValid(db) ==> forall policy, now :: v !in RetiredBy(db, policy, now)
  }

  lemma RetirementsOk(db: Db, more: set<VersionId>)
    requires Valid(db) && !ReplicationOpen(db.replicationRuns)
    requires forall v | v in more :: v in db.versions && v !in db.pins && v !in db.tags.Values && !ManifestReferences(db, v)
    ensures var retired := db.retired + more;
            && VersionPointersOk(retired, db.pins, db.tags, db.manifests, db.versions)
            && SessionsOk(db.sessions, db.finalizations, db.versions, retired, db.layouts)
            && RetirementTerminal(retired, db.pins, db.tags, db.manifests, db.replicationRuns)
  {
    forall m, role | m in db.manifests && role in db.manifests[m]
      ensures db.manifests[m][role] !in more
    {
      assert db.manifests[m][role] in db.manifests[m].Values;
    }
    forall t | t in db.tags
      ensures db.tags[t] !in more
    {
      assert db.tags[t] in db.tags.Values;
    }
    forall s | s in db.sessions
      ensures SessionRowOk(db.sessions[s], FinalizationOf(db.finalizations, s), db.versions, db.retired + more, db.layouts)
    {
      assert SessionRowOk(db.sessions[s], FinalizationOf(db.finalizations, s), db.versions, db.retired, db.layouts);
    }
  }

  lemma {:induction false} NoRefusal(db: Db, s: UploadSession, d: Descriptor, ids: seq<ChunkId>)
    ensures FirstRefusal(db, s, d, ids).None? <==>
            forall i | 0 <= i < |ids| ::
              ids[i] in db.chunks && db.chunks[ids[i]] == SizeOf(d.chunks, ids[i]) && FullyReplicated(db, s, ids[i])
  {
    if ids != [] {
      NoRefusal(db, s, d, ids[1..]);
      assert forall i | 0 < i < |ids| :: ids[i] == ids[1..][i - 1];
    }
  }

  lemma {:induction false} SizeOfFirst(chunks: seq<ChunkRef>, i: nat)
    requires i < |chunks| && SizesAgree(chunks)
    ensures SizeOf(chunks, chunks[i].chunkId) == chunks[i].size
  {
    if i > 0 && chunks[0].chunkId != chunks[i].chunkId {
      assert SizesAgree(chunks[1..]) by {
        forall j, k | 0 <= j < |chunks| - 1 && 0 <= k < |chunks| - 1 && chunks[1..][j].chunkId == chunks[1..][k].chunkId
          ensures chunks[1..][j].size == chunks[1..][k].size
        {
          assert chunks[j + 1].chunkId == chunks[k + 1].chunkId;
        }
      }
      SizeOfFirst(chunks[1..], i - 1);
    }
  }

  /** The checks of a first finalization on its chunks pass if and only if every chunk has its row with the
      right size and is available on every desired node. */
  lemma AcceptedIff(db: Db, s: UploadSession, d: Descriptor)
    requires SizesAgree(d.chunks)
    ensures FirstRefusal(db, s, d, Enumeration(ChunkIds(d))).None? <==>
            forall i | 0 <= i < |d.chunks| ::
              && d.chunks[i].chunkId in db.chunks && db.chunks[d.chunks[i].chunkId] == d.chunks[i].size
              && FullyReplicated(db, s, d.chunks[i].chunkId)
  {
    var ids := Enumeration(ChunkIds(d));
    NoRefusal(db, s, d, ids);
    forall i | 0 <= i < |d.chunks|
      ensures d.chunks[i].chunkId in ids && SizeOf(d.chunks, d.chunks[i].chunkId) == d.chunks[i].size
    {
      assert d.chunks[i].chunkId in Elements(ids);
      SizeOfFirst(d.chunks, i);
    }
    forall j | 0 <= j < |ids|
      ensures exists i :: 0 <= i < |d.chunks| && d.chunks[i].chunkId == ids[j]
    {
      assert ids[j] in Elements(ids);
    }
  }

  lemma FinalizeKeepsValid(db: Db, sessionId: SessionId, d: Descriptor, now: real)
    requires Valid(db)
    ensures Valid(FinalizeUpload(db, sessionId, d, now).db)
  {
    FinalizeOutcome(db, sessionId, d, now);
    if Commits(db, sessionId, d) {
      CommitKeepsValid(db, sessionId, db.sessions[sessionId], d, now);
    }
  }

  lemma CommitKeepsValid(db: Db, sessionId: SessionId, s: UploadSession, d: Descriptor, now: real)
    requires Valid(db) && AcceptsUpload(db, sessionId, s, d)
    requires sessionId in db.sessions && db.sessions[sessionId] == s
    ensures Valid(CommitUpload(db, sessionId, s, d, now))
  {
    AcceptedIff(db, s, d);
    CommitKeepsRows(db, sessionId, s, d, now);
    CommitKeepsSessions(db, sessionId, s, d, now);
  }

  lemma LayoutRowKept(db: Db, objects: map<ObjectId, nat>, l: LayoutId, d: Descriptor)
    requires LayoutRowOk(db.hashing, db.objects, db.chunks, l, d)
    requires forall o | o in db.objects :: o in objects && objects[o] == db.objects[o]
    ensures LayoutRowOk(db.hashing, objects, db.chunks, l, d)
  {
  }

  lemma CommitKeepsRows(db: Db, sessionId: SessionId, s: UploadSession, d: Descriptor, now: real)
    requires LayoutsOk(db.hashing, db.objects, db.chunks, db.layouts) && VersionsOk(db.hashing, db.objects, db.versions)
    requires RunsOk(db.replicationRuns, db.layouts, db.versions) && RowsCompatible(db, sessionId, s, d)
    requires forall i | 0 <= i < |d.chunks| :: d.chunks[i].chunkId in db.chunks && db.chunks[d.chunks[i].chunkId] == d.chunks[i].size
    ensures var after := CommitUpload(db, sessionId, s, d, now);
            && LayoutsOk(after.hashing, after.objects, after.chunks, after.layouts)
            && VersionsOk(after.hashing, after.objects, after.versions)
            && RunsOk(after.replicationRuns, after.layouts, after.versions)
  {
    var after := CommitUpload(db, sessionId, s, d, now);
    forall l | l in after.layouts
      ensures LayoutRowOk(after.hashing, after.objects, after.chunks, l, after.layouts[l])
    {
      if l in db.layouts {
        LayoutRowKept(db, after.objects, l, db.layouts[l]);
      }
    }
  }

  /** Adding versions and layouts does not disturb a session. */
  lemma SessionRowKept(session: UploadSession, finalization: Option<Option<LayoutId>>, db: Db, versions: map<VersionId, Version>, layouts: map<LayoutId, Descriptor>)
    requires SessionRowOk(session, finalization, db.versions, db.retired, db.layouts)
    requires forall v | v in db.versions :: v in versions && versions[v] == db.versions[v]
    requires forall l | l in db.layouts :: l in layouts && layouts[l] == db.layouts[l]
    ensures SessionRowOk(session, finalization, versions, db.retired, layouts)
  {
  }

  lemma CommitKeepsSessions(db: Db, sessionId: SessionId, s: UploadSession, d: Descriptor, now: real)
    requires SessionsOk(db.sessions, db.finalizations, db.versions, db.retired, db.layouts) && RowsCompatible(db, sessionId, s, d)
    requires sessionId in db.sessions && db.sessions[sessionId] == s
    ensures var after := CommitUpload(db, sessionId, s, d, now);
            SessionsOk(after.sessions, after.finalizations, after.versions, after.retired, after.layouts)
  {
    var after := CommitUpload(db, sessionId, s, d, now);
    forall q | q in after.sessions
      ensures SessionRowOk(after.sessions[q], FinalizationOf(after.finalizations, q), after.versions, after.retired, after.layouts)
    {
      assert SessionRowOk(db.sessions[q], FinalizationOf(db.finalizations, q), db.versions, db.retired, db.layouts);
      if q != sessionId {
        SessionRowKept(db.sessions[q], FinalizationOf(db.finalizations, q), db, after.versions, after.layouts);
      }
    }
  }

  // ---------------------------------------------------------------------------------------------
  // The sweep
  // ---------------------------------------------------------------------------------------------

  lemma WithoutLocationsKeepsValid(db: Db, node: NodeId)
    requires Valid(db)
    ensures Valid(WithoutLocations(db, node))
  {
  }

  /** Layouts of sessions whose version is not retired survive, and so do their finalization records. */
  lemma WithoutDeadLayoutsKeepsValid(db: Db)
    requires Valid(db) && !DeletionRestricted(db)
    ensures Valid(WithoutDeadLayouts(db))
  {
    var after := WithoutDeadLayouts(db);
    forall s | s in after.sessions
      ensures SessionRowOk(after.sessions[s], FinalizationOf(after.finalizations, s), after.versions, after.retired, after.layouts)
    {
      assert SessionRowOk(db.sessions[s], FinalizationOf(db.finalizations, s), db.versions, db.retired, db.layouts);
    }
  }

  lemma WithoutOrphanObjectsKeepsValid(db: Db)
    requires Valid(db)
    ensures Valid(WithoutOrphanObjects(db))
  {
    var after := WithoutOrphanObjects(db);
    forall l | l in after.layouts
      ensures LayoutRowOk(after.hashing, after.objects, after.chunks, l, after.layouts[l])
    {
      assert LayoutRowOk(db.hashing, db.objects, db.chunks, l, db.layouts[l]);
    }
  }

  lemma WithoutOrphanChunksKeepsValid(db: Db)
    requires Valid(db)
    ensures Valid(WithoutOrphanChunks(db))
  {
    var after := WithoutOrphanChunks(db);
    forall l | l in after.layouts
      ensures LayoutRowOk(after.hashing, after.objects, after.chunks, l, after.layouts[l])
    {
      var d := db.layouts[l];
      assert LayoutRowOk(db.hashing, db.objects, db.chunks, l, d);
      forall i | 0 <= i < |d.chunks|
        ensures d.chunks[i].chunkId !in OrphanChunks(db)
      {
        assert HasChunk(d, d.chunks[i].chunkId);
      }
    }
    forall key | key in after.locations
      ensures key.0 in after.chunks
    {
      assert Located(db, key.0);
    }
  }

  /** The sweep keeps every reference intact. */
  lemma SweepKeepsValid(db: Db, node: NodeId)
    requires Valid(db) && !DeletionRestricted(db)
    ensures Valid(Sweep(db, node))
  {
    WithoutLocationsKeepsValid(db, node);
    var db1 := WithoutLocations(db, node);
    assert DeadLayouts(db1) == DeadLayouts(db);
    WithoutDeadLayoutsKeepsValid(db1);
    WithoutOrphanObjectsKeepsValid(WithoutDeadLayouts(db1));
    WithoutOrphanChunksKeepsValid(WithoutOrphanObjects(WithoutDeadLayouts(db1)));
  }

  lemma CompleteGcKeepsValid(db: Db, runId: RunId)
    requires Valid(db)
    ensures Valid(CompleteGcRun(db, runId).db)
  {
    if runId in db.gcRuns && db.gcRuns[runId].open {
      var run := db.gcRuns[runId];
      if run.dryRun {
        ClosingGcKeepsValid(db, runId, run.(open := false, stats := DryRunCounts(db, run.node)));
      } else if !DeletionRestricted(db) {
        SweepKeepsValid(db, run.node);
        ClosingGcKeepsValid(Sweep(db, run.node), runId, run.(open := false, stats := SweepCounts(db, run.node)));
      }
    }
  }

  lemma ClosingGcKeepsValid(db: Db, runId: RunId, run: GcRun)
    requires Valid(db) && !run.open
    ensures Valid(db.(gcRuns := db.gcRuns[runId := run]))
  {
    assert GcOpen(db.gcRuns[runId := run]) ==> GcOpen(db.gcRuns);
  }
}
