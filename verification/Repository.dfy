/** The repository itself: every method reads and updates the tables statement by statement, as the
    transaction in src/metadata/postgres_metadata_repository.cpp does, and is proved to reply and to
    commit what module Tables says. `tx` is the state inside the transaction; returning early rolls
    it back. */
module Repository {
  import opened Common
  import opened Ordering
  import opened ObjectLayouts
  import opened Tables
  import Placement
  import Lifecycle
  import LifecycleRun
  import Invariant
  import Retention
  import Statements
  import opened Calls
  import opened ControlPlane
  import opened Evolution
  import opened SweepTheorems

  /** Nothing can be negotiated or finalized for the session. */
  ghost predicate RefusesUploads(db: Db, sessionId: SessionId) {
    && (forall d, now :: Tables.FinalizeUpload(db, sessionId, d, now) == Fail(db, SessionNotOpen))
    && (forall batch :: Tables.NegotiateChunks(db, sessionId, batch) == Fail(db, SessionNotOpen))
  }

  /** This GC run is the only one, no upload session and no replication run is open, and none can start. */
  ghost predicate OnlyThisRun(db: Db, runId: RunId) {
    && (forall r | r in db.gcRuns && db.gcRuns[r].open :: r == runId)
    && !UploadOpen(db.sessions) && !ReplicationOpen(db.replicationRuns)
    && (forall s, session :: Tables.CreateUploadSession(db, s, session).result in {Err(InvalidArgument), Err(GcInProgress)})
    && (forall r, v, n :: Tables.StartReplicationRun(db, r, v, n).result in {Err(InvalidArgument), Err(GcInProgress)})
  }

  lemma OpenRunIsAlone(db: Db, runId: RunId)
    requires Invariant.Valid(db) && runId in db.gcRuns && db.gcRuns[runId].open
    ensures OnlyThisRun(db, runId)
  {
    assert GcOpen(db.gcRuns);
  }

  lemma EntriesAreProtected(db: Db, manifestId: ManifestId)
    requires manifestId in db.manifests
    ensures forall role | role in db.manifests[manifestId] :: Invariant.ProtectedVersion(db, db.manifests[manifestId][role])
  {
    forall role | role in db.manifests[manifestId]
      ensures Invariant.ProtectedVersion(db, db.manifests[manifestId][role])
    {
      assert db.manifests[manifestId][role] in db.manifests[manifestId].Values;
      Invariant.ProtectedFromRetirement(db, db.manifests[manifestId][role]);
    }
  }

  class MetadataRepository {
    var db: Db

    constructor (hashing: Hashing)
      ensures db == Invariant.Initial(hashing)
    {
      db := Invariant.Initial(hashing);
    }

    // -------------------------------------------------------------------------------------------
    // Catalog
    // -------------------------------------------------------------------------------------------

    method RegisterStorageNode(nodeId: NodeId, state: NodeState) returns (result: Result<(), Error>)
      modifies this
      ensures Reply(db, result) == Tables.RegisterStorageNode(old(db), nodeId, state)
      ensures Preserves(old(db), db)
    {
      if Invariant.Valid(db) {
        RegisterNodeStep(db, nodeId, state);
      }
      if !Placement.IsNodeId(nodeId) {
        return Err(InvalidArgument);
      }
      db := db.(nodes := db.nodes[nodeId := state]);
      return Ok(());
    }

    method CreateArtifact(artifactId: ArtifactId) returns (result: Result<(), Error>)
      modifies this
      ensures Reply(db, result) == Tables.CreateArtifact(old(db), artifactId)
      ensures Preserves(old(db), db)
    {
      if Invariant.Valid(db) {
        NewArtifactStep(db, artifactId);
      }
      if artifactId in db.artifacts {
        return Err(ConstraintViolation);
      }
      db := db.(artifacts := db.artifacts + {artifactId});
      return Ok(());
    }

    method RegisterStorageLocation(chunkId: ChunkId, nodeId: NodeId, state: LocationState) returns (result: Result<(), Error>)
      modifies this
      ensures Reply(db, result) == Tables.RegisterStorageLocation(old(db), chunkId, nodeId, state)
      ensures Preserves(old(db), db)
    {
      if Invariant.Valid(db) {
        RegisterLocationStep(db, chunkId, nodeId, state);
      }
      if nodeId == "" {
        return Err(InvalidArgument);
      }
      if chunkId !in db.chunks {
        return Err(ConstraintViolation);
      }
      db := db.(locations := db.locations[(chunkId, nodeId) := state]);
      return Ok(());
    }

    method PinVersion(versionId: VersionId) returns (result: Result<(), Error>)
      modifies this
      ensures Reply(db, result) == Tables.PinVersion(old(db), versionId)
      ensures result.Ok? ==> Invariant.ProtectedVersion(db, versionId)
      ensures Preserves(old(db), db)
    {
      if Invariant.Valid(db) {
        PinStep(db, versionId);
      }
      if versionId !in db.versions {
        return Err(VersionNotFound);
      }
      if versionId in db.retired {
        return Err(VersionRetired);
      }
      db := db.(pins := db.pins + {versionId});
      Invariant.ProtectedFromRetirement(db, versionId);
      return Ok(());
    }

    method UnpinVersion(versionId: VersionId) returns (result: Result<bool, Error>)
      modifies this
      ensures Reply(db, result) == Tables.UnpinVersion(old(db), versionId)
      ensures Preserves(old(db), db)
    {
      if Invariant.Valid(db) {
        UnpinStep(db, versionId);
      }
      result := Ok(versionId in db.pins);
      db := db.(pins := db.pins - {versionId});
    }

    method SetTag(artifactId: ArtifactId, name: string, versionId: VersionId) returns (result: Result<(), Error>)
      modifies this
      ensures Reply(db, result) == Tables.SetTag(old(db), artifactId, name, versionId)
      ensures result.Ok? ==> Invariant.ProtectedVersion(db, versionId)
      ensures Preserves(old(db), db)
    {
      if Invariant.Valid(db) {
        TagStep(db, artifactId, name, versionId);
      }
      if name == "" {
        return Err(InvalidArgument);
      }
      if versionId in db.retired {
        return Err(VersionRetired);
      }
      if versionId !in db.versions || db.versions[versionId].key.artifactId != artifactId {
        return Err(ConstraintViolation);
      }
      db := db.(tags := db.tags[(artifactId, name) := versionId]);
      assert db.tags[(artifactId, name)] == versionId;
      Invariant.ProtectedFromRetirement(db, versionId);
      return Ok(());
    }

    method RegisterManifest(manifestId: ManifestId, entries: map<string, VersionId>) returns (result: Result<(), Error>)
      modifies this
      ensures Reply(db, result) == Tables.RegisterManifest(old(db), manifestId, entries)
      ensures result.Ok? ==> forall role | role in entries :: Invariant.ProtectedVersion(db, entries[role])
      ensures Preserves(old(db), db)
    {
      if Invariant.Valid(db) {
        NewManifestStep(db, manifestId, entries);
      }
      var retired := Statements.AnyRetired(entries, db.retired);
      if retired {
        return Err(VersionRetired);
      }
      if manifestId in db.manifests {
        EntriesAreProtected(db, manifestId);
        return if db.manifests[manifestId] == entries then Ok(()) else Err(Conflict);
      }
      var missing := Statements.AnyMissing(entries, db.versions);
      if missing {
        return Err(ConstraintViolation);
      }
      db := db.(manifests := db.manifests[manifestId := entries]);
      EntriesAreProtected(db, manifestId);
      return Ok(());
    }

    method RegisterLifecyclePolicy(policyId: PolicyId, policy: Lifecycle.Policy) returns (result: Result<(), Error>)
      modifies this
      ensures Reply(db, result) == Tables.RegisterLifecyclePolicy(old(db), policyId, policy)
      ensures Preserves(old(db), db)
    {
      if Invariant.Valid(db) {
        NewPolicyStep(db, policyId, policy);
      }
      var valid := LifecycleRun.CheckPolicy(policy);
      if !valid {
        return Err(InvalidArgument);
      }
      if policyId in db.policies {
        return if db.policies[policyId] == policy then Ok(()) else Err(PolicyConflict);
      }
      db := db.(policies := db.policies[policyId := policy]);
      return Ok(());
    }

    // -------------------------------------------------------------------------------------------
    // Upload sessions
    // -------------------------------------------------------------------------------------------

    method CreateUploadSession(sessionId: SessionId, s: UploadSession) returns (result: Result<(), Error>)
      modifies this
      ensures Reply(db, result) == Tables.CreateUploadSession(old(db), sessionId, s)
      ensures Preserves(old(db), db)
    {
      if Invariant.Valid(db) {
        CreateSessionStep(db, sessionId, s);
      }
      if !WellFormedSession(s) {
        return Err(InvalidArgument);
      }
      if GcOpen(db.gcRuns) {
        return Err(GcInProgress);
      }
      if sessionId in db.sessions {
        return if db.sessions[sessionId] == s then Ok(()) else Err(SessionMismatch);
      }
      for rank := 0 to |s.placement|
        invariant forall i | 0 <= i < rank :: s.placement[i] in db.nodes && db.nodes[s.placement[i]] == Active
      {
        var node := s.placement[rank];
        if node !in db.nodes || db.nodes[node] != Active {
          return Err(InvalidArgument);
        }
      }
      if s.artifactId !in db.artifacts || !ParentExists(db, s) {
        return Err(ConstraintViolation);
      }
      db := db.(sessions := db.sessions[sessionId := s]);
      return Ok(());
    }

    method AbortUploadSession(sessionId: SessionId) returns (result: Result<(), Error>)
      modifies this
      ensures Reply(db, result) == Tables.AbortUploadSession(old(db), sessionId)
      ensures result.Ok? <==> sessionId in old(db).sessions && !old(db).sessions[sessionId].state.Committed?
      ensures result.Ok? ==> RefusesUploads(db, sessionId)
      ensures Preserves(old(db), db)
    {
      if Invariant.Valid(db) {
        AbortSessionStep(db, sessionId);
      }
      if sessionId !in db.sessions {
        return Err(SessionNotFound);
      }
      var s := db.sessions[sessionId];
      if s.state.Committed? {
        return Err(CannotAbort);
      }
      if s.state.Open? {
        db := db.(sessions := db.sessions[sessionId := s.(state := Aborted)]);
      }
      return Ok(());
    }

    method NegotiateChunks(sessionId: SessionId, batch: seq<ChunkMetadata>) returns (result: Result<(), Error>)
      modifies this
      ensures Reply(db, result) == Tables.NegotiateChunks(old(db), sessionId, batch)
      ensures Preserves(old(db), db)
    {
      if Invariant.Valid(db) {
        NegotiateStep(db, sessionId, batch);
      }
      if sessionId !in db.sessions {
        return Err(SessionNotFound);
      }
      if !db.sessions[sessionId].state.Open? {
        return Err(SessionNotOpen);
      }
      var sizes := Statements.CollectSizes(batch);
      if sizes.None? {
        return Err(InvalidArgument);
      }
      var conflict := Statements.AnyConflict(batch, db.chunks);
      if conflict {
        return Err(ChunkSizeConflict);
      }
      db := db.(chunks := sizes.value + db.chunks);
      return Ok(());
    }

    method FinalizeUpload(sessionId: SessionId, d: Descriptor, now: real) returns (result: Result<Finalized, Error>)
      modifies this
      ensures Reply(db, result) == Tables.FinalizeUpload(old(db), sessionId, d, now)
      ensures result.Ok? && old(db).sessions[sessionId].state.Open? ==> CommittedAt(old(db), sessionId, d, now, result.value, db)
      ensures Preserves(old(db), db)
    {
      if Invariant.Valid(db) {
        FinalizeDbStep(db, sessionId, d, now);
      }
      if sessionId !in db.sessions {
        return Err(SessionNotFound);
      }
      var s := db.sessions[sessionId];
      var versionId := db.hashing.versionId(KeyOf(s, d));
      var layoutId := db.hashing.layoutId(d);
      if s.state.Aborted? {
        return Err(SessionNotOpen);
      }
      if versionId in db.retired {
        return Err(VersionRetired);
      }
      if s.state.Committed? {
        if s.state.versionId in db.retired {
          return Err(VersionRetired);
        }
        if !RetryMatches(db, sessionId, s, d) {
          return Err(Conflict);
        }
        return Ok(Finalized(sessionId, versionId, d.objectId, layoutId));
      }
      var shape := Statements.CheckShape(s.chunking, d);
      if !shape {
        return Err(InvalidArgument);
      }
      var agree := Statements.CheckSizes(d.chunks);
      if !agree {
        return Err(Conflict);
      }
      var refusal := Statements.CheckChunks(db, s, d);
      if refusal.Some? {
        return Err(refusal.value);
      }
      var committed := Statements.InsertUpload(db, sessionId, s, d, now);
      if committed.Err? {
        return Err(committed.error);
      }
      db := committed.value;
      return Ok(Finalized(sessionId, versionId, d.objectId, layoutId));
    }

    // -------------------------------------------------------------------------------------------
    // Garbage collection
    // -------------------------------------------------------------------------------------------

    method StartGcRun(runId: RunId, node: NodeId, dryRun: bool) returns (result: Result<GcRun, Error>)
      modifies this
      ensures Reply(db, result) == Tables.StartGcRun(old(db), runId, node, dryRun)
      ensures Invariant.Valid(old(db)) && result.Ok? && result.value.open ==> OnlyThisRun(db, runId)
      ensures forall c :: Collectible(db, c) <==> Collectible(old(db), c)
      ensures Preserves(old(db), db)
    {
      if Invariant.Valid(db) {
        GcStartStep(db, runId, node, dryRun);
      }
      if !Placement.IsNodeId(node) {
        return Err(InvalidArgument);
      }
      if runId in db.gcRuns {
        var run := db.gcRuns[runId];
        if Invariant.Valid(db) && run.open {
          OpenRunIsAlone(db, runId);
        }
        return if run.node == node && run.dryRun == dryRun then Ok(run) else Err(RunConflict);
      }
      if GcOpen(db.gcRuns) {
        return Err(AnotherRunOpen);
      }
      if ReplicationOpen(db.replicationRuns) {
        return Err(ReplicationInProgress);
      }
      if UploadOpen(db.sessions) {
        return Err(OpenUploadSessions);
      }
      var run := GcRun(node, dryRun, true, NO_SWEEP);
      RecordDoesNotMatter(db, db.gcRuns[runId := run], node);
      db := db.(gcRuns := db.gcRuns[runId := run]);
      if Invariant.Valid(db) {
        OpenRunIsAlone(db, runId);
      }
      return Ok(run);
    }

    method ClassifyGcChunks(runId: RunId, chunkIds: seq<ChunkId>) returns (result: Result<seq<bool>, Error>)
      ensures result == Tables.ClassifyGcChunks(db, runId, chunkIds)
      ensures Invariant.Valid(db) && result.Ok? ==>
                |result.value| == |chunkIds| && forall i | 0 <= i < |chunkIds| :: result.value[i] <==> !Needed(db, chunkIds[i])
    {
      if !(1 <= |chunkIds| <= 256) {
        return Err(InvalidArgument);
      }
      var distinct := Statements.AreDistinct(chunkIds);
      if !distinct {
        return Err(InvalidArgument);
      }
      if runId !in db.gcRuns {
        return Err(RunNotFound);
      }
      if !db.gcRuns[runId].open {
        return Err(RunNotOpen);
      }
      var decisions := Statements.ClassifyEach(db, chunkIds);
      if Invariant.Valid(db) {
        ClassificationMeans(db, runId, chunkIds);
      }
      return Ok(decisions);
    }

    method CompleteGcRun(runId: RunId) returns (result: Result<GcRun, Error>)
      modifies this
      ensures Reply(db, result) == Tables.CompleteGcRun(old(db), runId)
      ensures result.Err? ==> db == old(db)
      ensures result.Ok? ==> runId in db.gcRuns && db.gcRuns[runId] == result.value && !result.value.open
      ensures result.Ok? && old(db).gcRuns[runId].open && !result.value.dryRun ==>
                && SweptClean(old(db), db, result.value.node)
                && AtLeast(result.value.stats, DryRunCounts(old(db), result.value.node))
                && SweptOnly(old(db), db, result.value.stats)
                && (Invariant.Valid(old(db)) ==> SweptExactly(old(db), result.value.node, db))
      ensures Preserves(old(db), db)
    {
      if Invariant.Valid(db) {
        GcCompleteStep(db, runId);
      }
      if runId !in db.gcRuns {
        return Err(RunNotFound);
      }
      var run := db.gcRuns[runId];
      if !run.open {
        return Ok(run);
      }
      if UploadOpen(db.sessions) {
        return Err(OpenUploadSessions);
      }
      var tx := db;
      var stats;
      if run.dryRun {
        stats := Statements.CountSweepCandidates(tx, run.node);
      } else {
        var swept := Statements.SweepMetadata(tx, run.node);
        if swept.None? {
          return Err(ConstraintViolation);
        }
        tx, stats := swept.value.0, swept.value.1;
        CompletedRunSweptClean(db, runId);
        SweepTouchesOnly(db, run.node);
        if Invariant.Valid(db) {
          CompletionSweepsExactly(db, runId);
        }
      }
      var completed := run.(open := false, stats := stats);
      db := tx.(gcRuns := db.gcRuns[runId := completed]);
      return Ok(completed);
    }

    // -------------------------------------------------------------------------------------------
    // Replication
    // -------------------------------------------------------------------------------------------

    method StartReplicationRun(runId: RunId, versionId: VersionId, replicationFactor: nat) returns (result: Result<ReplicationRun, Error>)
      modifies this
      ensures Reply(db, result) == Tables.StartReplicationRun(old(db), runId, versionId, replicationFactor)
      ensures result.Ok? && runId !in old(db).replicationRuns ==>
                versionId in old(db).versions && StartedAs(old(db), versionId, replicationFactor, result.value)
      ensures Preserves(old(db), db)
    {
      if Invariant.Valid(db) {
        StartReplicationStep(db, runId, versionId, replicationFactor);
      }
      if !(1 <= replicationFactor <= Placement.MAX_REPLICATION) {
        return Err(InvalidArgument);
      }
      if GcOpen(db.gcRuns) {
        return Err(GcInProgress);
      }
      if runId in db.replicationRuns {
        var run := db.replicationRuns[runId];
        return if run.versionId == versionId && run.replicationFactor == replicationFactor then Ok(run) else Err(RunConflict);
      }
      if ReplicationOpen(db.replicationRuns) {
        return Err(AnotherRunOpen);
      }
      if versionId !in db.versions {
        return Err(VersionNotFound);
      }
      if versionId in db.retired {
        return Err(VersionRetired);
      }
      var layouts := Statements.SelectRestorableLayouts(db, db.versions[versionId].key.rootObjectId);
      if layouts == [] {
        return Err(SourceUnavailable);
      }
      var active := Statements.SelectActiveNodes(db);
      if |active| > Placement.MAX_NODES {
        return Err(SourceUnavailable);
      }
      if |active| < replicationFactor {
        return Err(SourceUnavailable);
      }
      var run := ReplicationRun(versionId, layouts[0], replicationFactor, active, true);
      NewReplicationRun(db, runId, versionId, replicationFactor);
      db := db.(replicationRuns := db.replicationRuns[runId := run]);
      return Ok(run);
    }

    method GetReplicationPlan(runId: RunId) returns (result: Result<seq<ChunkPlan>, Error>)
      ensures result == Tables.GetReplicationPlan(db, runId)
    {
      if runId !in db.replicationRuns {
        return Err(RunNotFound);
      }
      var run := db.replicationRuns[runId];
      if !run.open {
        return Err(RunNotOpen);
      }
      if run.layoutId !in db.layouts {
        return Err(LayoutNotLoaded);
      }
      var plan := Statements.PlanChunks(db, run, db.layouts[run.layoutId].chunks);
      if plan.None? {
        return Err(TargetDisabled);
      }
      return Ok(plan.value);
    }

    method CompleteReplicationRun(runId: RunId) returns (result: Result<ReplicationRun, Error>)
      modifies this
      ensures Reply(db, result) == Tables.CompleteReplicationRun(old(db), runId)
      ensures Preserves(old(db), db)
    {
      if Invariant.Valid(db) {
        CompleteReplicationStep(db, runId);
      }
      if runId !in db.replicationRuns {
        return Err(RunNotFound);
      }
      var run := db.replicationRuns[runId];
      if !run.open {
        return Ok(run);
      }
      if GcOpen(db.gcRuns) {
        return Err(GcInProgress);
      }
      if run.layoutId !in db.layouts {
        return Err(LayoutNotLoaded);
      }
      var ok := Statements.CheckReplicas(db, run, db.layouts[run.layoutId]);
      if !ok {
        return Err(UnderReplicated);
      }
      var completed := run.(open := false);
      db := db.(replicationRuns := db.replicationRuns[runId := completed]);
      return Ok(completed);
    }

    // -------------------------------------------------------------------------------------------
    // Lifecycle
    // -------------------------------------------------------------------------------------------

    method RunLifecycle(runId: RunId, policyId: PolicyId, apply: bool, now: real) returns (result: Result<Tables.LifecycleRun, Error>)
      modifies this
      ensures Reply(db, result) == Tables.RunLifecycle(old(db), runId, policyId, apply, now)
      ensures result.Ok? && runId !in old(db).lifecycleRuns ==>
                && policyId in old(db).policies && KindsValid(old(db))
                && forall v :: v in db.retired <==>
                     v in old(db).retired || (apply && Retention.Expired(old(db), old(db).policies[policyId], now, v))
      ensures Preserves(old(db), db)
    {
      if Invariant.Valid(db) {
        RetainStep(db, runId, policyId, apply, now);
      }
      if runId in db.lifecycleRuns {
        var run := db.lifecycleRuns[runId];
        return if run.policyId == policyId && run.apply == apply then Ok(run) else Err(RunConflict);
      }
      if UploadOpen(db.sessions) {
        return Err(OpenUploadSessions);
      }
      if GcOpen(db.gcRuns) {
        return Err(GcInProgress);
      }
      if ReplicationOpen(db.replicationRuns) {
        return Err(ReplicationInProgress);
      }
      if policyId !in db.policies {
        return Err(PolicyNotFound);
      }
      var rows := Statements.ReadCandidates(db);
      if rows.None? {
        return Err(InvalidArtifactKind);
      }
      var decisions, stats, retirements := LifecycleRun.Evaluate(db.policies[policyId], now, apply, rows.value);
      assert Elements(retirements) == if apply then RetiredBy(db, db.policies[policyId], now) else {};
      var retired := Statements.InsertRetirements(db.retired, retirements);
      if apply {
        Retention.AppliedRunRetires(db, runId, policyId, now);
      }
      db := db.(lifecycleRuns := db.lifecycleRuns[runId := Tables.LifecycleRun(policyId, apply, now)], retired := retired);
      return Ok(Tables.LifecycleRun(policyId, apply, now));
    }
  }
}
