/** What one repository method can and cannot change. */
module Evolution {
  import opened Common
  import opened ObjectLayouts
  import opened Tables
  import opened Outcomes
  import opened Invariant

  /** Sessions are never forgotten, keep what they were created with, and leave the open state once. */
  ghost predicate SessionsEvolve(sessions: map<SessionId, UploadSession>, later: map<SessionId, UploadSession>) {
    forall s | s in sessions ::
      && s in later
      && later[s] == sessions[s].(state := later[s].state)
      && (sessions[s].state.Open? || later[s] == sessions[s])
  }

  /** Versions are never changed or deleted. */
  ghost predicate VersionsEvolve(versions: map<VersionId, Version>, later: map<VersionId, Version>) {
    forall v | v in versions :: v in later && later[v] == versions[v]
  }

  /** A committed session whose version is not retired keeps its finalization record and its layout. */
  ghost predicate CommitsPersist(sessions: map<SessionId, UploadSession>, finalizations: map<SessionId, Option<LayoutId>>,
                                 layouts: map<LayoutId, Descriptor>, laterRetired: set<VersionId>,
                                 laterFinalizations: map<SessionId, Option<LayoutId>>, laterLayouts: map<LayoutId, Descriptor>) {
    forall s | s in sessions && s in finalizations && sessions[s].state.Committed? && sessions[s].state.versionId !in laterRetired ::
      && s in laterFinalizations && laterFinalizations[s] == finalizations[s]
      && (finalizations[s].Some? && finalizations[s].value in layouts ==>
            finalizations[s].value in laterLayouts && laterLayouts[finalizations[s].value] == layouts[finalizations[s].value])
  }

  /** Everything that liveness of layouts depends on. */
  ghost predicate SameLiveness(db: Db, later: Db) {
    && later.sessions == db.sessions
    && later.finalizations == db.finalizations
    && later.versions == db.versions
    && later.retired == db.retired
    && later.layouts == db.layouts
  }

  ghost predicate RunsEvolve(runs: map<RunId, GcRun>, later: map<RunId, GcRun>) {
    forall r | r in runs ::
      && r in later
      && later[r].node == runs[r].node && later[r].dryRun == runs[r].dryRun
      && (runs[r].open || later[r] == runs[r])
  }

  /** A layout is kept as long as some version of its object is not retired. */
  ghost predicate LayoutsPersist(versions: map<VersionId, Version>, layouts: map<LayoutId, Descriptor>,
                                 laterRetired: set<VersionId>, laterLayouts: map<LayoutId, Descriptor>) {
    forall l | l in layouts && ObjectInUse(versions, laterRetired, layouts[l].objectId) ::
      l in laterLayouts && laterLayouts[l] == layouts[l]
  }

  /** Replication runs are never deleted, change only by being closed, and stay closed. */
  ghost predicate ReplicationsEvolve(runs: map<RunId, ReplicationRun>, later: map<RunId, ReplicationRun>) {
    forall r | r in runs ::
      && r in later
      && later[r] == runs[r].(open := later[r].open)
      && (runs[r].open || later[r] == runs[r])
  }

  ghost predicate RowsKept<K, V>(rows: map<K, V>, later: map<K, V>) {
    forall key | key in rows :: key in later && later[key] == rows[key]
  }

  /** An open replication run or upload session keeps garbage collection and retention out, so no row it
      may need is lost. */
  ghost predicate OpenWorkHolds(db: Db, later: Db) {
    ReplicationOpen(db.replicationRuns) || UploadOpen(db.sessions) ==>
      && later.gcRuns == db.gcRuns
      && later.retired == db.retired
      && RowsKept(db.layouts, later.layouts)
      && RowsKept(db.chunks, later.chunks)
  }

  ghost predicate Evolves(db: Db, later: Db) {
    && later.hashing == db.hashing
    && SessionsEvolve(db.sessions, later.sessions)
    && VersionsEvolve(db.versions, later.versions)
    && db.retired <= later.retired
    && CommitsPersist(db.sessions, db.finalizations, db.layouts, later.retired, later.finalizations, later.layouts)
    && LayoutsPersist(db.versions, db.layouts, later.retired, later.layouts)
    && RunsEvolve(db.gcRuns, later.gcRuns)
    && ReplicationsEvolve(db.replicationRuns, later.replicationRuns)
    && OpenWorkHolds(db, later)
    && (GcOpen(db.gcRuns) && GcOpen(later.gcRuns) ==> SameLiveness(db, later))
  }

  /** In a valid database the call keeps every reference intact and undoes nothing that must last. */
  ghost predicate Preserves(db: Db, later: Db) {
    Valid(db) ==> Valid(later) && Evolves(db, later)
  }

  /** Changes to tables that neither sessions, versions, layouts nor GC runs depend on. */
  lemma OtherTablesEvolve(db: Db, later: Db)
    requires later.hashing == db.hashing && SameLiveness(db, later) && later.gcRuns == db.gcRuns
    requires ReplicationsEvolve(db.replicationRuns, later.replicationRuns) && RowsKept(db.chunks, later.chunks)
    ensures Evolves(db, later)
  {
  }

  lemma RunsAloneEvolve(db: Db, runs: map<RunId, GcRun>)
    requires RunsEvolve(db.gcRuns, runs) && !ReplicationOpen(db.replicationRuns) && !UploadOpen(db.sessions)
    ensures Evolves(db, db.(gcRuns := runs))
  {
  }

  /** Changes to sessions, versions or retirements happen only while no GC run is open. */
  lemma SessionsAloneEvolve(db: Db, sessions: map<SessionId, UploadSession>)
    requires SessionsEvolve(db.sessions, sessions) && !GcOpen(db.gcRuns)
    ensures Evolves(db, db.(sessions := sessions))
  {
  }

  lemma RunEvolves(runs: map<RunId, GcRun>, r: RunId, run: GcRun)
    requires r in runs ==> runs[r].open && run.node == runs[r].node && run.dryRun == runs[r].dryRun
    ensures RunsEvolve(runs, runs[r := run])
  {
  }

  lemma SessionEvolves(sessions: map<SessionId, UploadSession>, s: SessionId, session: UploadSession)
    requires s in sessions ==> sessions[s].state.Open? && session == sessions[s].(state := session.state)
    ensures SessionsEvolve(sessions, sessions[s := session])
  {
  }

  lemma CreateSessionEvolves(db: Db, sessionId: SessionId, s: UploadSession)
    ensures Evolves(db, CreateUploadSession(db, sessionId, s).db)
  {
    CreateSessionOutcome(db, sessionId, s);
    OtherTablesEvolve(db, db);
    if sessionId !in db.sessions && !GcOpen(db.gcRuns) {
      SessionEvolves(db.sessions, sessionId, s);
      SessionsAloneEvolve(db, db.sessions[sessionId := s]);
    }
  }

  lemma AbortEvolves(db: Db, sessionId: SessionId)
    requires Valid(db)
    ensures Evolves(db, AbortUploadSession(db, sessionId).db)
  {
    AbortOutcome(db, sessionId);
    OtherTablesEvolve(db, db);
    if sessionId in db.sessions && db.sessions[sessionId].state.Open? {
      assert UploadOpen(db.sessions);
      var s := db.sessions[sessionId].(state := Aborted);
      SessionEvolves(db.sessions, sessionId, s);
      SessionsAloneEvolve(db, db.sessions[sessionId := s]);
    }
  }

  lemma CommitEvolves(db: Db, sessionId: SessionId, d: Descriptor, now: real)
    requires Valid(db) && Commits(db, sessionId, d)
    ensures Evolves(db, CommitUpload(db, sessionId, db.sessions[sessionId], d, now))
  {
    var s := db.sessions[sessionId];
    var later := CommitUpload(db, sessionId, s, d, now);
    assert UploadOpen(db.sessions);
    SessionEvolves(db.sessions, sessionId, later.sessions[sessionId]);
    CommitKeepsCommits(db, sessionId, s, d, now);
    CommitsAloneEvolve(db, later);
  }

  lemma CommitKeepsCommits(db: Db, sessionId: SessionId, s: UploadSession, d: Descriptor, now: real)
    requires RowsCompatible(db, sessionId, s, d) && s.state.Open?
    requires sessionId in db.sessions && db.sessions[sessionId] == s
    ensures var later := CommitUpload(db, sessionId, s, d, now);
            && CommitsPersist(db.sessions, db.finalizations, db.layouts, later.retired, later.finalizations, later.layouts)
            && VersionsEvolve(db.versions, later.versions)
            && LayoutsPersist(db.versions, db.layouts, later.retired, later.layouts)
            && RowsKept(db.layouts, later.layouts)
  {
  }

  /** A commit happens while no GC run is open, as the session itself is. */
  lemma CommitsAloneEvolve(db: Db, later: Db)
    requires !GcOpen(db.gcRuns) && later.hashing == db.hashing && later.gcRuns == db.gcRuns
    requires later.replicationRuns == db.replicationRuns && later.retired == db.retired && later.chunks == db.chunks
    requires SessionsEvolve(db.sessions, later.sessions) && VersionsEvolve(db.versions, later.versions)
    requires CommitsPersist(db.sessions, db.finalizations, db.layouts, later.retired, later.finalizations, later.layouts)
    requires LayoutsPersist(db.versions, db.layouts, later.retired, later.layouts) && RowsKept(db.layouts, later.layouts)
    ensures Evolves(db, later)
  {
  }

  lemma FinalizeEvolves(db: Db, sessionId: SessionId, d: Descriptor, now: real)
    requires Valid(db)
    ensures Evolves(db, FinalizeUpload(db, sessionId, d, now).db)
  {
    FinalizeOutcome(db, sessionId, d, now);
    OtherTablesEvolve(db, db);
    if Commits(db, sessionId, d) {
      CommitEvolves(db, sessionId, d, now);
    }
  }

  lemma StartGcEvolves(db: Db, runId: RunId, node: NodeId, dryRun: bool)
    ensures Evolves(db, StartGcRun(db, runId, node, dryRun).db)
  {
    StartGcOutcome(db, runId, node, dryRun);
    OtherTablesEvolve(db, db);
    if runId !in db.gcRuns && !ReplicationOpen(db.replicationRuns) && !UploadOpen(db.sessions) {
      var run := GcRun(node, dryRun, true, NO_SWEEP);
      RunEvolves(db.gcRuns, runId, run);
      RunsAloneEvolve(db, db.gcRuns[runId := run]);
    }
  }

  lemma CompleteGcEvolves(db: Db, runId: RunId)
    requires Valid(db)
    ensures Evolves(db, CompleteGcRun(db, runId).db)
  {
    CompleteGcOutcome(db, runId);
    if SweepsNow(db, runId) {
      var run := db.gcRuns[runId];
      SweepEvolves(db, runId, run.(open := false, stats := SweepCounts(db, run.node)));
    } else if CountsNow(db, runId) {
      ClosingEvolves(db, runId, DryRunCounts(db, db.gcRuns[runId].node));
    } else {
      OtherTablesEvolve(db, db);
    }
  }

  lemma ClosingEvolves(db: Db, runId: RunId, stats: SweepStats)
    requires Exclusive(db.gcRuns, db.replicationRuns, db.sessions) && runId in db.gcRuns && db.gcRuns[runId].open
    ensures Evolves(db, db.(gcRuns := db.gcRuns[runId := db.gcRuns[runId].(open := false, stats := stats)]))
  {
    var closed := db.gcRuns[runId].(open := false, stats := stats);
    RunEvolves(db.gcRuns, runId, closed);
    assert GcOpen(db.gcRuns);
    RunsAloneEvolve(db, db.gcRuns[runId := closed]);
  }

  lemma SweepEvolves(db: Db, runId: RunId, closed: GcRun)
    requires Valid(db) && runId in db.gcRuns && db.gcRuns[runId].open
    requires closed == db.gcRuns[runId].(open := false, stats := closed.stats)
    ensures Evolves(db, Sweep(db, db.gcRuns[runId].node).(gcRuns := db.gcRuns[runId := closed]))
  {
    SweepKeepsCommits(db, db.gcRuns[runId].node);
    RunEvolves(db.gcRuns, runId, closed);
    assert GcOpen(db.gcRuns) && !GcOpen(db.gcRuns[runId := closed]);
  }

  lemma SweepKeepsCommits(db: Db, node: NodeId)
    requires Valid(db)
    ensures var later := Sweep(db, node);
            && CommitsPersist(db.sessions, db.finalizations, db.layouts, later.retired, later.finalizations, later.layouts)
            && LayoutsPersist(db.versions, db.layouts, later.retired, later.layouts)
  {
    var dead := DeadLayouts(WithoutLocations(db, node));
    forall s | s in db.sessions && s in db.finalizations && db.sessions[s].state.Committed?
               && db.sessions[s].state.versionId !in db.retired
      ensures db.finalizations[s].Some? ==> db.finalizations[s].value !in dead
    {
    }
  }

  lemma LifecycleEvolves(db: Db, runId: RunId, policyId: PolicyId, apply: bool, now: real)
    ensures Evolves(db, RunLifecycle(db, runId, policyId, apply, now).db)
  {
    LifecycleOutcome(db, runId, policyId, apply, now);
    OtherTablesEvolve(db, db);
    if !GcOpen(db.gcRuns) && !ReplicationOpen(db.replicationRuns) && !UploadOpen(db.sessions) {
      RetirementsEvolve(db, RunLifecycle(db, runId, policyId, apply, now).db);
    }
  }

  lemma RetirementsEvolve(db: Db, later: Db)
    requires !GcOpen(db.gcRuns) && later.hashing == db.hashing && later.gcRuns == db.gcRuns && later.sessions == db.sessions
    requires later.replicationRuns == db.replicationRuns && !ReplicationOpen(db.replicationRuns) && !UploadOpen(db.sessions)
    requires later.versions == db.versions && later.finalizations == db.finalizations && later.layouts == db.layouts
    requires db.retired <= later.retired
    ensures Evolves(db, later)
  {
  }
}
