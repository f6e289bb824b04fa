/** For each repository method, the one change it can make to the tables and exactly when it makes
    it; in every other case the tables stay as they were. */
module Outcomes {
  import opened Common
  import opened Ordering
  import opened ObjectLayouts
  import opened Tables
  import Placement
  import Lifecycle

  lemma RegisterNodeOutcome(db: Db, nodeId: NodeId, state: NodeState)
    ensures RegisterStorageNode(db, nodeId, state).db ==
            if Placement.IsNodeId(nodeId) then db.(nodes := db.nodes[nodeId := state]) else db
  {
  }

  lemma CreateArtifactOutcome(db: Db, artifactId: ArtifactId)
    ensures CreateArtifact(db, artifactId).db ==
            if artifactId in db.artifacts then db else db.(artifacts := db.artifacts + {artifactId})
  {
  }

  lemma RegisterPolicyOutcome(db: Db, policyId: PolicyId, policy: Lifecycle.Policy)
    ensures RegisterLifecyclePolicy(db, policyId, policy).db ==
            if policyId in db.policies || !Lifecycle.ValidPolicy(policy) then db else db.(policies := db.policies[policyId := policy])
  {
  }

  lemma RegisterLocationOutcome(db: Db, chunkId: ChunkId, nodeId: NodeId, state: LocationState)
    ensures RegisterStorageLocation(db, chunkId, nodeId, state).db ==
            if nodeId != "" && chunkId in db.chunks then db.(locations := db.locations[(chunkId, nodeId) := state]) else db
  {
  }

  lemma PinOutcome(db: Db, versionId: VersionId)
    ensures PinVersion(db, versionId).db ==
            if versionId in db.versions && versionId !in db.retired then db.(pins := db.pins + {versionId}) else db
  {
  }

  lemma SetTagOutcome(db: Db, artifactId: ArtifactId, name: string, versionId: VersionId)
    ensures var later := SetTag(db, artifactId, name, versionId).db;
            || later == db
            || (versionId in db.versions && versionId !in db.retired && later == db.(tags := db.tags[(artifactId, name) := versionId]))
  {
  }

  lemma CreateSessionOutcome(db: Db, sessionId: SessionId, s: UploadSession)
    ensures var later := CreateUploadSession(db, sessionId, s).db;
            || later == db
            || (&& sessionId !in db.sessions && WellFormedSession(s) && !GcOpen(db.gcRuns)
                && later == db.(sessions := db.sessions[sessionId := s]))
  {
  }

  lemma AbortOutcome(db: Db, sessionId: SessionId)
    ensures var later := AbortUploadSession(db, sessionId).db;
            if sessionId in db.sessions && db.sessions[sessionId].state.Open?
            then later == db.(sessions := db.sessions[sessionId := db.sessions[sessionId].(state := Aborted)])
            else later == db
  {
  }

  lemma NegotiateOutcome(db: Db, sessionId: SessionId, batch: seq<ChunkMetadata>)
    ensures var later := NegotiateChunks(db, sessionId, batch).db;
            later == db || later == db.(chunks := BatchSizes(batch) + db.chunks)
  {
  }

  lemma RegisterManifestOutcome(db: Db, manifestId: ManifestId, entries: map<string, VersionId>)
    ensures var later := RegisterManifest(db, manifestId, entries).db;
            || later == db
            || (&& (forall role | role in entries :: entries[role] in db.versions && entries[role] !in db.retired)
                && later == db.(manifests := db.manifests[manifestId := entries]))
  {
  }

  /** The session is open and its first finalization with `d` succeeds. */
  ghost predicate Commits(db: Db, sessionId: SessionId, d: Descriptor) {
    && sessionId in db.sessions
    && db.sessions[sessionId].state.Open?
    && AcceptsUpload(db, sessionId, db.sessions[sessionId], d)
    && ShapeMatches(db.sessions[sessionId].chunking, d)
    && db.hashing.versionId(KeyOf(db.sessions[sessionId], d)) !in db.retired
    && db.sessions[sessionId].parent != Some(db.hashing.versionId(KeyOf(db.sessions[sessionId], d)))
  }

  /** Finalization either commits the upload or leaves every table as it was. */
  lemma FinalizeOutcome(db: Db, sessionId: SessionId, d: Descriptor, now: real)
    ensures FinalizeUpload(db, sessionId, d, now).db ==
            if Commits(db, sessionId, d) then CommitUpload(db, sessionId, db.sessions[sessionId], d, now) else db
    ensures Commits(db, sessionId, d) ==> FinalizeUpload(db, sessionId, d, now).result.Ok?
  {
  }

  lemma StartGcOutcome(db: Db, runId: RunId, node: NodeId, dryRun: bool)
    ensures var reply := StartGcRun(db, runId, node, dryRun);
            || (reply.db == db && (reply.result.Ok? ==> runId in db.gcRuns && reply.result.value == db.gcRuns[runId]
                                                        && reply.result.value.node == node && reply.result.value.dryRun == dryRun))
            || (&& runId !in db.gcRuns && !GcOpen(db.gcRuns) && !ReplicationOpen(db.replicationRuns) && !UploadOpen(db.sessions)
                && reply.result == Ok(GcRun(node, dryRun, true, NO_SWEEP))
                && reply.db == db.(gcRuns := db.gcRuns[runId := GcRun(node, dryRun, true, NO_SWEEP)]))
  {
  }

  ghost predicate SweepsNow(db: Db, runId: RunId) {
    && runId in db.gcRuns && db.gcRuns[runId].open && !db.gcRuns[runId].dryRun
    && !UploadOpen(db.sessions) && !DeletionRestricted(db)
  }

  ghost predicate CountsNow(db: Db, runId: RunId) {
    runId in db.gcRuns && db.gcRuns[runId].open && db.gcRuns[runId].dryRun && !UploadOpen(db.sessions)
  }

  lemma CompleteGcOutcome(db: Db, runId: RunId)
    ensures CompleteGcRun(db, runId).db ==
            if SweepsNow(db, runId) then
              var run := db.gcRuns[runId];
              Sweep(db, run.node).(gcRuns := db.gcRuns[runId := run.(open := false, stats := SweepCounts(db, run.node))])
            else if CountsNow(db, runId) then
              var run := db.gcRuns[runId];
              db.(gcRuns := db.gcRuns[runId := run.(open := false, stats := DryRunCounts(db, run.node))])
            else db
  {
  }

  lemma StartReplicationOutcome(db: Db, runId: RunId, versionId: VersionId, replicationFactor: nat)
    ensures var reply := StartReplicationRun(db, runId, versionId, replicationFactor);
            || (reply.db == db && (reply.result.Ok? ==> runId in db.replicationRuns && reply.result.value == db.replicationRuns[runId]))
            || (&& runId !in db.replicationRuns && !GcOpen(db.gcRuns) && !ReplicationOpen(db.replicationRuns)
                && versionId in db.versions && versionId !in db.retired
                && reply.result.Ok?
                && var run := reply.result.value;
                && run.open && run.versionId == versionId && run.replicationFactor == replicationFactor
                && 1 <= replicationFactor <= Placement.MAX_REPLICATION
                && run.placement == Enumeration(ActiveNodes(db))
                && replicationFactor <= |run.placement| <= Placement.MAX_NODES
                && run.layoutId in RestorableLayouts(db, db.versions[versionId].key.rootObjectId)
                && reply.db == db.(replicationRuns := db.replicationRuns[runId := run]))
  {
    if versionId in db.versions {
      FirstIsMember(RestorableLayouts(db, db.versions[versionId].key.rootObjectId));
    }
  }

  lemma StartedRunIsRecorded(db: Db, runId: RunId, versionId: VersionId, replicationFactor: nat)
    ensures var reply := StartReplicationRun(db, runId, versionId, replicationFactor);
            reply.result.Ok? ==>
              && runId in reply.db.replicationRuns && reply.db.replicationRuns[runId] == reply.result.value
              && reply.result.value.versionId == versionId && reply.result.value.replicationFactor == replicationFactor
  {
  }

  lemma FirstIsMember(keys: set<string>)
    ensures Enumeration(keys) != [] ==> Enumeration(keys)[0] in keys
  {
    if Enumeration(keys) != [] {
      assert Enumeration(keys)[0] in Elements(Enumeration(keys));
    }
  }

  lemma CompleteReplicationOutcome(db: Db, runId: RunId)
    ensures var reply := CompleteReplicationRun(db, runId);
            || reply.db == db
            || (&& runId in db.replicationRuns
                && var run := db.replicationRuns[runId];
                && run.open
                && run.layoutId in db.layouts && ReplicationSatisfied(db, run, db.layouts[run.layoutId])
                && reply.db == db.(replicationRuns := db.replicationRuns[runId := run.(open := false)]))
  {
  }

  lemma LifecycleOutcome(db: Db, runId: RunId, policyId: PolicyId, apply: bool, now: real)
    ensures var later := RunLifecycle(db, runId, policyId, apply, now).db;
            || later == db
            || (&& !GcOpen(db.gcRuns) && !UploadOpen(db.sessions) && !ReplicationOpen(db.replicationRuns)
                && policyId in db.policies && KindsValid(db)
                && later == db.(lifecycleRuns := db.lifecycleRuns[runId := LifecycleRun(policyId, apply, now)],
                                retired := db.retired + if apply then RetiredBy(db, db.policies[policyId], now) else {}))
  {
  }
}
