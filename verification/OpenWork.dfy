/** What an open replication run or upload session can rely on, whatever else happens between its start
    and its end: nothing it needs is deleted, and only a client that says so makes a replica unavailable. */
module OpenWork {
  import opened Common
  import opened Tables
  import opened Outcomes
  import opened Evolution
  import opened ControlPlane
  import opened Runs

  /** A replication run or an upload session. */
  datatype Work = Repairing(runId: RunId) | Uploading(sessionId: SessionId)

  ghost predicate Known(db: Db, work: Work) {
    match work
    case Repairing(r) => r in db.replicationRuns
    case Uploading(s) => s in db.sessions
  }

  ghost predicate WorkOpen(db: Db, work: Work) {
    match work
    case Repairing(r) => r in db.replicationRuns && db.replicationRuns[r].open
    case Uploading(s) => s in db.sessions && db.sessions[s].state.Open?
  }

  ghost predicate SomeWorkOpen(db: Db) {
    ReplicationOpen(db.replicationRuns) || UploadOpen(db.sessions)
  }

  ghost predicate SameWork(db: Db, later: Db, work: Work)
    requires Known(db, work) && Known(later, work)
  {
    match work
    case Repairing(r) => later.replicationRuns[r] == db.replicationRuns[r]
    case Uploading(s) => later.sessions[s] == db.sessions[s]
  }

  /** No garbage collection and no retirement happens, no layout or chunk row is lost, and no stored
      chunk is deleted. */
  ghost predicate Held(w: World, later: World) {
    && later.db.gcRuns == w.db.gcRuns
    && later.db.retired == w.db.retired
    && RowsKept(w.db.layouts, later.db.layouts)
    && RowsKept(w.db.chunks, later.db.chunks)
    && w.disk <= later.disk
  }

  lemma CollectKeepsDisk(w: World, e: GcEvent)
    requires Inv(w) && SomeWorkOpen(w.db)
    ensures w.disk <= CollectStep(w, e).disk
  {
    assert w.gc.Collecting? ==> GcOpen(w.db.gcRuns);
  }

  lemma StepKeepsDisk(w: World, e: Event)
    requires Inv(w) && SomeWorkOpen(w.db)
    ensures w.disk <= Step(w, e).disk
  {
    if e.Collect? {
      CollectKeepsDisk(w, e.collect);
    }
  }

  lemma HeldMeans(w: World, later: World)
    requires Evolves(w.db, later.db) && SomeWorkOpen(w.db) && w.disk <= later.disk
    ensures Held(w, later)
  {
  }

  lemma StepHolds(w: World, e: Event)
    requires Inv(w) && SomeWorkOpen(w.db)
    ensures Held(w, Step(w, e))
  {
    StepEvolves(w, e);
    StepKeepsDisk(w, e);
    HeldMeans(w, Step(w, e));
  }

  lemma WorkStaysClosed(db: Db, later: Db, work: Work)
    requires Evolves(db, later) && Known(db, work) && WorkOpen(later, work)
    ensures WorkOpen(db, work) && SomeWorkOpen(db) && SameWork(db, later, work)
  {
  }

  lemma OpenBefore(w: World, events: seq<Event>, work: Work)
    requires Inv(w) && Known(w.db, work) && events != [] && WorkOpen(Exec(w, events).db, work)
    ensures var mid := Exec(w, events[..|events| - 1]);
            && Inv(mid) && WorkOpen(mid.db, work) && SomeWorkOpen(mid.db)
            && SameWork(mid.db, Exec(w, events).db, work)
  {
    var before := events[..|events| - 1];
    ExecKeepsInv(w, before);
    ExecRemembers(w, before);
    StepEvolves(Exec(w, before), events[|events| - 1]);
    WorkStaysClosed(Exec(w, before).db, Exec(w, events).db, work);
  }

  lemma WasOpen(w: World, events: seq<Event>, work: Work)
    requires Inv(w) && Known(w.db, work) && events != [] && WorkOpen(Exec(w, events).db, work)
    ensures WorkOpen(Exec(w, events[..|events| - 1]).db, work)
  {
    OpenBefore(w, events, work);
  }

  lemma HeldLonger(w: World, mid: World, later: World)
    requires Held(w, mid) && Held(mid, later)
    ensures Held(w, later)
  {
  }

  /** A replication run or upload session that is open in the end was open all the time, and all the time
      it held off garbage collection and retirement. */
  lemma {:induction false} OpenWorkIsUndisturbed(w: World, events: seq<Event>, work: Work)
    requires Inv(w) && Known(w.db, work) && WorkOpen(Exec(w, events).db, work)
    ensures WorkOpen(w.db, work) && SameWork(w.db, Exec(w, events).db, work)
    ensures Held(w, Exec(w, events))
  {
    if events != [] {
      var before := events[..|events| - 1];
      OpenBefore(w, events, work);
      OpenWorkIsUndisturbed(w, before, work);
      StepHolds(Exec(w, before), events[|events| - 1]);
      HeldLonger(w, Exec(w, before), Exec(w, events));
    }
  }

  // ---------------------------------------------------------------------------------------------
  // Registered locations
  // ---------------------------------------------------------------------------------------------

  /** A client registers the replica in the given state. */
  predicate Registers(e: Event, c: ChunkId, n: NodeId, state: LocationState) {
    e == Catalog(RegisterLocation(c, n, state))
  }

  /** A client declares the replica missing or corrupt. */
  predicate Downgrades(e: Event, c: ChunkId, n: NodeId) {
    Registers(e, c, n, Missing) || Registers(e, c, n, Corrupt)
  }

  ghost predicate Undisturbed(events: seq<Event>, c: ChunkId, n: NodeId) {
    forall k | 0 <= k < |events| :: !Downgrades(events[k], c, n)
  }

  lemma CatalogKeepsAvailable(db: Db, e: CatalogEvent, c: ChunkId, n: NodeId)
    requires IsAvailable(db, c, n) && !Downgrades(Catalog(e), c, n)
    ensures IsAvailable(CatalogStep(db, e), c, n)
  {
  }

  lemma CollectKeepsLocations(w: World, e: GcEvent)
    requires Inv(w) && SomeWorkOpen(w.db)
    ensures CollectStep(w, e).db.locations == w.db.locations
  {
    assert w.gc.Collecting? ==> GcOpen(w.db.gcRuns);
    if e.GcStart? {
      StartGcOutcome(w.db, e.runId, e.node, e.dryRun);
    }
  }

  lemma MaintainKeepsLocations(db: Db, e: RunEvent)
    ensures MaintainStep(db, e).locations == db.locations
  {
    match e {
      case StartReplication(runId, versionId, replicationFactor) => StartReplicationOutcome(db, runId, versionId, replicationFactor);
      case CompleteReplication(runId) => CompleteReplicationOutcome(db, runId);
      case Retain(runId, policyId, apply, now) => LifecycleOutcome(db, runId, policyId, apply, now);
    }
  }

  lemma UploadKeepsLocations(w: World, e: UploadEvent)
    ensures UploadStep(w, e).db.locations == w.db.locations
  {
    match e {
      case CreateSession(sessionId, session) => CreateSessionOutcome(w.db, sessionId, session);
      case AbortSession(sessionId) => AbortOutcome(w.db, sessionId);
      case Negotiate(sessionId, batch) => NegotiateOutcome(w.db, sessionId, batch);
      case Finalize(sessionId, d, now, byPush) => FinalizeOutcome(w.db, sessionId, d, now);
      case _ =>
    }
  }

  lemma StepKeepsAvailable(w: World, e: Event, c: ChunkId, n: NodeId)
    requires Inv(w) && SomeWorkOpen(w.db)
    requires IsAvailable(w.db, c, n) && !Downgrades(e, c, n)
    ensures IsAvailable(Step(w, e).db, c, n)
  {
    match e {
      case Catalog(change) => CatalogKeepsAvailable(w.db, change, c, n);
      case Upload(upload) => UploadKeepsLocations(w, upload);
      case Collect(collect) => CollectKeepsLocations(w, collect);
      case Maintain(run) => MaintainKeepsLocations(w.db, run);
    }
  }

  lemma LastStepKeepsAvailable(w: World, events: seq<Event>, work: Work, c: ChunkId, n: NodeId)
    requires Inv(w) && Known(w.db, work) && events != [] && WorkOpen(Exec(w, events).db, work)
    requires IsAvailable(Exec(w, events[..|events| - 1]).db, c, n) && Undisturbed(events, c, n)
    ensures IsAvailable(Exec(w, events).db, c, n)
  {
    OpenBefore(w, events, work);
    StepKeepsAvailable(Exec(w, events[..|events| - 1]), events[|events| - 1], c, n);
  }

  /** While the work is open, only a client that downgrades a location makes it unavailable. */
  lemma {:induction false} AvailabilityHolds(w: World, events: seq<Event>, work: Work, c: ChunkId, n: NodeId)
    requires Inv(w) && Known(w.db, work) && WorkOpen(Exec(w, events).db, work)
    requires IsAvailable(w.db, c, n) && Undisturbed(events, c, n)
    ensures IsAvailable(Exec(w, events).db, c, n)
  {
    hide Inv, Step;
    if events != [] {
      var before := events[..|events| - 1];
      WasOpen(w, events, work);
      AvailabilityHolds(w, before, work, c, n);
      LastStepKeepsAvailable(w, events, work, c, n);
    }
  }

  lemma RegistrationSucceeds(db: Db, c: ChunkId, n: NodeId)
    requires c in db.chunks && n != ""
    ensures IsAvailable(RegisterStorageLocation(db, c, n, Available).db, c, n)
  {
  }

  /** A replica that is available at first, or registered on the way, is available in the end. */
  lemma RegisteredIsAvailable(w: World, events: seq<Event>, work: Work, c: ChunkId, n: NodeId)
    requires Inv(w) && Known(w.db, work) && WorkOpen(Exec(w, events).db, work)
    requires c in w.db.chunks && n != "" && Undisturbed(events, c, n)
    requires IsAvailable(w.db, c, n) || exists k | 0 <= k < |events| :: Registers(events[k], c, n, Available)
    ensures IsAvailable(Exec(w, events).db, c, n)
  {
    if IsAvailable(w.db, c, n) {
      AvailabilityHolds(w, events, work, c, n);
    } else {
      var k :| 0 <= k < |events| && Registers(events[k], c, n, Available);
      RegisteredAt(w, events, work, c, n, k);
    }
  }

  /** A registration takes effect while the work is open, as the chunk row cannot have gone. */
  lemma RegistrationStep(w: World, e: Event, c: ChunkId, n: NodeId)
    requires c in w.db.chunks && n != "" && Registers(e, c, n, Available)
    ensures IsAvailable(Step(w, e).db, c, n)
  {
    RegistrationSucceeds(w.db, c, n);
  }

  lemma {:induction false} RegisteredAt(w: World, events: seq<Event>, work: Work, c: ChunkId, n: NodeId, k: nat)
    requires Inv(w) && Known(w.db, work) && WorkOpen(Exec(w, events).db, work)
    requires c in w.db.chunks && n != "" && Undisturbed(events, c, n)
    requires k < |events| && Registers(events[k], c, n, Available)
    ensures IsAvailable(Exec(w, events).db, c, n)
  {
    hide Inv, Step;
    var before := events[..|events| - 1];
    WasOpen(w, events, work);
    if k == |events| - 1 {
      OpenWorkIsUndisturbed(w, before, work);
      RegistrationStep(Exec(w, before), events[k], c, n);
    } else {
      RegisteredAt(w, before, work, c, n, k);
      LastStepKeepsAvailable(w, events, work, c, n);
    }
  }
}
