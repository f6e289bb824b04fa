/** A version is not retired before its time: the time of its first finalization is what every later
    lifecycle run measures its age from. */
module FreshVersions {
  import opened Common
  import opened ObjectLayouts
  import opened Tables
  import opened Calls
  import opened Outcomes
  import opened Invariant
  import opened ControlPlane
  import opened Runs
  import Lifecycle
  import Retention

  /** The policy, as it is registered, has a maximum age for the version's kind, and at time `t` something
      created at time `created` has not reached it. */
  ghost predicate Spares(db: Db, policyId: PolicyId, v: VersionId, created: real, t: real) {
    policyId in db.policies && v in db.versions && Lifecycle.ResolveKind(db.versions[v].key.metadata).Some? ==>
      var rule := db.policies[policyId].RuleFor(Lifecycle.ResolveKind(db.versions[v].key.metadata).value);
      rule.maxAgeSeconds.Some? && t - created < rule.maxAgeSeconds.value as real
  }

  lemma YoungVersionIsKept(db: Db, runId: RunId, policyId: PolicyId, apply: bool, t: real, v: VersionId)
    requires Valid(db) && v in db.versions && v !in db.retired
    requires Spares(db, policyId, v, db.versions[v].createdAt, t)
    ensures v !in RunLifecycle(db, runId, policyId, apply, t).db.retired
  {
    hide Valid;
    LifecycleOutcome(db, runId, policyId, apply, t);
    if KindsValid(db) && policyId in db.policies {
      Retention.RetiredByIff(db, db.policies[policyId], t, v);
    }
  }

  lemma CatalogKeepsRetired(db: Db, e: CatalogEvent)
    ensures CatalogStep(db, e).retired == db.retired
  {
  }

  lemma UploadKeepsRetired(w: World, e: UploadEvent)
    ensures UploadStep(w, e).db.retired == w.db.retired
  {
    match e {
      case CreateSession(sessionId, session) => CreateSessionOutcome(w.db, sessionId, session);
      case AbortSession(sessionId) => AbortOutcome(w.db, sessionId);
      case Negotiate(sessionId, batch) => NegotiateOutcome(w.db, sessionId, batch);
      case Finalize(sessionId, d, now, byPush) => FinalizeOutcome(w.db, sessionId, d, now);
      case _ =>
    }
  }

  lemma CollectKeepsRetired(w: World, e: GcEvent)
    ensures CollectStep(w, e).db.retired == w.db.retired
  {
    match e {
      case GcStart(runId, node, dryRun) => StartGcOutcome(w.db, runId, node, dryRun);
      case GcComplete =>
        if w.gc.Collecting? {
          CompleteGcOutcome(w.db, w.gc.runId);
        }
      case _ =>
    }
  }

  lemma MaintainKeepsVersion(db: Db, e: RunEvent, v: VersionId)
    requires Valid(db) && v in db.versions && v !in db.retired
    requires e.Retain? ==> Spares(db, e.policyId, v, db.versions[v].createdAt, e.now)
    ensures v !in MaintainStep(db, e).retired
  {
    match e {
      case StartReplication(runId, versionId, replicationFactor) => StartReplicationOutcome(db, runId, versionId, replicationFactor);
      case CompleteReplication(runId) => CompleteReplicationOutcome(db, runId);
      case Retain(runId, policyId, apply, now) => YoungVersionIsKept(db, runId, policyId, apply, now, v);
    }
  }

  lemma StepKeepsVersion(w: World, e: Event, v: VersionId)
    requires Valid(w.db) && v in w.db.versions && v !in w.db.retired
    requires e.Maintain? && e.run.Retain? ==> Spares(w.db, e.run.policyId, v, w.db.versions[v].createdAt, e.run.now)
    ensures v !in Step(w, e).db.retired
  {
    hide Valid;
    match e {
      case Catalog(change) => CatalogKeepsRetired(w.db, change);
      case Upload(upload) => UploadKeepsRetired(w, upload);
      case Collect(collect) => CollectKeepsRetired(w, collect);
      case Maintain(run) => MaintainKeepsVersion(w.db, run, v);
    }
  }

  /** Every lifecycle run among the events spares the version. */
  ghost predicate AllSpare(w: World, events: seq<Event>, v: VersionId, created: real) {
    forall k | 0 <= k < |events| && events[k].Maintain? && events[k].run.Retain? ::
      Spares(Exec(w, events[..k]).db, events[k].run.policyId, v, created, events[k].run.now)
  }

  lemma SpareBefore(w: World, events: seq<Event>, v: VersionId, created: real)
    requires AllSpare(w, events, v, created) && events != []
    ensures AllSpare(w, events[..|events| - 1], v, created)
  {
    hide Step, Exec;
    var before := events[..|events| - 1];
    forall k | 0 <= k < |before| && before[k].Maintain? && before[k].run.Retain?
      ensures Spares(Exec(w, before[..k]).db, before[k].run.policyId, v, created, before[k].run.now)
    {
      assert before[..k] == events[..k];
    }
  }

  /** A version survives all runs that happen before it has reached the maximum age. */
  lemma {:induction false} YoungVersionSurvives(w: World, events: seq<Event>, v: VersionId)
    requires Inv(w) && v in w.db.versions && v !in w.db.retired
    requires AllSpare(w, events, v, w.db.versions[v].createdAt)
    ensures v !in Exec(w, events).db.retired
  {
    hide Inv, Step;
    if events != [] {
      var before := events[..|events| - 1];
      SpareBefore(w, events, v, w.db.versions[v].createdAt);
      YoungVersionSurvives(w, before, v);
      LastStepKeepsVersion(w, events, v);
    }
  }

  lemma LastStepKeepsVersion(w: World, events: seq<Event>, v: VersionId)
    requires Inv(w) && v in w.db.versions && events != []
    requires AllSpare(w, events, v, w.db.versions[v].createdAt)
    requires v !in Exec(w, events[..|events| - 1]).db.retired
    ensures v !in Exec(w, events).db.retired
  {
    hide Step;
    var before := events[..|events| - 1];
    ExecKeepsInv(w, before);
    ExecRemembers(w, before);
    StepKeepsVersion(Exec(w, before), events[|events| - 1], v);
  }

  /** From the first finalization of a version at time `now` on: as long as every lifecycle run happens less
      than the maximum age after `now`, the version is not retired, whatever else happens. */
  lemma FreshCommitSurvives(w: World, sessionId: SessionId, d: Descriptor, now: real, events: seq<Event>)
    requires Inv(w) && sessionId in w.db.sessions && w.db.sessions[sessionId].state.Open?
    requires FinalizeUpload(w.db, sessionId, d, now).result.Ok?
    requires var v := FinalizeUpload(w.db, sessionId, d, now).result.value.versionId;
             v !in w.db.versions && AllSpare(UploadStep(w, Finalize(sessionId, d, now, false)), events, v, now)
    ensures var v := FinalizeUpload(w.db, sessionId, d, now).result.value.versionId;
            var later := Exec(UploadStep(w, Finalize(sessionId, d, now, false)), events).db;
            v in later.versions && later.versions[v].createdAt == now && v !in later.retired
  {
    hide Inv, FinalizeUpload;
    var v := FinalizeUpload(w.db, sessionId, d, now).result.value.versionId;
    var committed := UploadStep(w, Finalize(sessionId, d, now, false));
    FirstFinalization(w.db, sessionId, d, now);
    UploadKeepsInv(w, Finalize(sessionId, d, now, false));
    FinalizedDb(w, sessionId, d, now);
    NewVersionIsActive(w.db, sessionId, d, now);
    YoungVersionSurvives(committed, events, v);
    ExecRemembers(committed, events);
  }

  lemma FinalizedDb(w: World, sessionId: SessionId, d: Descriptor, now: real)
    ensures UploadStep(w, Finalize(sessionId, d, now, false)).db == FinalizeUpload(w.db, sessionId, d, now).db
  {
  }

  lemma NewVersionIsActive(db: Db, sessionId: SessionId, d: Descriptor, now: real)
    requires sessionId in db.sessions && db.sessions[sessionId].state.Open? && FinalizeUpload(db, sessionId, d, now).result.Ok?
    ensures FinalizeUpload(db, sessionId, d, now).result.value.versionId !in FinalizeUpload(db, sessionId, d, now).db.retired
  {
  }
}
