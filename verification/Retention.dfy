/** Lifecycle runs on the database: what a run retires, and how runs compose. */
module Retention {
  import opened Common
  import opened Ordering
  import opened Tables
  import Lifecycle

  /** After a retirement the scan returns what it returned before, less what was retired. */
  lemma RetiringRemovesCandidates(db: Db, more: set<Lifecycle.Candidate>)
    requires KindsValid(db) && more <= Candidates(db)
    ensures var later := db.(retired := db.retired + (set c | c in more :: c.versionId));
            KindsValid(later) && Candidates(later) == Candidates(db) - more
  {
    var gone := set c | c in more :: c.versionId;
    var later := db.(retired := db.retired + gone);
    assert ScannedVersions(later) == ScannedVersions(db) - gone;
    forall v | v in ScannedVersions(db)
      ensures v in gone <==> CandidateOf(db, v, Lifecycle.ResolveKind(db.versions[v].key.metadata).value) in more
    {
    }
    assert forall v, kind | v in db.versions :: CandidateOf(later, v, kind) == CandidateOf(db, v, kind);
  }

  /** Running a policy early and again later retires exactly what running it once, later, retires. */
  lemma EarlierRunIsAbsorbed(db: Db, policy: Lifecycle.Policy, earlier: real, later: real)
    requires KindsValid(db) && earlier <= later
    ensures var mid := db.(retired := db.retired + RetiredBy(db, policy, earlier));
            && KindsValid(mid)
            && RetiredBy(db, policy, earlier) + RetiredBy(mid, policy, later) == RetiredBy(db, policy, later)
  {
    var s := Candidates(db);
    var first := Lifecycle.RetireSet(policy, earlier, s);
    var second := Lifecycle.RetireSet(policy, later, s - first);
    RetiringRemovesCandidates(db, first);
    Lifecycle.EarlierRunIsAbsorbed(policy, earlier, later, s);
    IdsOfUnion(first, second);
  }

  lemma IdsOfUnion(a: set<Lifecycle.Candidate>, b: set<Lifecycle.Candidate>)
    ensures (set c | c in a :: c.versionId) + (set c | c in b :: c.versionId) == set c | c in a + b :: c.versionId
  {
  }

  // ---------------------------------------------------------------------------------------------
  // Which rows a run retires
  // ---------------------------------------------------------------------------------------------

  predicate IsScanned(db: Db, v: VersionId) {
    v in db.versions && v !in db.retired && db.versions[v].key.rootObjectId in db.objects
  }

  /** The active versions of the same artifact and kind that were created later, or at the same time and
      have a smaller ID. */
  function NewerVersions(db: Db, v: VersionId): set<VersionId>
    requires v in db.versions
  {
    set u | && u in db.versions && IsScanned(db, u)
            && db.versions[u].key.artifactId == db.versions[v].key.artifactId
            && Lifecycle.ResolveKind(db.versions[u].key.metadata) == Lifecycle.ResolveKind(db.versions[v].key.metadata)
            && (|| db.versions[u].createdAt > db.versions[v].createdAt
                || (db.versions[u].createdAt == db.versions[v].createdAt && LexLess(u, v)))
  }

  function CandidateRow(db: Db, v: VersionId): Lifecycle.Candidate
    requires KindsValid(db) && v in ScannedVersions(db)
  {
    CandidateOf(db, v, Lifecycle.ResolveKind(db.versions[v].key.metadata).value)
  }

  lemma {:induction false} AsManyIds(cs: set<Lifecycle.Candidate>)
    requires Lifecycle.DistinctVersions(cs)
    ensures |set c | c in cs :: c.versionId| == |cs|
  {
    if c :| c in cs {
      AsManyIds(cs - {c});
      assert (set x | x in cs :: x.versionId) == (set x | x in cs - {c} :: x.versionId) + {c.versionId};
    }
  }

  lemma NewerRows(db: Db, v: VersionId)
    requires KindsValid(db) && v in ScannedVersions(db)
    ensures |Lifecycle.Newer(Candidates(db), CandidateRow(db, v))| == |NewerVersions(db, v)|
  {
    var newer := Lifecycle.Newer(Candidates(db), CandidateRow(db, v));
    var ids := set c | c in newer :: c.versionId;
    AsManyIds(newer);
    forall u
      ensures u in ids <==> u in NewerVersions(db, v)
    {
      if u in NewerVersions(db, v) {
        assert CandidateRow(db, u) in newer;
      }
    }
    assert ids == NewerVersions(db, v);
  }

  /** An active version that is not pinned, tagged or in a manifest, has reached the maximum age if there is
      one, and has at least `keep_last_n` newer ones of its artifact and kind. */
  ghost predicate Expired(db: Db, policy: Lifecycle.Policy, now: real, v: VersionId)
    requires KindsValid(db)
  {
    && IsScanned(db, v)
    && v !in db.pins
    && (forall t | t in db.tags :: db.tags[t] != v)
    && (forall m, role | m in db.manifests && role in db.manifests[m] :: db.manifests[m][role] != v)
    && var rule := policy.RuleFor(Lifecycle.ResolveKind(db.versions[v].key.metadata).value);
    && (rule.maxAgeSeconds.Some? ==> now - db.versions[v].createdAt >= rule.maxAgeSeconds.value as real)
    && |NewerVersions(db, v)| >= rule.keepLastN
  }

  /** An applied lifecycle run at time `now` retires exactly the expired versions. */
  lemma AppliedRunRetires(db: Db, runId: RunId, policyId: PolicyId, now: real)
    requires runId !in db.lifecycleRuns && RunLifecycle(db, runId, policyId, true, now).result.Ok?
    ensures policyId in db.policies && KindsValid(db)
    ensures var later := RunLifecycle(db, runId, policyId, true, now).db;
            && (forall v :: v in later.retired <==> v in db.retired || Expired(db, db.policies[policyId], now, v))
            && later == db.(retired := later.retired, lifecycleRuns := db.lifecycleRuns[runId := LifecycleRun(policyId, true, now)])
  {
    hide Expired, RetiredBy;
    forall v
      ensures v in RetiredBy(db, db.policies[policyId], now) <==> Expired(db, db.policies[policyId], now, v)
    {
      RetiredByIff(db, db.policies[policyId], now, v);
    }
  }

  lemma RetiredByIff(db: Db, policy: Lifecycle.Policy, now: real, v: VersionId)
    requires KindsValid(db)
    ensures v in RetiredBy(db, policy, now) <==> Expired(db, policy, now, v)
  {
    if v in ScannedVersions(db) {
      var c := CandidateRow(db, v);
      Lifecycle.RetiredIff(policy, now, Candidates(db), c);
      NewerRows(db, v);
      FlagsAreRaw(db, v);
      assert v in RetiredBy(db, policy, now) <==> c in Lifecycle.RetireSet(policy, now, Candidates(db));
    }
  }

  lemma FlagsAreRaw(db: Db, v: VersionId)
    ensures v in db.tags.Values <==> exists t :: t in db.tags && db.tags[t] == v
    ensures ManifestReferences(db, v) <==> exists m, role :: m in db.manifests && role in db.manifests[m] && db.manifests[m][role] == v
  {
    forall m, role | m in db.manifests && role in db.manifests[m] && db.manifests[m][role] == v
      ensures v in db.manifests[m].Values
    {
    }
  }

  ghost predicate CanRun(db: Db, runId: RunId, policyId: PolicyId) {
    && runId !in db.lifecycleRuns && policyId in db.policies && KindsValid(db)
    && !UploadOpen(db.sessions) && !GcOpen(db.gcRuns) && !ReplicationOpen(db.replicationRuns)
  }

  /** The same for two applied runs: the second one can run, and in the end the same versions are
      retired as if only the second had run. */
  lemma RunsCompose(db: Db, first: RunId, second: RunId, policyId: PolicyId, earlier: real, later: real)
    requires CanRun(db, first, policyId) && CanRun(db, second, policyId) && first != second && earlier <= later
    ensures var mid := RunLifecycle(db, first, policyId, true, earlier).db;
            && CanRun(mid, second, policyId)
            && RunLifecycle(mid, second, policyId, true, later).db.retired == RunLifecycle(db, second, policyId, true, later).db.retired
  {
    EarlierRunIsAbsorbed(db, db.policies[policyId], earlier, later);
    var mid := RunLifecycle(db, first, policyId, true, earlier).db;
    RunRecordsDoNotMatter(db.(retired := mid.retired), mid.lifecycleRuns, db.policies[policyId], later);
  }

  lemma RunRecordsDoNotMatter(db: Db, runs: map<RunId, LifecycleRun>, policy: Lifecycle.Policy, now: real)
    requires KindsValid(db)
    ensures var later := db.(lifecycleRuns := runs);
            KindsValid(later) && RetiredBy(later, policy, now) == RetiredBy(db, policy, now)
  {
    var later := db.(lifecycleRuns := runs);
    assert ScannedVersions(later) == ScannedVersions(db);
    assert forall v, kind | v in db.versions :: CandidateOf(later, v, kind) == CandidateOf(db, v, kind);
    assert Candidates(later) == Candidates(db);
  }

  /** Applying a policy again at the same instant retires nothing more. */
  lemma ReapplyRetiresNothing(db: Db, first: RunId, second: RunId, policyId: PolicyId, now: real)
    requires CanRun(db, first, policyId) && CanRun(db, second, policyId) && first != second
    ensures var mid := RunLifecycle(db, first, policyId, true, now).db;
            RunLifecycle(mid, second, policyId, true, now).db.retired == mid.retired
  {
    RunsCompose(db, first, second, policyId, now, now);
  }

  /** A dry run retires nothing, and repeating a recorded run changes nothing at all. */
  lemma RepeatedRunChangesNothing(db: Db, runId: RunId, policyId: PolicyId, apply: bool, now: real, again: real)
    requires CanRun(db, runId, policyId)
    ensures var reply := RunLifecycle(db, runId, policyId, apply, now);
            && (!apply ==> reply.db.retired == db.retired)
            && RunLifecycle(reply.db, runId, policyId, apply, again) == Reply(reply.db, reply.result)
            && RunLifecycle(reply.db, runId, policyId, !apply, again) == Fail(reply.db, RunConflict)
  {
  }
}
