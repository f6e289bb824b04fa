/** A defect of the metadata service. Replication runs, finished ones included, reference their layout
    with ON DELETE RESTRICT (migrations/009_multi_node_replication.sql), so a sweep that has to delete
    such a layout fails. The GC run then stays open for good and blocks all other work. */
module Wedge {
  import opened Common
  import opened Ordering
  import opened ObjectLayouts
  import opened Tables
  import opened Outcomes
  import opened Invariant
  import opened ControlPlane
  import opened Runs
  import Lifecycle
  import Placement

  /** An open apply run completes if and only if every replication run names a live layout; a dry run
      always completes. A failed completion changes nothing. */
  lemma CompletionSucceedsIff(db: Db, r: RunId)
    requires Valid(db) && r in db.gcRuns && db.gcRuns[r].open
    ensures var reply := CompleteGcRun(db, r);
            && (reply.result.Ok? <==> db.gcRuns[r].dryRun || forall q | q in db.replicationRuns :: Live(db, db.replicationRuns[q].layoutId))
            && (reply.result.Err? ==> reply == Fail(db, ConstraintViolation))
  {
    assert GcOpen(db.gcRuns);
    assert forall q | q in db.replicationRuns :: db.replicationRuns[q].layoutId in db.layouts;
  }

  ghost predicate Stuck(db: Db, r: RunId) {
    && r in db.gcRuns && db.gcRuns[r].open && !db.gcRuns[r].dryRun
    && DeletionRestricted(db)
  }

  /** While a run is stuck no session, replication run, lifecycle run or other GC run can start. */
  lemma StuckBlocksEverything(db: Db, r: RunId)
    requires Valid(db) && Stuck(db, r)
    ensures CompleteGcRun(db, r) == Fail(db, ConstraintViolation)
    ensures forall s, session :: CreateUploadSession(db, s, session).result in {Err(InvalidArgument), Err(GcInProgress)}
    ensures forall q, v, n :: StartReplicationRun(db, q, v, n).result in {Err(InvalidArgument), Err(GcInProgress)}
    ensures forall q, p, apply, now | q !in db.lifecycleRuns :: RunLifecycle(db, q, p, apply, now).result == Err(GcInProgress)
    ensures forall q, node, dryRun | q !in db.gcRuns :: StartGcRun(db, q, node, dryRun).result in {Err(InvalidArgument), Err(AnotherRunOpen)}
  {
    assert GcOpen(db.gcRuns);
    CompletionSucceedsIff(db, r);
  }

  /** The engine's own run is the stuck one, and completing it fails. */
  lemma EngineCannotComplete(w: World, r: RunId)
    requires Inv(w) && Stuck(w.db, r) && w.gc.Collecting?
    ensures CompleteGcRun(w.db, w.gc.runId).db == w.db
  {
    assert w.gc.runId == r;
    CompleteGcOutcome(w.db, r);
  }

  lemma StuckRunOutlastsEngine(w: World, e: GcEvent, r: RunId)
    requires Inv(w) && Stuck(w.db, r)
    ensures CollectStep(w, e).db.gcRuns == w.db.gcRuns
  {
    assert GcOpen(w.db.gcRuns);
    match e {
      case GcStart(runId, node, dryRun) => StartGcOutcome(w.db, runId, node, dryRun);
      case GcComplete =>
        if w.gc.Collecting? {
          EngineCannotComplete(w, r);
        }
      case _ =>
    }
  }

  lemma StuckRunStaysOpen(w: World, e: Event, r: RunId)
    requires Inv(w) && Stuck(w.db, r)
    ensures Step(w, e).db.gcRuns == w.db.gcRuns
  {
    match e {
      case Catalog(change) => CatalogDbStep(w.db, change);
      case Upload(upload) => UploadDbStep(w, upload);
      case Collect(collect) => StuckRunOutlastsEngine(w, collect, r);
      case Maintain(run) => MaintainDbStep(w.db, run);
    }
  }

  lemma StuckStep(w: World, e: Event, r: RunId)
    requires Inv(w) && Stuck(w.db, r)
    ensures Stuck(Step(w, e).db, r)
  {
    var later := Step(w, e).db;
    StuckRunStaysOpen(w, e, r);
    StepEvolves(w, e);
    assert GcOpen(w.db.gcRuns) && GcOpen(later.gcRuns);
    var q :| q in w.db.replicationRuns && w.db.replicationRuns[q].layoutId in DeadLayouts(w.db);
    assert later.replicationRuns[q].layoutId in DeadLayouts(later);
  }

  /** Nothing that any client, engine or operator command does ever frees a stuck run. */
  lemma {:induction false} StuckForever(w: World, events: seq<Event>, r: RunId)
    requires Inv(w) && Stuck(w.db, r)
    ensures Stuck(Exec(w, events).db, r)
  {
    if events != [] {
      StuckForever(w, events[..|events| - 1], r);
      ExecKeepsInv(w, events[..|events| - 1]);
      StuckStep(Exec(w, events[..|events| - 1]), events[|events| - 1], r);
    }
  }

  // ---------------------------------------------------------------------------------------------
  // A short history that ends stuck
  // ---------------------------------------------------------------------------------------------

  const NODE := "node-1"
  const ARTIFACT := "demo"
  const EMPTY_OBJECT := "e3b0c44298fc1c149afbf4c8996fb92427ae41e4649b934ca495991b7852b855"
  const EMPTY_FILE := Descriptor(EMPTY_OBJECT, 0, FixedSize, [])
  const SESSION := UploadSession(ARTIFACT, 1, [NODE], FixedChunks(1048576), None, map[], Open)

  lemma NodeIsNamed()
    ensures Placement.IsNodeId(NODE)
  {
    assert |NODE| == 6 && forall i | 0 <= i < |NODE| :: Placement.NodeIdCharacter(NODE[i]);
  }

  /** Keeps no version. */
  const POLICY := var keepNone := Lifecycle.Rule(0, None); Lifecycle.Policy(keepNone, keepNone, keepNone, keepNone, keepNone)

  function Key(): VersionKey {
    VersionKey(ARTIFACT, EMPTY_OBJECT, None, map[])
  }

  ghost function CatalogDb(hashing: Hashing): Db {
    Initial(hashing).(nodes := map[NODE := Active], artifacts := {ARTIFACT}, policies := map["policy" := POLICY])
  }

  ghost function PushedDb(hashing: Hashing): Db {
    CatalogDb(hashing).(objects := map[EMPTY_OBJECT := 0],
                        layouts := map[hashing.layoutId(EMPTY_FILE) := EMPTY_FILE],
                        versions := map[hashing.versionId(Key()) := Version(Key(), 0.0)],
                        finalizations := map["session" := Some(hashing.layoutId(EMPTY_FILE))],
                        sessions := map["session" := SESSION.(state := Committed(hashing.versionId(Key())))])
  }

  ghost function RepairedDb(hashing: Hashing): Db {
    PushedDb(hashing).(replicationRuns :=
      map["repair" := ReplicationRun(hashing.versionId(Key()), hashing.layoutId(EMPTY_FILE), 1, [NODE], false)])
  }

  ghost function RetiredDb(hashing: Hashing): Db {
    RepairedDb(hashing).(retired := {hashing.versionId(Key())}, lifecycleRuns := map["retire" := LifecycleRun("policy", true, 0.0)])
  }

  lemma EmptyFileCommits(created: Db)
    requires created.sessions == map["session" := SESSION] && created.retired == {} && created.finalizations == map[]
    requires created.objects == map[] && created.layouts == map[] && created.versions == map[]
    ensures Commits(created, "session", EMPTY_FILE)
  {
    EnumerationOfNone();
    assert ChunkIds(EMPTY_FILE) == {};
  }

  lemma EmptyFileIsPushed(hashing: Hashing)
    ensures var created := CatalogDb(hashing).(sessions := map["session" := SESSION]);
            FinalizeUpload(created, "session", EMPTY_FILE, 0.0).db == PushedDb(hashing)
  {
    var created := CatalogDb(hashing).(sessions := map["session" := SESSION]);
    EmptyFileCommits(created);
    assert KeyOf(SESSION, EMPTY_FILE) == Key();
    FinalizeOutcome(created, "session", EMPTY_FILE, 0.0);
  }

  lemma EnumerationOfNone()
    ensures Enumeration({}) == []
  {
    LexStrictTotal();
    EnumerationSize(LexLess, Enumeration({}), {});
  }

  lemma EnumerationOfOne(x: string)
    ensures Enumeration({x}) == [x]
  {
    LexStrictTotal();
    var s := Enumeration({x});
    EnumerationSize(LexLess, s, {x});
    assert s[0] in Elements(s);
  }

  lemma EmptyFileIsRepaired(hashing: Hashing)
    ensures var started := StartReplicationRun(PushedDb(hashing), "repair", hashing.versionId(Key()), 1).db;
            CompleteReplicationRun(started, "repair").db == RepairedDb(hashing)
  {
    var db := PushedDb(hashing);
    var l := hashing.layoutId(EMPTY_FILE);
    assert l in db.layouts && Restorable(db, db.layouts[l]);
    assert RestorableLayouts(db, EMPTY_OBJECT) == {l};
    assert ActiveNodes(db) == {NODE};
    EnumerationOfOne(l);
    EnumerationOfOne(NODE);
    var run := ReplicationRun(hashing.versionId(Key()), l, 1, [NODE], true);
    assert StartReplicationRun(db, "repair", hashing.versionId(Key()), 1).db == db.(replicationRuns := map["repair" := run]);
  }

  lemma OneCandidateIsRetired(c: Lifecycle.Candidate)
    requires !c.pinned && !c.tagged && !c.manifestReferenced
    ensures Lifecycle.RetireSet(POLICY, 0.0, {c}) == {c}
  {
  }

  lemma EmptyFileIsCandidate(hashing: Hashing)
    ensures var db, v := RepairedDb(hashing), hashing.versionId(Key());
            KindsValid(db) && Candidates(db) == {CandidateOf(db, v, Lifecycle.Generic)}
  {
    var db := RepairedDb(hashing);
    var v := hashing.versionId(Key());
    assert ScannedVersions(db) == {v};
    assert Lifecycle.ResolveKind(db.versions[v].key.metadata) == Some(Lifecycle.Generic);
  }

  lemma OneVersionIsRetired(db: Db, v: VersionId)
    requires !UploadOpen(db.sessions) && !GcOpen(db.gcRuns) && !ReplicationOpen(db.replicationRuns)
    requires "retire" !in db.lifecycleRuns && "policy" in db.policies && db.policies["policy"] == POLICY
    requires v in db.versions && v !in db.pins && v !in db.tags.Values && !ManifestReferences(db, v)
    requires KindsValid(db) && Candidates(db) == {CandidateOf(db, v, Lifecycle.Generic)}
    ensures RunLifecycle(db, "retire", "policy", true, 0.0).db
            == db.(lifecycleRuns := db.lifecycleRuns["retire" := LifecycleRun("policy", true, 0.0)], retired := db.retired + {v})
  {
    OneCandidateIsRetired(CandidateOf(db, v, Lifecycle.Generic));
    assert RetiredBy(db, POLICY, 0.0) == {v};
  }

  lemma EmptyFileIsRetired(hashing: Hashing)
    ensures RunLifecycle(RepairedDb(hashing), "retire", "policy", true, 0.0).db == RetiredDb(hashing)
  {
    EmptyFileIsCandidate(hashing);
    OneVersionIsRetired(RepairedDb(hashing), hashing.versionId(Key()));
  }

  /** Register a node, an artifact and a policy; push an empty file; repair it; retire it; collect. */
  ghost function History(hashing: Hashing): seq<Event> {
    [Catalog(RegisterNode(NODE, Active)), Catalog(NewArtifact(ARTIFACT)), Catalog(NewPolicy("policy", POLICY))]
    + [Upload(CreateSession("session", SESSION)), Upload(Finalize("session", EMPTY_FILE, 0.0, true))]
    + [Maintain(StartReplication("repair", hashing.versionId(Key()), 1)), Maintain(CompleteReplication("repair"))]
    + [Maintain(Retain("retire", "policy", true, 0.0))]
    + [Collect(GcStart("gc", NODE, false)), Collect(GcComplete)]
  }

  lemma ExecTwo(w: World, a: Event, b: Event)
    ensures Exec(w, [a, b]) == Step(Step(w, a), b)
  {
    ExecOne(w, a);
    assert [a, b][..1] == [a];
  }

  lemma SetUp(hashing: Hashing)
    ensures Exec(Start(hashing), [Catalog(RegisterNode(NODE, Active)), Catalog(NewArtifact(ARTIFACT)), Catalog(NewPolicy("policy", POLICY))])
            == Start(hashing).(db := CatalogDb(hashing))
  {
    NodeIsNamed();
    var first, rest := Catalog(RegisterNode(NODE, Active)), [Catalog(NewArtifact(ARTIFACT)), Catalog(NewPolicy("policy", POLICY))];
    ExecConcat(Start(hashing), [first], rest);
    ExecOne(Start(hashing), first);
    ExecTwo(Step(Start(hashing), first), rest[0], rest[1]);
    assert [first] + rest == [first, rest[0], rest[1]];
  }

  lemma CreatedDb(hashing: Hashing)
    ensures CreateUploadSession(CatalogDb(hashing), "session", SESSION).db == CatalogDb(hashing).(sessions := map["session" := SESSION])
  {
    NodeIsNamed();
  }

  lemma Work(w: World, hashing: Hashing)
    requires w.db == CatalogDb(hashing) && w.gc == Idle
    ensures var later := Exec(w, [Upload(CreateSession("session", SESSION)), Upload(Finalize("session", EMPTY_FILE, 0.0, true))]);
            later.db == PushedDb(hashing) && later.gc == Idle
  {
    ExecTwo(w, Upload(CreateSession("session", SESSION)), Upload(Finalize("session", EMPTY_FILE, 0.0, true)));
    CreatedDb(hashing);
    EmptyFileIsPushed(hashing);
    FinalizeEmpty(Step(w, Upload(CreateSession("session", SESSION))));
  }

  /** An empty layout has no replica to confirm. */
  lemma FinalizeEmpty(w: World)
    requires "session" in w.db.sessions
    ensures var later := UploadStep(w, Finalize("session", EMPTY_FILE, 0.0, true));
            later.db == FinalizeUpload(w.db, "session", EMPTY_FILE, 0.0).db && later.gc == w.gc
  {
    assert AllConfirmed(w, "session", EMPTY_FILE);
  }

  lemma Repair(w: World, hashing: Hashing)
    requires w.db == PushedDb(hashing)
    ensures Exec(w, [Maintain(StartReplication("repair", hashing.versionId(Key()), 1)), Maintain(CompleteReplication("repair"))])
            == w.(db := RepairedDb(hashing))
  {
    ExecTwo(w, Maintain(StartReplication("repair", hashing.versionId(Key()), 1)), Maintain(CompleteReplication("repair")));
    EmptyFileIsRepaired(hashing);
  }

  lemma Retire(w: World, hashing: Hashing)
    requires w.db == RepairedDb(hashing)
    ensures Exec(w, [Maintain(Retain("retire", "policy", true, 0.0))]) == w.(db := RetiredDb(hashing))
  {
    ExecOne(w, Maintain(Retain("retire", "policy", true, 0.0)));
    EmptyFileIsRetired(hashing);
  }

  ghost function CollectingDb(hashing: Hashing): Db {
    RetiredDb(hashing).(gcRuns := map["gc" := GcRun(NODE, false, true, NO_SWEEP)])
  }

  lemma CollectionStarts(hashing: Hashing)
    ensures StartGcRun(RetiredDb(hashing), "gc", NODE, false) == Reply(CollectingDb(hashing), Ok(GcRun(NODE, false, true, NO_SWEEP)))
  {
    NodeIsNamed();
  }

  lemma CollectionIsStuck(hashing: Hashing)
    ensures Stuck(CollectingDb(hashing), "gc")
  {
    var db := CollectingDb(hashing);
    assert !Live(db, hashing.layoutId(EMPTY_FILE));
    assert "repair" in db.replicationRuns && db.replicationRuns["repair"].layoutId in DeadLayouts(db);
  }

  lemma CollectGetsStuck(w: World, hashing: Hashing)
    requires w.db == RetiredDb(hashing) && w.gc == Idle
    ensures Stuck(Exec(w, [Collect(GcStart("gc", NODE, false)), Collect(GcComplete)]).db, "gc")
  {
    ExecTwo(w, Collect(GcStart("gc", NODE, false)), Collect(GcComplete));
    CollectionStarts(hashing);
    CollectionIsStuck(hashing);
    StuckCompletion(w.(db := CollectingDb(hashing), gc := Collecting("gc", NODE, false, {})));
  }

  lemma StuckCompletion(w: World)
    requires Stuck(w.db, "gc") && w.gc == Collecting("gc", NODE, false, {})
    ensures CollectStep(w, GcComplete).db == w.db
  {
    CompleteGcOutcome(w.db, "gc");
  }

  /** The defect is real: from an empty deployment, whatever the hash functions, ten ordinary calls
      lead to a GC run that can never be completed, and that stays so for ever. */
  lemma StuckIsReachable(hashing: Hashing, events: seq<Event>)
    ensures Stuck(Exec(Start(hashing), History(hashing)).db, "gc")
    ensures Stuck(Exec(Exec(Start(hashing), History(hashing)), events).db, "gc")
  {
    var setUp := [Catalog(RegisterNode(NODE, Active)), Catalog(NewArtifact(ARTIFACT)), Catalog(NewPolicy("policy", POLICY))];
    var push := [Upload(CreateSession("session", SESSION)), Upload(Finalize("session", EMPTY_FILE, 0.0, true))];
    var repair := [Maintain(StartReplication("repair", hashing.versionId(Key()), 1)), Maintain(CompleteReplication("repair"))];
    var retire := [Maintain(Retain("retire", "policy", true, 0.0))];
    var collect := [Collect(GcStart("gc", NODE, false)), Collect(GcComplete)];
    var w := Start(hashing);
    ExecConcat(w, setUp + push + repair + retire, collect);
    ExecConcat(w, setUp + push + repair, retire);
    ExecConcat(w, setUp + push, repair);
    ExecConcat(w, setUp, push);
    SetUp(hashing);
    Work(w.(db := CatalogDb(hashing)), hashing);
    var pushed := Exec(w, setUp + push);
    Repair(pushed, hashing);
    Retire(pushed.(db := RepairedDb(hashing)), hashing);
    CollectGetsStuck(pushed.(db := RetiredDb(hashing)), hashing);
    ReachableWorldsSatisfyInv(hashing, History(hashing));
    StuckForever(Exec(w, History(hashing)), events, "gc");
  }
}
