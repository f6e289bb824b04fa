/** Theorems about whole runs of the control plane: any number of pushes, aborts, garbage collections
    with crashes and resumptions, repairs and lifecycle runs, interleaved in any order. */
module Runs {
  import opened Common
  import opened ObjectLayouts
  import opened Tables
  import opened Outcomes
  import opened Invariant
  import opened Evolution
  import opened ControlPlane

  lemma {:induction false} ExecKeepsInv(w: World, events: seq<Event>)
    requires Inv(w)
    ensures Inv(Exec(w, events))
  {
    if events != [] {
      ExecKeepsInv(w, events[..|events| - 1]);
      StepKeepsInv(Exec(w, events[..|events| - 1]), events[|events| - 1]);
    }
  }

  lemma {:induction false} ExecConcat(w: World, first: seq<Event>, second: seq<Event>)
    ensures Exec(w, first + second) == Exec(Exec(w, first), second)
  {
    if second == [] {
      assert first + second == first;
    } else {
      var rest := second[..|second| - 1];
      ExecConcat(w, first, rest);
      assert (first + second)[..|first + second| - 1] == first + rest;
    }
  }

  lemma ExecOne(w: World, a: Event)
    ensures Exec(w, [a]) == Step(w, a)
  {
    assert [a][..0] == [];
  }

  /** The invariant holds in every world that can be reached from an empty deployment. */
  lemma ReachableWorldsSatisfyInv(hashing: Hashing, events: seq<Event>)
    ensures Inv(Exec(Start(hashing), events))
  {
    StartSatisfiesInv(hashing);
    ExecKeepsInv(Start(hashing), events);
  }

  // ---------------------------------------------------------------------------------------------
  // What is never forgotten
  // ---------------------------------------------------------------------------------------------

  ghost predicate CommitsRemembered(w: World, later: World) {
    && w.pushed <= later.pushed
    && forall s | s in w.db.sessions && w.db.sessions[s].state.Committed? && s in w.committed ::
         s in later.committed && later.committed[s] == w.committed[s]
  }

  ghost predicate Remembers(w: World, later: World) {
    && later.db.hashing == w.db.hashing
    && SessionsEvolve(w.db.sessions, later.db.sessions)
    && VersionsEvolve(w.db.versions, later.db.versions)
    && w.db.retired <= later.db.retired
    && LayoutsPersist(w.db.versions, w.db.layouts, later.db.retired, later.db.layouts)
    && RunsEvolve(w.db.gcRuns, later.db.gcRuns)
    && ReplicationsEvolve(w.db.replicationRuns, later.db.replicationRuns)
    && CommitsRemembered(w, later)
  }

  lemma StepRemembers(w: World, e: Event)
    requires Valid(w.db)
    ensures Remembers(w, Step(w, e))
  {
    StepEvolves(w, e);
    StepRemembersCommits(w, e);
  }

  lemma StepRemembersCommits(w: World, e: Event)
    ensures CommitsRemembered(w, Step(w, e))
  {
    if e.Upload? && e.upload.Finalize? {
      FinalizeStepOutcome(w, e.upload.sessionId, e.upload.descriptor, e.upload.now, e.upload.byPush);
    }
  }

  lemma RemembersLonger(w: World, mid: World, later: World)
    requires Remembers(w, mid) && Remembers(mid, later)
    ensures Remembers(w, later)
  {
    forall l | l in w.db.layouts && ObjectInUse(w.db.versions, later.db.retired, w.db.layouts[l].objectId)
      ensures l in later.db.layouts && later.db.layouts[l] == w.db.layouts[l]
    {
      var objectId := w.db.layouts[l].objectId;
      var v :| v in w.db.versions && v !in later.db.retired && w.db.versions[v].key.rootObjectId == objectId;
      assert v !in mid.db.retired && v in mid.db.versions && mid.db.versions[v] == w.db.versions[v];
      assert ObjectInUse(w.db.versions, mid.db.retired, objectId);
      assert ObjectInUse(mid.db.versions, later.db.retired, mid.db.layouts[l].objectId);
    }
  }

  lemma {:induction false} ExecRemembers(w: World, events: seq<Event>)
    requires Inv(w)
    ensures Remembers(w, Exec(w, events))
  {
    if events != [] {
      var before := events[..|events| - 1];
      ExecRemembers(w, before);
      ExecKeepsInv(w, before);
      StepRemembers(Exec(w, before), events[|events| - 1]);
      RemembersLonger(w, Exec(w, before), Exec(w, events));
    }
  }

  // ---------------------------------------------------------------------------------------------
  // Durability
  // ---------------------------------------------------------------------------------------------

  /** Once a push has committed a version, every chunk of its layout stays on every replica node chosen
      for the session until the version is retired, whatever happens in between. */
  lemma CommittedPushIsDurable(hashing: Hashing, before: seq<Event>, after: seq<Event>, s: SessionId)
    requires s in Exec(Start(hashing), before).pushed
    ensures var w := Exec(Start(hashing), before);
            var later := Exec(w, after);
            && s in w.db.sessions && s in w.committed
            && s in later.db.sessions && later.db.sessions[s] == w.db.sessions[s]
            && s in later.committed && later.committed[s] == w.committed[s]
            && (StillActive(later.db, s) ==> Durable(later, s))
  {
    var w := Exec(Start(hashing), before);
    ReachableWorldsSatisfyInv(hashing, before);
    ExecKeepsInv(w, after);
    ExecRemembers(w, after);
  }

  /** As long as some version of an object is not retired, every layout of that object stays in the
      database and stays live, with its object row and all its chunk rows. */
  lemma LayoutsOfActiveVersionsStay(w: World, events: seq<Event>, v: VersionId, l: LayoutId)
    requires Inv(w) && v in w.db.versions && l in w.db.layouts
    requires w.db.layouts[l].objectId == w.db.versions[v].key.rootObjectId
    requires v !in Exec(w, events).db.retired
    ensures var later := Exec(w, events).db;
            && l in later.layouts && later.layouts[l] == w.db.layouts[l]
            && Live(later, l)
            && LayoutRowOk(later.hashing, later.objects, later.chunks, l, later.layouts[l])
  {
    var later := Exec(w, events).db;
    ExecKeepsInv(w, events);
    ExecRemembers(w, events);
    assert ObjectInUse(w.db.versions, later.retired, w.db.layouts[l].objectId);
    assert later.versions[v] == w.db.versions[v];
    assert ObjectInUse(later.versions, later.retired, later.layouts[l].objectId);
  }

  /** Deletions spare the chunks of live layouts. */
  lemma CollectKeepsReplica(w: World, e: GcEvent, l: LayoutId, c: ChunkId, n: NodeId)
    requires EngineOk(w) && Live(w.db, l) && HasChunk(w.db.layouts[l], c) && (n, c) in w.disk
    ensures (n, c) in CollectStep(w, e).disk
  {
    if e.GcDelete? && w.gc.Collecting? && e.chunkId in w.gc.pending {
      assert Collectible(w.db, e.chunkId);
    }
  }

  lemma StepKeepsReplica(w: World, e: Event, l: LayoutId, c: ChunkId, n: NodeId)
    requires EngineOk(w) && Live(w.db, l) && HasChunk(w.db.layouts[l], c) && (n, c) in w.disk
    ensures (n, c) in Step(w, e).disk
  {
    if e.Collect? {
      CollectKeepsReplica(w, e.collect, l, c, n);
    }
  }

  /** A replica of a chunk, once stored, stays on its node as long as some active version has a layout
      with that chunk, whoever stored it. */
  lemma {:induction false} ReplicasOfActiveVersionsStay(w: World, events: seq<Event>, v: VersionId, l: LayoutId, c: ChunkId, n: NodeId)
    requires Inv(w) && v in w.db.versions && l in w.db.layouts
    requires w.db.layouts[l].objectId == w.db.versions[v].key.rootObjectId
    requires HasChunk(w.db.layouts[l], c) && (n, c) in w.disk
    requires v !in Exec(w, events).db.retired
    ensures (n, c) in Exec(w, events).disk
  {
    if events != [] {
      var before := events[..|events| - 1];
      var mid := Exec(w, before);
      ExecKeepsInv(w, before);
      StepEvolves(mid, events[|events| - 1]);
      ReplicasOfActiveVersionsStay(w, before, v, l, c, n);
      LayoutsOfActiveVersionsStay(w, before, v, l);
      StepKeepsReplica(mid, events[|events| - 1], l, c, n);
    }
  }

  // ---------------------------------------------------------------------------------------------
  // Retrying a finalization
  // ---------------------------------------------------------------------------------------------

  /** In every reachable world, finalizing a committed session again changes nothing. While its version
      is not retired the retry succeeds exactly with the descriptor of the first finalization, and
      then repeats the first answer. */
  lemma FinalizeRetry(w: World, s: SessionId, d: Descriptor, now: real)
    requires Inv(w) && s in w.db.sessions && w.db.sessions[s].state.Committed?
    ensures s in w.committed
    ensures var reply := FinalizeUpload(w.db, s, d, now);
            var session := w.db.sessions[s];
            && reply.db == w.db
            && (reply.result.Ok? <==> session.state.versionId !in w.db.retired && d == w.committed[s])
            && (reply.result.Ok? ==>
                  reply.result.value == Finalized(s, session.state.versionId, d.objectId, w.db.hashing.layoutId(d)))
            && (reply.result.Err? ==> reply.result.error in {VersionRetired, Conflict})
            && (session.state.versionId in w.db.retired && d == w.committed[s] ==> reply.result == Err(VersionRetired))
  {
    assert CommittedRowOk(w.db, s, w.committed[s]);
    if s in w.db.finalizations && w.db.finalizations[s].Some? && w.db.finalizations[s].value in w.db.layouts {
      assert LayoutRowOk(w.db.hashing, w.db.objects, w.db.chunks, w.db.finalizations[s].value,
                         w.db.layouts[w.db.finalizations[s].value]);
    }
  }

  /** What a session answered when it was committed, it answers for ever after, until retirement. */
  lemma FirstAnswerIsRepeated(w: World, s: SessionId, d: Descriptor, first: real, byPush: bool, events: seq<Event>, now: real)
    requires Inv(w) && Commits(w.db, s, d) && (byPush ==> AllConfirmed(w, s, d))
    requires w.db.hashing.versionId(KeyOf(w.db.sessions[s], d)) !in Exec(AfterCommit(w, s, d, first, byPush), events).db.retired
    ensures var later := Exec(AfterCommit(w, s, d, first, byPush), events).db;
            FinalizeUpload(later, s, d, now) == Reply(later, FinalizeUpload(w.db, s, d, first).result)
  {
    var committed := AfterCommit(w, s, d, first, byPush);
    var later := Exec(committed, events);
    CommitKeepsInv(w, s, d, first, byPush);
    ExecKeepsInv(committed, events);
    ExecRemembers(committed, events);
    CommitAnswer(w.db, s, d, first);
    SessionStaysCommitted(committed, later, s, d, w.db.hashing.versionId(KeyOf(w.db.sessions[s], d)));
    FinalizeRetry(later, s, d, now);
  }

  lemma CommitAnswer(db: Db, s: SessionId, d: Descriptor, now: real)
    requires Commits(db, s, d)
    ensures var versionId := db.hashing.versionId(KeyOf(db.sessions[s], d));
            FinalizeUpload(db, s, d, now).result == Ok(Finalized(s, versionId, d.objectId, db.hashing.layoutId(d)))
  {
  }

  lemma SessionStaysCommitted(w: World, later: World, s: SessionId, d: Descriptor, v: VersionId)
    requires s in w.db.sessions && w.db.sessions[s].state == Committed(v) && s in w.committed && w.committed[s] == d
    requires Remembers(w, later)
    ensures s in later.db.sessions && later.db.sessions[s] == w.db.sessions[s]
    ensures s in later.committed && later.committed[s] == d
    ensures later.db.hashing == w.db.hashing
  {
  }

  // ---------------------------------------------------------------------------------------------
  // Exclusion
  // ---------------------------------------------------------------------------------------------

  /** At most one GC run is open, and while one is, no upload session and no replication run is. */
  lemma OpenGcRunsAreAlone(w: World, r: RunId)
    requires Inv(w) && r in w.db.gcRuns && w.db.gcRuns[r].open
    ensures forall q | q in w.db.gcRuns && w.db.gcRuns[q].open :: q == r
    ensures forall s | s in w.db.sessions :: !w.db.sessions[s].state.Open?
    ensures forall q | q in w.db.replicationRuns :: !w.db.replicationRuns[q].open
  {
    assert GcOpen(w.db.gcRuns);
  }

  /** The guards of the completing steps never fire, and a replication run never loses its layout. */
  lemma CompletionGuardsNeverFire(w: World, r: RunId)
    requires Inv(w)
    ensures CompleteGcRun(w.db, r).result != Err(OpenUploadSessions)
    ensures CompleteReplicationRun(w.db, r).result != Err(GcInProgress)
    ensures CompleteReplicationRun(w.db, r).result != Err(LayoutNotLoaded)
    ensures GetReplicationPlan(w.db, r) != Err(LayoutNotLoaded)
  {
    assert r in w.db.gcRuns && w.db.gcRuns[r].open ==> GcOpen(w.db.gcRuns);
    assert r in w.db.replicationRuns && w.db.replicationRuns[r].open ==> ReplicationOpen(w.db.replicationRuns);
  }

  lemma {:induction false} LivenessFrozen(w: World, events: seq<Event>, r: RunId)
    requires Inv(w) && r in w.db.gcRuns && w.db.gcRuns[r].open
    requires r in Exec(w, events).db.gcRuns && Exec(w, events).db.gcRuns[r].open
    ensures SameLiveness(w.db, Exec(w, events).db)
  {
    if events != [] {
      var mid := Exec(w, events[..|events| - 1]);
      var e := events[|events| - 1];
      ExecKeepsInv(w, events[..|events| - 1]);
      ExecRemembers(w, events[..|events| - 1]);
      StepEvolves(mid, e);
      LivenessFrozen(w, events[..|events| - 1], r);
      assert GcOpen(mid.db.gcRuns) && GcOpen(Step(mid, e).db.gcRuns);
    }
  }

  /** While a GC run stays open, through any number of other steps, no layout becomes live or dead, no
      chunk becomes or stops being collectible, and a classification gives the same answers. */
  lemma GcDecisionsAreStable(w: World, events: seq<Event>, r: RunId, page: seq<ChunkId>)
    requires Inv(w) && r in w.db.gcRuns && w.db.gcRuns[r].open
    requires r in Exec(w, events).db.gcRuns && Exec(w, events).db.gcRuns[r].open
    ensures var later := Exec(w, events).db;
            && (forall l :: Live(later, l) <==> Live(w.db, l))
            && (forall c :: Collectible(later, c) <==> Collectible(w.db, c))
            && ClassifyGcChunks(later, r, page) == ClassifyGcChunks(w.db, r, page)
  {
    LivenessFrozen(w, events, r);
    LivenessDecides(w.db, Exec(w, events).db, r, page);
  }

  lemma LivenessDecides(db: Db, later: Db, r: RunId, page: seq<ChunkId>)
    requires SameLiveness(db, later)
    requires r in db.gcRuns && db.gcRuns[r].open && r in later.gcRuns && later.gcRuns[r].open
    ensures forall l :: Live(later, l) <==> Live(db, l)
    ensures forall c :: Collectible(later, c) <==> Collectible(db, c)
    ensures ClassifyGcChunks(later, r, page) == ClassifyGcChunks(db, r, page)
  {
    assert forall l :: Live(later, l) <==> Live(db, l);
    forall c
      ensures Collectible(later, c) <==> Collectible(db, c)
    {
    }
    if ClassifyGcChunks(db, r, page).Ok? {
      assert ClassifyGcChunks(later, r, page).value == ClassifyGcChunks(db, r, page).value;
    }
  }

  // ---------------------------------------------------------------------------------------------
  // Retirement
  // ---------------------------------------------------------------------------------------------

  /** A retired version stays retired, keeps its row, and is never again pinned, tagged, referenced by
      a manifest or replicated. */
  lemma RetirementIsTerminal(w: World, events: seq<Event>, v: VersionId)
    requires Inv(w) && v in w.db.retired
    ensures var later := Exec(w, events).db;
            && v in later.retired && v in later.versions && later.versions[v] == w.db.versions[v]
            && v !in later.pins && v !in later.tags.Values && !ManifestReferences(later, v)
            && forall r | r in later.replicationRuns && later.replicationRuns[r].open :: later.replicationRuns[r].versionId != v
  {
    var later := Exec(w, events).db;
    ExecKeepsInv(w, events);
    ExecRemembers(w, events);
    RetiredMeansFree(later, v);
  }

  lemma RetiredMeansFree(db: Db, v: VersionId)
    requires RetirementTerminal(db.retired, db.pins, db.tags, db.manifests, db.replicationRuns) && v in db.retired
    ensures v !in db.pins && v !in db.tags.Values && !ManifestReferences(db, v)
  {
    forall m | m in db.manifests
      ensures v !in db.manifests[m].Values
    {
      ValuesAreEntries(db.manifests[m], v);
    }
  }

  lemma ValuesAreEntries(entries: map<string, VersionId>, v: VersionId)
    ensures v in entries.Values <==> exists role :: role in entries && entries[role] == v
  {
  }
}
