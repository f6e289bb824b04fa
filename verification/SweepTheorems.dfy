/** What the metadata sweep of a GC run keeps and removes
    (`sweep_gc_metadata`, `count_gc_metadata_sweep_candidates`). */
module SweepTheorems {
  import opened Common
  import opened Ordering
  import opened Tables
  import opened Invariant

  /** The set of live layouts is the same before and after. */
  lemma SweepKeepsLiveness(db: Db, node: NodeId, l: LayoutId)
    ensures Live(Sweep(db, node), l) <==> Live(db, l)
    ensures Live(db, l) ==> Sweep(db, node).layouts[l] == db.layouts[l]
  {
    var dead := DeadLayouts(WithoutLocations(db, node));
    assert dead == DeadLayouts(db);
    var after := Sweep(db, node);
    assert after.layouts == db.layouts - dead;
    if l in db.layouts && FinalizedInUse(db.sessions, db.finalizations, db.retired, l) {
      var s :| && s in db.sessions && s in db.finalizations && db.finalizations[s] == Some(l)
               && db.sessions[s].state.Committed? && db.sessions[s].state.versionId !in db.retired;
      assert l !in dead;
      assert after.finalizations[s] == Some(l);
    }
    if FinalizedInUse(after.sessions, after.finalizations, after.retired, l) {
      var s :| && s in after.sessions && s in after.finalizations && after.finalizations[s] == Some(l)
               && after.sessions[s].state.Committed? && after.sessions[s].state.versionId !in after.retired;
      assert db.finalizations[s] == Some(l);
    }
  }

  /** Nothing a live layout needs is removed: its object row, its chunk rows, and the locations of its
      chunks on every node. */
  lemma SweepKeepsWhatLiveLayoutsNeed(db: Db, node: NodeId, l: LayoutId)
    requires Valid(db) && Live(db, l)
    ensures var after := Sweep(db, node);
            var d := db.layouts[l];
            && l in after.layouts && after.layouts[l] == d
            && d.objectId in after.objects && after.objects[d.objectId] == db.objects[d.objectId]
            && forall i | 0 <= i < |d.chunks| ::
                 var c := d.chunks[i].chunkId;
                 && c in after.chunks && after.chunks[c] == db.chunks[c]
                 && forall n :: (c, n) in db.locations <==> (c, n) in after.locations
  {
    var after := Sweep(db, node);
    var d := db.layouts[l];
    SweepKeepsLiveness(db, node, l);
    assert LayoutRowOk(db.hashing, db.objects, db.chunks, l, d);
    forall i | 0 <= i < |d.chunks|
      ensures d.chunks[i].chunkId in after.chunks
      ensures forall n :: (d.chunks[i].chunkId, n) in db.locations <==> (d.chunks[i].chunkId, n) in after.locations
    {
      var c := d.chunks[i].chunkId;
      assert HasChunk(d, c);
      assert !Collectible(db, c);
      assert Referenced(WithoutOrphanObjects(WithoutDeadLayouts(WithoutLocations(db, node))), c);
    }
  }

  /** After a sweep nothing is left to sweep on that node. */
  lemma SweepIsComplete(db: Db, node: NodeId)
    ensures var after := Sweep(db, node);
            && SweptLocations(after, node) == {}
            && DeadLayouts(after) == {}
            && OrphanObjects(after) == {}
            && OrphanChunks(after) == {}
  {
    var after := Sweep(db, node);
    forall l | l in after.layouts
      ensures Live(after, l)
    {
      SweepKeepsLiveness(db, node, l);
      assert DeadLayouts(WithoutLocations(db, node)) == DeadLayouts(db);
    }
    forall key | key in after.locations && key.1 == node
      ensures !Collectible(after, key.0)
    {
      var l :| l in db.layouts && HasChunk(db.layouts[l], key.0) && Live(db, l);
      SweepKeepsLiveness(db, node, l);
    }
    NoOrphanObjects(WithoutDeadLayouts(WithoutLocations(db, node)));
    NoOrphanChunks(WithoutOrphanObjects(WithoutDeadLayouts(WithoutLocations(db, node))));
  }

  lemma NoOrphanObjects(db: Db)
    ensures OrphanObjects(WithoutOrphanObjects(db)) == {}
    ensures OrphanObjects(WithoutOrphanChunks(WithoutOrphanObjects(db))) == {}
  {
  }

  lemma NoOrphanChunks(db: Db)
    ensures OrphanChunks(WithoutOrphanChunks(db)) == {}
  {
    var after := WithoutOrphanChunks(db);
    forall c | c in after.chunks
      ensures Referenced(after, c) || Located(after, c)
    {
      assert Referenced(db, c) || Located(db, c);
    }
  }

  /** A second sweep of the same node changes nothing and counts nothing. */
  lemma SecondSweepDoesNothing(db: Db, node: NodeId)
    ensures var after := Sweep(db, node);
            Sweep(after, node) == after && SweepCounts(after, node) == NO_SWEEP
  {
    SweepIsComplete(db, node);
    EmptySweep(Sweep(db, node), node);
  }

  lemma EmptySweep(db: Db, node: NodeId)
    requires SweptLocations(db, node) == {} && DeadLayouts(db) == {} && OrphanObjects(db) == {} && OrphanChunks(db) == {}
    ensures Sweep(db, node) == db && SweepCounts(db, node) == NO_SWEEP
  {
    assert db.locations - {} == db.locations && db.objects - {} == db.objects && db.chunks - {} == db.chunks;
    assert WithoutLocations(db, node) == db;
    NothingDead(db);
    assert WithoutOrphanObjects(db) == db;
    assert WithoutOrphanChunks(db) == db;
  }

  lemma NothingDead(db: Db)
    requires DeadLayouts(db) == {}
    ensures WithoutDeadLayouts(db) == db
  {
    assert db.layouts - {} == db.layouts;
    assert Cleared(db.finalizations, {}) == db.finalizations;
  }

  /** A dry run reports the numbers of locations and layouts that the sweep would remove; for objects
      and chunk rows it reports lower bounds, because removing layouts and locations orphans more. */
  lemma DryRunBounds(db: Db, node: NodeId)
    ensures var dry, real' := DryRunCounts(db, node), SweepCounts(db, node);
            && dry.locations == real'.locations
            && dry.layouts == real'.layouts
            && dry.objects <= real'.objects
            && dry.chunkRows <= real'.chunkRows
  {
    var db1 := WithoutLocations(db, node);
    var db2 := WithoutDeadLayouts(db1);
    var db3 := WithoutOrphanObjects(db2);
    assert DeadLayouts(db1) == DeadLayouts(db);
    assert OrphanObjects(db) <= OrphanObjects(db2);
    SubsetSize(OrphanObjects(db), OrphanObjects(db2));
    forall c | c in OrphanChunks(db)
      ensures c in OrphanChunks(db3)
    {
      assert Referenced(db3, c) ==> Referenced(db, c);
      assert Located(db3, c) ==> Located(db, c);
    }
    SubsetSize(OrphanChunks(db), OrphanChunks(db3));
  }

  /** Nothing is left to sweep on the node, and the same layouts are live as before. */
  ghost predicate SweptClean(before: Db, after: Db, node: NodeId) {
    && SweptLocations(after, node) == {} && DeadLayouts(after) == {} && OrphanObjects(after) == {} && OrphanChunks(after) == {}
    && forall l :: Live(after, l) <==> Live(before, l)
  }

  ghost predicate AtLeast(stats: SweepStats, dry: SweepStats) {
    && stats.locations == dry.locations && stats.layouts == dry.layouts
    && stats.objects >= dry.objects && stats.chunkRows >= dry.chunkRows
  }

  /** The record of the run does not matter to what is live, referenced or located. */
  lemma RecordDoesNotMatter(db: Db, runs: map<RunId, GcRun>, node: NodeId)
    ensures var later := db.(gcRuns := runs);
            && SweptLocations(later, node) == SweptLocations(db, node) && DeadLayouts(later) == DeadLayouts(db)
            && OrphanObjects(later) == OrphanObjects(db) && OrphanChunks(later) == OrphanChunks(db)
            && (forall l :: Live(later, l) <==> Live(db, l))
            && (forall c :: Collectible(later, c) <==> Collectible(db, c))
  {
    var later := db.(gcRuns := runs);
    assert forall l :: Live(later, l) <==> Live(db, l);
    assert forall c :: Collectible(later, c) <==> Collectible(db, c);
    assert forall c :: Referenced(later, c) <==> Referenced(db, c);
    assert forall c :: Located(later, c) <==> Located(db, c);
  }

  /** A completed apply run has swept its node clean and counted no less than a dry run would have. */
  lemma CompletedRunSweptClean(db: Db, runId: RunId)
    requires runId in db.gcRuns && db.gcRuns[runId].open && !db.gcRuns[runId].dryRun && CompleteGcRun(db, runId).result.Ok?
    ensures var node := db.gcRuns[runId].node;
            && SweptClean(db, CompleteGcRun(db, runId).db, node)
            && AtLeast(CompleteGcRun(db, runId).result.value.stats, DryRunCounts(db, node))
  {
    hide Sweep, SweptLocations, DeadLayouts, OrphanObjects, OrphanChunks, Live, DryRunCounts, SweepCounts;
    var node := db.gcRuns[runId].node;
    var swept := Sweep(db, node);
    SweepIsComplete(db, node);
    DryRunBounds(db, node);
    RecordDoesNotMatter(swept, CompleteGcRun(db, runId).db.gcRuns, node);
    forall l
      ensures Live(swept, l) <==> Live(db, l)
    {
      SweepKeepsLiveness(db, node, l);
    }
  }
}
