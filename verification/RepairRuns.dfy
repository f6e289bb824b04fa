/** The plan of a replication run, and that a repair which has carried it out is never refused at the end. */
module RepairRuns {
  import opened Common
  import opened Ordering
  import opened ObjectLayouts
  import opened Tables
  import opened Outcomes
  import opened Invariant
  import opened Evolution
  import opened ControlPlane
  import opened Runs
  import opened OpenWork
  import Placement

  // ---------------------------------------------------------------------------------------------
  // The plan
  // ---------------------------------------------------------------------------------------------

  function ReplicaCount(plan: seq<ChunkPlan>): nat {
    if plan == [] then 0 else ReplicaCount(plan[..|plan| - 1]) + |plan[|plan| - 1].desired|
  }

  lemma {:induction false} ReplicaCountIsProduct(plan: seq<ChunkPlan>, replicationFactor: nat)
    requires forall i | 0 <= i < |plan| :: |plan[i].desired| == replicationFactor
    ensures ReplicaCount(plan) == |plan| * replicationFactor
  {
    if plan != [] {
      ReplicaCountIsProduct(plan[..|plan| - 1], replicationFactor);
    }
  }

  lemma TargetsAreNodes(db: Db, run: ReplicationRun, c: ChunkId)
    requires Placement.ValidReplication(run.placement, run.replicationFactor)
    ensures |Targets(db, run, c)| == run.replicationFactor && Placement.DistinctNodes(Targets(db, run, c))
    ensures forall n | n in Targets(db, run, c) :: Placement.IsNodeId(n)
  {
    Placement.SortedNodeIdsDistinct(run.placement);
    Placement.SelectionIsTop(db.hashing.digest, c, run.placement, run.replicationFactor);
    assert forall n | n in Targets(db, run, c) :: n in Elements(Targets(db, run, c)) && n in Elements(run.placement);
  }

  /** A plan lists every chunk of the layout, with a chunk row of that size, on `replicationFactor`
      distinct nodes that are not disabled; exactly the nodes that can serve the chunk are its sources. */
  lemma PlanIsSound(db: Db, r: RunId)
    requires Valid(db) && GetReplicationPlan(db, r).Ok?
    ensures var plan := GetReplicationPlan(db, r).value;
            var run := db.replicationRuns[r];
            var chunks := db.layouts[run.layoutId].chunks;
            && |plan| == |chunks| && ReplicaCount(plan) == |chunks| * run.replicationFactor
            && forall i | 0 <= i < |plan| ::
                 && plan[i].chunkId == chunks[i].chunkId && plan[i].size == chunks[i].size
                 && plan[i].chunkId in db.chunks && db.chunks[plan[i].chunkId] == plan[i].size
                 && |plan[i].desired| == run.replicationFactor && Placement.DistinctNodes(plan[i].desired)
                 && plan[i].desired == Placement.Select(db.hashing.digest, plan[i].chunkId, run.placement, run.replicationFactor)
                 && (forall n | n in plan[i].desired :: Placement.IsNodeId(n) && n in db.nodes && db.nodes[n] != Disabled)
                 && (forall n :: n in plan[i].sources <==>
                       && (plan[i].chunkId, n) in db.locations && db.locations[(plan[i].chunkId, n)] == Available
                       && n in db.nodes && db.nodes[n] != Disabled)
  {
    var plan := GetReplicationPlan(db, r).value;
    var run := db.replicationRuns[r];
    var chunks := db.layouts[run.layoutId].chunks;
    assert LayoutRowOk(db.hashing, db.objects, db.chunks, run.layoutId, db.layouts[run.layoutId]);
    forall i | 0 <= i < |plan|
      ensures |plan[i].desired| == run.replicationFactor && Placement.DistinctNodes(plan[i].desired)
      ensures forall n | n in plan[i].desired :: Placement.IsNodeId(n) && ReadableNode(db, n)
      ensures forall n :: n in plan[i].sources <==> IsAvailable(db, plan[i].chunkId, n) && ReadableNode(db, n)
    {
      TargetsAreNodes(db, run, chunks[i].chunkId);
      assert TargetsReadable(db, run, chunks[i].chunkId);
      SourcesMean(db, chunks[i].chunkId);
    }
    ReplicaCountIsProduct(plan, run.replicationFactor);
  }

  /** The plan of an open run is given if and only if every selected node is registered and not disabled. */
  lemma PlanGivenIff(db: Db, r: RunId)
    requires Valid(db)
    ensures GetReplicationPlan(db, r).Ok? <==>
              && r in db.replicationRuns && db.replicationRuns[r].open
              && var run := db.replicationRuns[r];
              forall i, n | 0 <= i < |db.layouts[run.layoutId].chunks|
                            && n in Placement.Select(db.hashing.digest, db.layouts[run.layoutId].chunks[i].chunkId, run.placement, run.replicationFactor) ::
                n in db.nodes && db.nodes[n] != Disabled
  {
    hide Valid, TargetsReadable;
    if r in db.replicationRuns {
      var run := db.replicationRuns[r];
      LayoutIsThere(db, r);
      forall c
        ensures TargetsReadable(db, run, c) <==>
                forall n | n in Placement.Select(db.hashing.digest, c, run.placement, run.replicationFactor) ::
                  n in db.nodes && db.nodes[n] != Disabled
      {
        TargetsReadableMeans(db, run, c);
      }
    }
  }

  lemma LayoutIsThere(db: Db, r: RunId)
    requires Valid(db) && r in db.replicationRuns
    ensures db.replicationRuns[r].layoutId in db.layouts
  {
  }

  lemma TargetsReadableMeans(db: Db, run: ReplicationRun, c: ChunkId)
    ensures TargetsReadable(db, run, c) <==>
            forall n | n in Placement.Select(db.hashing.digest, c, run.placement, run.replicationFactor) ::
              n in db.nodes && db.nodes[n] != Disabled
  {
    assert forall n :: ReadableNode(db, n) <==> n in db.nodes && db.nodes[n] != Disabled;
  }

  lemma SourcesMean(db: Db, c: ChunkId)
    ensures forall n :: n in Enumeration(SourcesOf(db, c)) <==> IsAvailable(db, c, n) && ReadableNode(db, n)
  {
    forall n
      ensures n in Enumeration(SourcesOf(db, c)) <==> IsAvailable(db, c, n) && ReadableNode(db, n)
    {
      assert n in Enumeration(SourcesOf(db, c)) <==> n in Elements(Enumeration(SourcesOf(db, c)));
      if IsAvailable(db, c, n) && ReadableNode(db, n) {
        assert (c, n) in db.locations && (c, n).1 == n;
      }
    }
  }

  /** Right after its start the plan of a run is given, and every chunk has a source. */
  lemma FreshPlanHasSources(db: Db, r: RunId, versionId: VersionId, replicationFactor: nat)
    requires Valid(db) && r !in db.replicationRuns && StartReplicationRun(db, r, versionId, replicationFactor).result.Ok?
    ensures var started := StartReplicationRun(db, r, versionId, replicationFactor).db;
            var plan := GetReplicationPlan(started, r);
            plan.Ok? && forall i | 0 <= i < |plan.value| :: plan.value[i].sources != []
  {
    StartReplicationOutcome(db, r, versionId, replicationFactor);
    StartReplicationKeepsValid(db, r, versionId, replicationFactor);
    var started := StartReplicationRun(db, r, versionId, replicationFactor).db;
    var run := started.replicationRuns[r];
    var chunks := started.layouts[run.layoutId].chunks;
    forall i | 0 <= i < |chunks|
      ensures TargetsReadable(started, run, chunks[i].chunkId) && Enumeration(SourcesOf(started, chunks[i].chunkId)) != []
    {
      ActiveTargetsAreReadable(started, run, chunks[i].chunkId);
      assert chunks[i].chunkId in ChunkIds(started.layouts[run.layoutId]);
      RestorableHasSource(db, started, run.layoutId, chunks[i].chunkId);
    }
  }

  lemma RestorableHasSource(db: Db, started: Db, l: LayoutId, c: ChunkId)
    requires l in db.layouts && Restorable(db, db.layouts[l]) && c in ChunkIds(db.layouts[l])
    requires started.locations == db.locations && started.nodes == db.nodes
    ensures Enumeration(SourcesOf(started, c)) != []
  {
    SourcesMean(started, c);
    var n :| IsAvailable(db, c, n) && ReadableNode(db, n);
    assert IsAvailable(started, c, n) && ReadableNode(started, n);
  }

  lemma ActiveTargetsAreReadable(db: Db, run: ReplicationRun, c: ChunkId)
    requires run.placement == Enumeration(ActiveNodes(db)) && Placement.ValidReplication(run.placement, run.replicationFactor)
    ensures TargetsReadable(db, run, c)
  {
    Placement.SortedNodeIdsDistinct(run.placement);
    Placement.SelectionIsTop(db.hashing.digest, c, run.placement, run.replicationFactor);
    forall n | n in Targets(db, run, c)
      ensures ReadableNode(db, n)
    {
      assert n in Elements(Targets(db, run, c));
      assert n in Elements(run.placement);
    }
  }

  // ---------------------------------------------------------------------------------------------
  // Completion
  // ---------------------------------------------------------------------------------------------

  /** What a repair that follows its plan brings about, and what other clients must not undo. */
  ghost predicate PlanCarriedOut(db: Db, plan: seq<ChunkPlan>, events: seq<Event>) {
    forall i, n | 0 <= i < |plan| && n in plan[i].desired ::
      && Undisturbed(events, plan[i].chunkId, n)
      && (IsAvailable(db, plan[i].chunkId, n) || exists k | 0 <= k < |events| :: Registers(events[k], plan[i].chunkId, n, Available))
  }

  /** From any reachable state: if each desired replica of the plan is available or gets registered, and
      nobody downgrades one, then completing the run succeeds, whatever else happens in between. */
  lemma RepairCompletes(w: World, events: seq<Event>, r: RunId)
    requires Inv(w) && GetReplicationPlan(w.db, r).Ok?
    requires PlanCarriedOut(w.db, GetReplicationPlan(w.db, r).value, events)
    ensures CompleteReplicationRun(Exec(w, events).db, r).result == Ok(w.db.replicationRuns[r].(open := false))
  {
    var later := Exec(w, events).db;
    ExecKeepsInv(w, events);
    ExecRemembers(w, events);
    if WorkOpen(later, Repairing(r)) {
      OpenWorkIsUndisturbed(w, events, Repairing(r));
      PlanIsSound(w.db, r);
      var plan := GetReplicationPlan(w.db, r).value;
      var run := w.db.replicationRuns[r];
      forall i, n | 0 <= i < |plan| && n in plan[i].desired
        ensures IsAvailable(later, plan[i].chunkId, n)
      {
        RegisteredIsAvailable(w, events, Repairing(r), plan[i].chunkId, n);
      }
      AvailablePlanCompletes(w.db, later, r);
    }
  }

  lemma AvailablePlanCompletes(db: Db, later: Db, r: RunId)
    requires GetReplicationPlan(db, r).Ok? && Valid(later) && WorkOpen(later, Repairing(r))
    requires later.hashing == db.hashing && later.replicationRuns[r] == db.replicationRuns[r] && RowsKept(db.layouts, later.layouts)
    requires var plan := GetReplicationPlan(db, r).value;
             forall i, n | 0 <= i < |plan| && n in plan[i].desired :: IsAvailable(later, plan[i].chunkId, n)
    ensures CompleteReplicationRun(later, r).result == Ok(db.replicationRuns[r].(open := false))
  {
    var run := db.replicationRuns[r];
    var chunks := db.layouts[run.layoutId].chunks;
    assert ReplicationOpen(later.replicationRuns);
    forall i | 0 <= i < |chunks|
      ensures ReplicasAvailable(later, run, chunks[i].chunkId)
    {
      PlanEntry(db, r, i);
      assert forall n | n in Targets(db, run, chunks[i].chunkId) :: IsAvailable(later, chunks[i].chunkId, n);
    }
    assert ReplicationSatisfied(later, run, later.layouts[run.layoutId]);
  }

  lemma PlanEntry(db: Db, r: RunId, i: nat)
    requires GetReplicationPlan(db, r).Ok? && i < |db.layouts[db.replicationRuns[r].layoutId].chunks|
    ensures var run := db.replicationRuns[r];
            GetReplicationPlan(db, r).value[i] == ChunkPlanOf(db, run, db.layouts[run.layoutId].chunks[i])
  {
  }
}
