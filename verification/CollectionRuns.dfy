/** A garbage collection run as a whole: what it was shown is on the node's disk afterwards if and only if it
    was there before and somebody needs it. */
module CollectionRuns {
  import opened Common
  import opened Tables
  import opened Calls
  import opened Outcomes
  import opened Invariant
  import opened ControlPlane
  import opened Runs

  /** The engine neither crashes nor completes its run, and nobody stores the chunk on the node. Everything
      else may happen, further pages included. */
  ghost predicate Undisturbed(e: Event, node: NodeId, c: ChunkId) {
    && e != Collect(GcCrash) && e != Collect(GcComplete)
    && (e.Upload? && (e.upload.StoreChunk? || e.upload.PushPut?) ==> e.upload.node != node || e.upload.chunkId != c)
  }

  ghost predicate AllUndisturbed(events: seq<Event>, node: NodeId, c: ChunkId) {
    forall k | 0 <= k < |events| :: Undisturbed(events[k], node, c)
  }

  /** The engine is at work on this very run. */
  ghost predicate Applies(w: World, r: RunId, node: NodeId) {
    w.gc.Collecting? && w.gc.runId == r && w.gc.node == node && !w.gc.dryRun
  }

  lemma StepKeepsEngine(w: World, e: Event, r: RunId, node: NodeId, c: ChunkId)
    requires Applies(w, r, node) && Undisturbed(e, node, c)
    ensures Applies(Step(w, e), r, node)
    ensures (node, c) in Step(w, e).disk ==> (node, c) in w.disk
    ensures c in w.gc.pending && (node, c) in Step(w, e).disk ==> c in Step(w, e).gc.pending
  {
    if e.Upload? {
      UploadKeepsEngine(w, e.upload, node, c);
    }
  }

  lemma UploadKeepsEngine(w: World, e: UploadEvent, node: NodeId, c: ChunkId)
    requires Undisturbed(Upload(e), node, c)
    ensures UploadStep(w, e).gc == w.gc
    ensures (node, c) in UploadStep(w, e).disk ==> (node, c) in w.disk
  {
    hide CreateUploadSession, AbortUploadSession, NegotiateChunks, FinalizeUpload, Commits, AllConfirmed;
  }

  lemma StepKeepsNeeded(w: World, e: Event, c: ChunkId, n: NodeId)
    requires EngineOk(w) && !Collectible(w.db, c) && (n, c) in w.disk
    ensures (n, c) in Step(w, e).disk
  {
    hide Collectible, CreateUploadSession, AbortUploadSession, NegotiateChunks, FinalizeUpload, Commits, AllConfirmed;
  }

  lemma EngineRunIsOpen(w: World, r: RunId, node: NodeId)
    requires Inv(w) && Applies(w, r, node)
    ensures r in w.db.gcRuns && w.db.gcRuns[r].open
  {
  }

  /** Whatever else happens, the run goes on, nothing becomes collectible or needed, a chunk waiting for its
      deletion keeps waiting until it is gone, and a needed one stays. */
  lemma {:induction false} RunGoesOn(w: World, events: seq<Event>, r: RunId, node: NodeId, c: ChunkId)
    requires Inv(w) && Applies(w, r, node) && AllUndisturbed(events, node, c)
    ensures var later := Exec(w, events);
            && Inv(later) && Applies(later, r, node)
            && (Collectible(later.db, c) <==> Collectible(w.db, c))
            && ((node, c) in later.disk ==> (node, c) in w.disk)
            && (c in w.gc.pending && (node, c) in later.disk ==> c in later.gc.pending)
            && ((node, c) in w.disk && !Collectible(w.db, c) ==> (node, c) in later.disk)
  {
    hide Inv, Step, Collectible, Undisturbed;
    if events != [] {
      var before, last := events[..|events| - 1], events[|events| - 1];
      var mid := Exec(w, before);
      RunGoesOn(w, before, r, node, c);
      StepKeepsEngine(mid, last, r, node, c);
      StepKeepsInv(mid, last);
      if (node, c) in w.disk && !Collectible(w.db, c) {
        EngineIsOk(mid);
        StepKeepsNeeded(mid, last, c, node);
      }
      EngineRunIsOpen(w, r, node);
      EngineRunIsOpen(Exec(w, events), r, node);
      GcDecisionsAreStable(w, events, r, []);
    }
  }

  lemma EngineIsOk(w: World)
    requires Inv(w)
    ensures EngineOk(w)
  {
  }

  /** The run starts, does anything at all, is shown the page with nothing left to delete, does anything at
      all again, and completes with nothing left to delete. */
  ghost predicate ShowsPage(w: World, r: RunId, node: NodeId, before: seq<Event>, page: seq<ChunkId>, after: seq<Event>) {
    var started := CollectStep(w, GcStart(r, node, false));
    var shown := Exec(started, before);
    && w.gc.Idle? && Applies(started, r, node)
    && shown.gc.Collecting? && shown.gc.pending == {} && ClassifyGcChunks(shown.db, r, page).Ok?
    && AfterPage(w, r, node, before, page, after).gc.Collecting? && AfterPage(w, r, node, before, page, after).gc.pending == {}
  }

  ghost function AfterPage(w: World, r: RunId, node: NodeId, before: seq<Event>, page: seq<ChunkId>, after: seq<Event>): World {
    Exec(CollectStep(Exec(CollectStep(w, GcStart(r, node, false)), before), GcClassify(page)), after)
  }

  lemma StartKeepsNeeds(w: World, r: RunId, node: NodeId, c: ChunkId)
    ensures var started := CollectStep(w, GcStart(r, node, false));
            started.disk == w.disk && (Needed(started.db, c) <==> Needed(w.db, c))
  {
    StartGcOutcome(w.db, r, node, false);
    var started := CollectStep(w, GcStart(r, node, false)).db;
    assert started.layouts == w.db.layouts && started.versions == w.db.versions && started.retired == w.db.retired;
    assert forall o :: HasActiveVersion(started, o) <==> HasActiveVersion(w.db, o);
  }

  lemma PageBecomesPending(w: World, r: RunId, node: NodeId, page: seq<ChunkId>, c: ChunkId)
    requires Applies(w, r, node) && w.gc.pending == {} && ClassifyGcChunks(w.db, r, page).Ok? && c in page
    ensures var shown := CollectStep(w, GcClassify(page));
            && Applies(shown, r, node) && shown.db == w.db && shown.disk == w.disk
            && (c in shown.gc.pending <==> Collectible(w.db, c))
  {
    hide Collectible;
    var i :| 0 <= i < |page| && page[i] == c;
    assert ClassifyGcChunks(w.db, r, page).value[i] == Collectible(w.db, c);
  }

  /** The run theorem: after the run, a chunk of the page is on the node's disk if and only if it was there
      before and some object with an active version has a layout with it. */
  lemma RunCollectsPage(w: World, r: RunId, node: NodeId, before: seq<Event>, page: seq<ChunkId>, after: seq<Event>, c: ChunkId)
    requires Inv(w) && ShowsPage(w, r, node, before, page, after) && c in page
    requires AllUndisturbed(before, node, c) && AllUndisturbed(after, node, c)
    ensures var completed := CollectStep(AfterPage(w, r, node, before, page, after), GcComplete);
            (node, c) in completed.disk <==> (node, c) in w.disk && Needed(w.db, c)
  {
    hide Inv, Step, Exec, Collectible, Needed, AllUndisturbed;
    var started := CollectStep(w, GcStart(r, node, false));
    var mid := Exec(started, before);
    var shown := CollectStep(mid, GcClassify(page));
    CollectKeepsInv(w, GcStart(r, node, false));
    StartKeepsNeeds(w, r, node, c);
    RunGoesOn(started, before, r, node, c);
    PageBecomesPending(mid, r, node, page, c);
    CollectKeepsInv(mid, GcClassify(page));
    RunGoesOn(shown, after, r, node, c);
    NeedOf(started, c);
  }

  lemma NeedOf(w: World, c: ChunkId)
    requires Inv(w)
    ensures Collectible(w.db, c) <==> !Needed(w.db, c)
  {
    CollectibleMeans(w.db, c);
  }

  /** If the completion was accepted, the database agrees: a location of the chunk on the node is left if and
      only if there was one when the run completed and the chunk is needed. */
  lemma RunForgetsPage(w: World, r: RunId, node: NodeId, before: seq<Event>, page: seq<ChunkId>, after: seq<Event>, c: ChunkId)
    requires Inv(w) && ShowsPage(w, r, node, before, page, after) && c in page
    requires AllUndisturbed(before, node, c) && AllUndisturbed(after, node, c)
    requires CompleteGcRun(AfterPage(w, r, node, before, page, after).db, r).result.Ok?
    ensures var last := AfterPage(w, r, node, before, page, after);
            (c, node) in CollectStep(last, GcComplete).db.locations <==> (c, node) in last.db.locations && Needed(w.db, c)
  {
    hide Inv, Step, Exec, Collectible, Needed, AllUndisturbed, CompleteGcRun;
    var started := CollectStep(w, GcStart(r, node, false));
    var mid := Exec(started, before);
    var shown := CollectStep(mid, GcClassify(page));
    var last := Exec(shown, after);
    CollectKeepsInv(w, GcStart(r, node, false));
    StartKeepsNeeds(w, r, node, c);
    RunGoesOn(started, before, r, node, c);
    PageBecomesPending(mid, r, node, page, c);
    CollectKeepsInv(mid, GcClassify(page));
    RunGoesOn(shown, after, r, node, c);
    NeedOf(started, c);
    NeedOf(last, c);
    CompletionForgets(last, r, node, c);
  }

  lemma CompletionForgets(w: World, r: RunId, node: NodeId, c: ChunkId)
    requires Inv(w) && Applies(w, r, node) && w.gc.pending == {} && CompleteGcRun(w.db, r).result.Ok?
    ensures (c, node) in CollectStep(w, GcComplete).db.locations <==> (c, node) in w.db.locations && Needed(w.db, c)
  {
    hide CompleteGcRun, Needed, Valid;
    CompletionSweepsExactly(w.db, r);
  }
}
