/** The garbage collection engine: page through the inventory of one storage node, have every page
    classified, delete what is collectible (src/gc/gc_engine.cpp). The two services answer as
    arbitrary functions of everything they were asked before, so that what is proved holds against
    any server; what the engine achieves with a well-behaved server is proved on top. */
module GcEngines {
  import opened Common
  import opened Ordering
  import opened ChunkStores
  import Arithmetic

  datatype Request =
    | StartRun(runId: RunId, node: NodeId, dryRun: bool)
    | ListPage(after: Option<ChunkId>)
    | Classify(ids: seq<ChunkId>)
    | DeleteChunk(chunkId: ChunkId)
    | CompleteRun(runId: RunId, stats: Stats)

  datatype Decision = Decision(chunkId: ChunkId, collectible: bool)

  datatype RunView = RunView(runId: RunId, node: NodeId, dryRun: bool, completed: bool)

  /** `None` stands for a failed request. */
  datatype Services = Services(
    start: (seq<Request>, RunId, NodeId, bool) -> Option<RunView>,
    page: (seq<Request>, Option<ChunkId>) -> Option<Page>,
    decisions: (seq<Request>, seq<ChunkId>) -> Option<seq<Decision>>,
    deleted: (seq<Request>, ChunkId) -> Option<bool>,
    complete: (seq<Request>, RunId, Stats) -> Option<RunView>)

  datatype EngineError = RequestFailed | IdentityMismatch | InvalidPage | CursorStuck | DecisionMismatch

  datatype Stats = Stats(scanned: nat, scannedBytes: nat, collectible: nat, collectibleBytes: nat, deleted: nat, deletedBytes: nat)

  const NO_STATS := Stats(0, 0, 0, 0, 0, 0)
  const PAGE_SIZE := 128

  /** Byte counters are unsigned 64-bit integers that wrap around. */
  function Add64(a: nat, b: nat): nat {
    (a + b) % (UINT64_MAX + 1)
  }

  // ---------------------------------------------------------------------------------------------
  // The cursor climbs a finite set
  // ---------------------------------------------------------------------------------------------

  function Pow16(n: nat): (r: nat)
    ensures r > 0
  {
    if n == 0 then 1 else 16 * Pow16(n - 1)
  }

  function HexValue(id: string): (v: nat)
    requires AllHex(id)
    ensures v < Pow16(|id|)
  {
    if id == [] then 0
    else
      assert HexDigit(id[0]) * Pow16(|id| - 1) <= 15 * Pow16(|id| - 1);
      HexDigit(id[0]) * Pow16(|id| - 1) + HexValue(id[1..])
  }

  /** IDs are ordered as the numbers they denote. */
  lemma {:induction false} HexValueClimbs(a: string, b: string)
    requires |a| == |b|
    requires AllHex(a) && AllHex(b)
    requires LexLess(a, b)
    ensures HexValue(a) < HexValue(b)
  {
    if a[0] == b[0] {
      HexValueClimbs(a[1..], b[1..]);
    } else {
      LeadingDigitWins(HexDigit(a[0]), HexDigit(b[0]), Pow16(|a| - 1), HexValue(a[1..]));
    }
  }

  lemma LeadingDigitWins(d: nat, e: nat, p: nat, rest: nat)
    requires d < e && rest < p
    ensures d * p + rest < e * p
  {
    Arithmetic.MulDistributes(p, e, d);
    Arithmetic.MulAtLeast(p, e - d);
  }

  /** How far the cursor still has to go. */
  ghost function Distance(after: Option<ChunkId>): nat
    requires after.Some? ==> IsContentId(after.value)
  {
    match after
    case None => Pow16(64)
    case Some(id) => Pow16(64) - 1 - HexValue(id)
  }

  // ---------------------------------------------------------------------------------------------
  // What was asked
  // ---------------------------------------------------------------------------------------------

  ghost function ClassifiedIds(history: seq<Request>): seq<ChunkId> {
    if history == [] then []
    else
      var last := history[|history| - 1];
      ClassifiedIds(history[..|history| - 1]) + if last.Classify? then last.ids else []
  }

  ghost function DeletedIds(history: seq<Request>): seq<ChunkId> {
    if history == [] then []
    else
      var last := history[|history| - 1];
      DeletedIds(history[..|history| - 1]) + if last.DeleteChunk? then [last.chunkId] else []
  }

  /** Every deletion was preceded by a classification that called the chunk collectible. */
  ghost predicate Justified(services: Services, history: seq<Request>) {
    forall k | 0 <= k < |history| && history[k].DeleteChunk? :: CalledCollectible(services, history[..k], history[k].chunkId)
  }

  ghost predicate CalledCollectible(services: Services, history: seq<Request>, id: ChunkId) {
    exists j | 0 <= j < |history| :: Calls(services, history, j, id)
  }

  ghost predicate Calls(services: Services, history: seq<Request>, j: nat, id: ChunkId)
    requires j < |history|
  {
    && history[j].Classify?
    && services.decisions(history[..j], history[j].ids).Some?
    && Decision(id, true) in services.decisions(history[..j], history[j].ids).value
  }

  lemma JustifiedLonger(services: Services, history: seq<Request>, request: Request)
    requires Justified(services, history)
    requires request.DeleteChunk? ==> CalledCollectible(services, history, request.chunkId)
    ensures Justified(services, history + [request])
  {
    var longer := history + [request];
    assert forall k | 0 <= k <= |history| :: longer[..k] == history[..k];
    assert history[..|history|] == history;
  }

  /** Requests of the paging loop have been added, and nothing else. */
  ghost predicate LoopAdds(before: seq<Request>, after: seq<Request>) {
    && before <= after
    && forall k | |before| <= k < |after| :: !after[k].StartRun? && !after[k].CompleteRun?
  }

  lemma LoopAddsMore(a: seq<Request>, b: seq<Request>, c: seq<Request>)
    requires LoopAdds(a, b) && LoopAdds(b, c)
    ensures LoopAdds(a, c)
  {
    assert forall k | |a| <= k < |b| :: c[k] == b[k];
  }

  lemma {:induction false} DeletionsAreOfTheLoop(history: seq<Request>, decisions: seq<Decision>, n: nat)
    requires n <= |decisions|
    ensures LoopAdds(history, AfterDeletions(history, decisions, n))
  {
    if n > 0 {
      DeletionsAreOfTheLoop(history, decisions, n - 1);
    }
  }

  // ---------------------------------------------------------------------------------------------
  // Well-behaved services
  // ---------------------------------------------------------------------------------------------

  function Chosen(collectible: ChunkId -> bool, ids: seq<ChunkId>): seq<ChunkId> {
    if ids == [] then []
    else
      var last := ids[|ids| - 1];
      Chosen(collectible, ids[..|ids| - 1]) + if collectible(last) then [last] else []
  }

  ghost function Remaining(stored: map<ChunkId, nat>, history: seq<Request>): map<ChunkId, nat> {
    stored - Elements(DeletedIds(history))
  }

  /** The node lists and deletes what it stores, and nobody else puts or removes chunks; the metadata
      service keeps giving the same answer for a chunk, as it does while the run is open. */
  ghost predicate WellBehaved(services: Services, stored: map<ChunkId, nat>, collectible: ChunkId -> bool) {
    && (forall id | id in stored :: IsContentId(id))
    && (forall history, after :: services.page(history, after).Some? && IsPage(Remaining(stored, history), after, PAGE_SIZE, services.page(history, after).value))
    && (forall history, id :: services.deleted(history, id) == Some(id in Remaining(stored, history)))
    && (forall history, ids :: services.decisions(history, ids) == Some(Answers(collectible, ids)))
  }

  function Answers(collectible: ChunkId -> bool, ids: seq<ChunkId>): seq<Decision> {
    seq(|ids|, i requires 0 <= i < |ids| => Decision(ids[i], collectible(ids[i])))
  }

  ghost function SizeSum(stored: map<ChunkId, nat>, ids: seq<ChunkId>): nat {
    if ids == [] then 0
    else SizeSum(stored, ids[..|ids| - 1]) + if ids[|ids| - 1] in stored then stored[ids[|ids| - 1]] else 0
  }

  /** The counters when `scanned` has been scanned and `decided` has been decided on, with every
      deletion confirmed. */
  ghost function StatsOf(stored: map<ChunkId, nat>, collectible: ChunkId -> bool, dryRun: bool, scanned: seq<ChunkId>, decided: seq<ChunkId>): Stats {
    var chosen := Chosen(collectible, decided);
    var deleted := if dryRun then [] else chosen;
    Stats(|scanned|, SizeSum(stored, scanned) % (UINT64_MAX + 1), |chosen|, SizeSum(stored, chosen) % (UINT64_MAX + 1),
          |deleted|, SizeSum(stored, deleted) % (UINT64_MAX + 1))
  }

  /** The chunks up to the cursor have been visited in order, the others have not. */
  ghost predicate Visited(lt: IdOrder, stored: map<ChunkId, nat>, after: Option<ChunkId>, done: seq<ChunkId>) {
    && Ascending(lt, done)
    && (forall id :: id in done <==> id in stored && !Beyond(lt, after, id))
    && (if after.Some? then done != [] && done[|done| - 1] == after.value else done == [])
  }

  function IdsOf(chunks: seq<StoredChunk>): seq<ChunkId> {
    seq(|chunks|, i requires 0 <= i < |chunks| => chunks[i].chunkId)
  }

  lemma AscendingAppend(done: seq<ChunkId>, after: Option<ChunkId>, chunks: seq<StoredChunk>)
    requires Ascending(LexLess, done) && Rising(LexLess, chunks)
    requires if after.Some? then done != [] && done[|done| - 1] == after.value else done == []
    requires forall i | 0 <= i < |chunks| :: Beyond(LexLess, after, chunks[i].chunkId)
    ensures Ascending(LexLess, done + IdsOf(chunks))
  {
    forall i, j | 0 <= i < |done| && 0 <= j < |chunks|
      ensures LexLess(done[i], chunks[j].chunkId)
    {
      assert Beyond(LexLess, after, chunks[j].chunkId);
      if i < |done| - 1 {
        LexTransitive(done[i], after.value, chunks[j].chunkId);
      }
    }
  }

  /** Every chunk is visited, on this page, or beyond its cursor. */
  lemma PageLeavesOnlyBeyond(stored: map<ChunkId, nat>, remaining: map<ChunkId, nat>, lt: IdOrder, after: Option<ChunkId>, done: seq<ChunkId>, page: Page, id: ChunkId)
    requires forall id :: id in done <==> id in stored && !Beyond(lt, after, id)
    requires IsPageBy(lt, remaining, after, page)
    requires forall id | id in stored && id !in remaining :: id in done
    requires id in stored
    ensures id in done || id in IdsOf(page.chunks) || (page.nextAfter.Some? && lt(page.nextAfter.value, id))
  {
    if id !in done && Lists(page.chunks, id) {
      var i :| 0 <= i < |page.chunks| && page.chunks[i].chunkId == id;
      assert IdsOf(page.chunks)[i] == id;
    }
  }

  /** A page of what remains continues the visit; the last page completes it. */
  ghost predicate Continues(lt: IdOrder, stored: map<ChunkId, nat>, after: Option<ChunkId>, page: Page, more: seq<ChunkId>) {
    && Ascending(lt, more)
    && AreStored(page.chunks, stored)
    && (page.nextAfter.Some? ==> Visited(lt, stored, page.nextAfter, more) && Beyond(lt, after, page.nextAfter.value))
    && (page.nextAfter.None? ==> Elements(more) == stored.Keys)
  }

  lemma PageContinuesVisit(stored: map<ChunkId, nat>, remaining: map<ChunkId, nat>, after: Option<ChunkId>, done: seq<ChunkId>, page: Page)
    requires Visited(LexLess, stored, after, done) && IsPageBy(LexLess, remaining, after, page)
    requires forall id | id in remaining :: id in stored && remaining[id] == stored[id]
    requires forall id | id in stored && id !in remaining :: id in done
    ensures Continues(LexLess, stored, after, page, done + IdsOf(page.chunks))
  {
    var more := done + IdsOf(page.chunks);
    AscendingAppend(done, after, page.chunks);
    if more != [] {
      LastIsGreatest(more);
    }
    forall id | id in stored
      ensures id in more || (page.nextAfter.Some? && LexLess(page.nextAfter.value, id))
    {
      PageLeavesOnlyBeyond(stored, remaining, LexLess, after, done, page, id);
    }
    VisitGoesOn(LexLess, stored, remaining, after, done, page);
  }

  lemma PageIdsAreStored(remaining: map<ChunkId, nat>, stored: map<ChunkId, nat>, chunks: seq<StoredChunk>)
    requires AreStored(chunks, remaining)
    requires forall id | id in remaining :: id in stored && remaining[id] == stored[id]
    ensures AreStored(chunks, stored)
    ensures forall id | id in IdsOf(chunks) :: id in stored
  {
  }

  lemma VisitGoesOn(lt: IdOrder, stored: map<ChunkId, nat>, remaining: map<ChunkId, nat>, after: Option<ChunkId>, done: seq<ChunkId>, page: Page)
    requires Visited(lt, stored, after, done) && IsPageBy(lt, remaining, after, page)
    requires forall id | id in remaining :: id in stored && remaining[id] == stored[id]
    requires var more := done + IdsOf(page.chunks);
             && Ascending(lt, more)
             && (more != [] ==> forall id | id in more :: !lt(more[|more| - 1], id))
             && forall id | id in stored :: id in more || (page.nextAfter.Some? && lt(page.nextAfter.value, id))
    ensures Continues(lt, stored, after, page, done + IdsOf(page.chunks))
  {
    var more := done + IdsOf(page.chunks);
    PageIdsAreStored(remaining, stored, page.chunks);
    assert forall id | id in more :: id in stored;
    if page.nextAfter.Some? {
      assert more[|more| - 1] == page.nextAfter.value;
      assert Beyond(lt, after, page.chunks[|page.chunks| - 1].chunkId);
    }
  }

  lemma LastIsGreatest(ids: seq<ChunkId>)
    requires Ascending(LexLess, ids) && ids != []
    ensures forall id | id in ids :: !LexLess(ids[|ids| - 1], id)
  {
    forall id | id in ids
      ensures !LexLess(ids[|ids| - 1], id)
    {
      var i :| 0 <= i < |ids| && ids[i] == id;
      LexTotal(id, id);
      if i < |ids| - 1 && LexLess(ids[|ids| - 1], id) {
        LexTransitive(id, ids[|ids| - 1], id);
      }
    }
  }

  predicate WellFormed(page: Page) {
    && (forall i | 0 <= i < |page.chunks| :: IsContentId(page.chunks[i].chunkId))
    && (page.nextAfter.Some? ==> IsContentId(page.nextAfter.value))
  }

  /** The clients of the two services. */
  class Clients {
    const services: Services
    var history: seq<Request>

    constructor (services: Services)
      ensures this.services == services && history == []
    {
      this.services := services;
      history := [];
    }

    method StartGcRun(runId: RunId, node: NodeId, dryRun: bool) returns (run: Option<RunView>)
      modifies this`history
      ensures history == old(history) + [StartRun(runId, node, dryRun)]
      ensures run == services.start(old(history), runId, node, dryRun)
    {
      run := services.start(history, runId, node, dryRun);
      history := history + [StartRun(runId, node, dryRun)];
    }

    method CompleteGcRun(runId: RunId, stats: Stats) returns (run: Option<RunView>)
      modifies this`history
      ensures history == old(history) + [CompleteRun(runId, stats)]
      ensures run == services.complete(old(history), runId, stats)
    {
      run := services.complete(history, runId, stats);
      history := history + [CompleteRun(runId, stats)];
    }

    /** Pages with malformed IDs are refused. */
    method ListChunks(after: Option<ChunkId>) returns (page: Option<Page>)
      modifies this`history
      ensures history == old(history) + [ListPage(after)]
      ensures var reply := services.page(old(history), after);
              page == if reply.Some? && WellFormed(reply.value) then reply else None
    {
      page := services.page(history, after);
      history := history + [ListPage(after)];
      if page.Some? && !WellFormed(page.value) {
        page := None;
      }
    }

    method ClassifyChunks(ids: seq<ChunkId>) returns (decisions: Option<seq<Decision>>)
      modifies this`history
      ensures history == old(history) + [Classify(ids)]
      ensures decisions == services.decisions(old(history), ids)
    {
      decisions := services.decisions(history, ids);
      history := history + [Classify(ids)];
    }

    method DeleteChunk(chunkId: ChunkId) returns (deleted: Option<bool>)
      modifies this`history
      ensures history == old(history) + [Request.DeleteChunk(chunkId)]
      ensures deleted == services.deleted(old(history), chunkId)
    {
      deleted := services.deleted(history, chunkId);
      history := history + [Request.DeleteChunk(chunkId)];
    }
  }

  lemma StatsScanNext(stored: map<ChunkId, nat>, collectible: ChunkId -> bool, dryRun: bool, scanned: seq<ChunkId>, decided: seq<ChunkId>, id: ChunkId)
    requires id in stored
    ensures var before := StatsOf(stored, collectible, dryRun, scanned, decided);
            StatsOf(stored, collectible, dryRun, scanned + [id], decided)
            == before.(scanned := before.scanned + 1, scannedBytes := Add64(before.scannedBytes, stored[id]))
  {
    SizeSumNext(stored, scanned, id);
  }

  lemma StatsDecideNext(stored: map<ChunkId, nat>, collectible: ChunkId -> bool, dryRun: bool, scanned: seq<ChunkId>, decided: seq<ChunkId>, id: ChunkId)
    requires id in stored
    ensures var before := StatsOf(stored, collectible, dryRun, scanned, decided);
            var counted := before.(collectible := before.collectible + 1, collectibleBytes := Add64(before.collectibleBytes, stored[id]));
            StatsOf(stored, collectible, dryRun, scanned, decided + [id])
            == if !collectible(id) then before
               else if dryRun then counted
               else counted.(deleted := before.deleted + 1, deletedBytes := Add64(before.deletedBytes, stored[id]))
  {
    assert (decided + [id])[..|decided|] == decided;
    if collectible(id) {
      assert Chosen(collectible, decided + [id]) == Chosen(collectible, decided) + [id];
      SizeSumNext(stored, Chosen(collectible, decided), id);
    } else {
      assert Chosen(collectible, decided + [id]) == Chosen(collectible, decided);
    }
  }

  lemma SizeSumNext(stored: map<ChunkId, nat>, ids: seq<ChunkId>, id: ChunkId)
    requires id in stored
    ensures SizeSum(stored, ids + [id]) == SizeSum(stored, ids) + stored[id]
    ensures SizeSum(stored, ids + [id]) % (UINT64_MAX + 1) == Add64(SizeSum(stored, ids) % (UINT64_MAX + 1), stored[id])
  {
    assert (ids + [id])[..|ids|] == ids;
  }

  function PageBytes(chunks: seq<StoredChunk>): nat {
    if chunks == [] then 0 else PageBytes(chunks[..|chunks| - 1]) + chunks[|chunks| - 1].size
  }

  lemma ScanNext(stored: map<ChunkId, nat>, collectible: ChunkId -> bool, dryRun: bool, done: seq<ChunkId>, chunks: seq<StoredChunk>, n: nat)
    requires n < |chunks| && AreStored(chunks, stored)
    ensures var before := StatsOf(stored, collectible, dryRun, done + IdsOf(chunks[..n]), done);
            StatsOf(stored, collectible, dryRun, done + IdsOf(chunks[..n + 1]), done)
            == before.(scanned := before.scanned + 1, scannedBytes := Add64(before.scannedBytes, chunks[n].size))
  {
    StatsScanNext(stored, collectible, dryRun, done + IdsOf(chunks[..n]), done, chunks[n].chunkId);
    assert done + IdsOf(chunks[..n + 1]) == done + IdsOf(chunks[..n]) + [chunks[n].chunkId];
  }

  /** Checks that a page is increasing and counts it. */
  method ScanPage(page: Page, stats: Stats, ghost stored: map<ChunkId, nat>, ghost collectible: ChunkId -> bool, ghost dryRun: bool, ghost done: seq<ChunkId>)
    returns (result: Option<Stats>)
    ensures result.Some? <==> Rising(LexLess, page.chunks)
    ensures result.Some? && AreStored(page.chunks, stored) && stats == StatsOf(stored, collectible, dryRun, done, done) ==>
              result.value == StatsOf(stored, collectible, dryRun, done + IdsOf(page.chunks), done)
  {
    var counted := stats;
    var previousId := "";
    assert done + IdsOf(page.chunks[..0]) == done;
    for index := 0 to |page.chunks|
      invariant index > 0 ==> previousId == page.chunks[index - 1].chunkId
      invariant Rising(LexLess, page.chunks[..index])
      invariant AreStored(page.chunks, stored) && stats == StatsOf(stored, collectible, dryRun, done, done) ==>
                  counted == StatsOf(stored, collectible, dryRun, done + IdsOf(page.chunks[..index]), done)
    {
      var info := page.chunks[index];
      if index > 0 && !LexLess(previousId, info.chunkId) {
        assert !LexLess(page.chunks[index - 1].chunkId, page.chunks[index].chunkId);
        return None;
      }
      RisingNext(page.chunks, index);
      if AreStored(page.chunks, stored) {
        ScanNext(stored, collectible, dryRun, done, page.chunks, index);
      }
      previousId := info.chunkId;
      counted := counted.(scanned := counted.scanned + 1, scannedBytes := Add64(counted.scannedBytes, info.size));
    }
    assert page.chunks[..|page.chunks|] == page.chunks;
    return Some(counted);
  }

  lemma RisingNext(chunks: seq<StoredChunk>, n: nat)
    requires n < |chunks| && Rising(LexLess, chunks[..n])
    requires n > 0 ==> LexLess(chunks[n - 1].chunkId, chunks[n].chunkId)
    ensures Rising(LexLess, chunks[..n + 1])
  {
    forall i | 0 <= i < n
      ensures LexLess(chunks[i].chunkId, chunks[n].chunkId)
    {
      if i < n - 1 {
        assert LexLess(chunks[..n][i].chunkId, chunks[..n][n - 1].chunkId);
        LexTransitive(chunks[i].chunkId, chunks[n - 1].chunkId, chunks[n].chunkId);
      }
    }
  }

  /** The history after carrying out the deletions that the first `n` decisions ask for. */
  function AfterDeletions(history: seq<Request>, decisions: seq<Decision>, n: nat): seq<Request>
    requires n <= |decisions|
  {
    if n == 0 then history
    else
      var before := AfterDeletions(history, decisions, n - 1);
      if decisions[n - 1].collectible then before + [Request.DeleteChunk(decisions[n - 1].chunkId)] else before
  }

  lemma {:induction false} DeletionsClassifyNothing(history: seq<Request>, decisions: seq<Decision>, n: nat)
    requires n <= |decisions|
    ensures ClassifiedIds(AfterDeletions(history, decisions, n)) == ClassifiedIds(history)
  {
    if n > 0 {
      DeletionsClassifyNothing(history, decisions, n - 1);
      HistoryNext(AfterDeletions(history, decisions, n - 1), Request.DeleteChunk(decisions[n - 1].chunkId));
    }
  }

  lemma OneMoreDecision(history: seq<Request>, collectible: ChunkId -> bool, decided: seq<ChunkId>, id: ChunkId)
    requires DeletedIds(history) == Chosen(collectible, decided)
    ensures DeletedIds(if collectible(id) then history + [Request.DeleteChunk(id)] else history) == Chosen(collectible, decided + [id])
  {
    HistoryNext(history, Request.DeleteChunk(id));
    ChosenNext(collectible, decided, id);
  }

  lemma {:induction false} DeletionsDeleteChosen(history: seq<Request>, collectible: ChunkId -> bool, done: seq<ChunkId>, ids: seq<ChunkId>, n: nat)
    requires n <= |ids| && DeletedIds(history) == Chosen(collectible, done)
    ensures DeletedIds(AfterDeletions(history, Answers(collectible, ids), n)) == Chosen(collectible, done + ids[..n])
  {
    if n == 0 {
      assert done + ids[..0] == done;
    } else {
      DeletionsDeleteChosen(history, collectible, done, ids, n - 1);
      OneMoreDecision(AfterDeletions(history, Answers(collectible, ids), n - 1), collectible, done + ids[..n - 1], ids[n - 1]);
      TakeNext(done, ids, n - 1);
    }
  }

  lemma TakeNext(done: seq<ChunkId>, ids: seq<ChunkId>, n: nat)
    requires n < |ids|
    ensures done + ids[..n + 1] == done + ids[..n] + [ids[n]]
  {
  }

  lemma ChosenNext(collectible: ChunkId -> bool, ids: seq<ChunkId>, id: ChunkId)
    ensures Chosen(collectible, ids + [id]) == if collectible(id) then Chosen(collectible, ids) + [id] else Chosen(collectible, ids)
  {
    assert (ids + [id])[..|ids|] == ids;
  }

  lemma HistoryNext(history: seq<Request>, request: Request)
    ensures ClassifiedIds(history + [request]) == ClassifiedIds(history) + if request.Classify? then request.ids else []
    ensures DeletedIds(history + [request]) == DeletedIds(history) + if request.DeleteChunk? then [request.chunkId] else []
  {
    assert (history + [request])[..|history|] == history;
  }

  /** What a page's decisions make the engine do: the deletions they ask for, or the first few of them
      if the run fails on the way. */
  ghost predicate FollowsDecisions(before: seq<Request>, after: seq<Request>, decisions: seq<Decision>, dryRun: bool, n: nat)
    requires n <= |decisions|
  {
    after == if dryRun then before else AfterDeletions(before, decisions, n)
  }

  ghost predicate DecisionsMatch(decisions: seq<Decision>, chunks: seq<StoredChunk>) {
    |decisions| == |chunks| && forall i | 0 <= i < |decisions| :: decisions[i].chunkId == chunks[i].chunkId
  }

  /** Deletions that follow a classification are justified by it. */
  lemma {:induction false} DeletionsAreJustified(services: Services, history: seq<Request>, ids: seq<ChunkId>, decisions: seq<Decision>, n: nat)
    requires Justified(services, history) && n <= |decisions|
    requires services.decisions(history, ids) == Some(decisions)
    ensures var after := AfterDeletions(history + [Classify(ids)], decisions, n);
            && Justified(services, after)
            && |after| > |history| && after[..|history|] == history && after[|history|] == Classify(ids)
  {
    if n == 0 {
      JustifiedLonger(services, history, Classify(ids));
    } else {
      DeletionsAreJustified(services, history, ids, decisions, n - 1);
      var before := AfterDeletions(history + [Classify(ids)], decisions, n - 1);
      if decisions[n - 1].collectible {
        assert Calls(services, before, |history|, decisions[n - 1].chunkId);
        JustifiedLonger(services, before, Request.DeleteChunk(decisions[n - 1].chunkId));
      }
    }
  }

  ghost predicate InStep(stored: map<ChunkId, nat>, collectible: ChunkId -> bool, dryRun: bool, history: seq<Request>, done: seq<ChunkId>) {
    ClassifiedIds(history) == done && DeletedIds(history) == if dryRun then [] else Chosen(collectible, done)
  }

  lemma PageKeepsStep(stored: map<ChunkId, nat>, collectible: ChunkId -> bool, dryRun: bool, history: seq<Request>, done: seq<ChunkId>, ids: seq<ChunkId>)
    requires InStep(stored, collectible, dryRun, history, done)
    ensures var asked := history + [Classify(ids)];
            InStep(stored, collectible, dryRun, if dryRun then asked else AfterDeletions(asked, Answers(collectible, ids), |ids|), done + ids)
  {
    var asked := history + [Classify(ids)];
    HistoryNext(history, Classify(ids));
    if !dryRun {
      DeletionsClassifyNothing(asked, Answers(collectible, ids), |ids|);
      DeletionsDeleteChosen(asked, collectible, done, ids, |ids|);
      assert ids[..|ids|] == ids;
    }
  }

  lemma {:induction false} ChosenElements(collectible: ChunkId -> bool, ids: seq<ChunkId>)
    ensures forall id :: id in Chosen(collectible, ids) <==> id in ids && collectible(id)
  {
    if ids != [] {
      ChosenElements(collectible, ids[..|ids| - 1]);
      assert ids == ids[..|ids| - 1] + [ids[|ids| - 1]];
    }
  }

  /** Against well-behaved services the counters count everything. */
  lemma CountsEverything(services: Services, stored: map<ChunkId, nat>, collectible: ChunkId -> bool, dryRun: bool,
                                            history: seq<Request>, scanned: seq<ChunkId>, done: seq<ChunkId>, chunks: seq<StoredChunk>)
    requires WellBehaved(services, stored, collectible)
    requires InStep(stored, collectible, dryRun, history, done)
    requires AreStored(chunks, stored) && Ascending(LexLess, done + IdsOf(chunks))
    ensures var ids := IdsOf(chunks);
            Counted(services, history + [Classify(ids)], chunks, Answers(collectible, ids), dryRun, StatsOf(stored, collectible, dryRun, scanned, done), |ids|)
            == StatsOf(stored, collectible, dryRun, scanned, done + ids)
  {
    var ids := IdsOf(chunks);
    HistoryNext(history, Classify(ids));
    forall k: nat | k < |ids| && !dryRun
      ensures Confirmed(services, collectible, history + [Classify(ids)], ids, k)
    {
      DeletionIsConfirmed(services, stored, collectible, history + [Classify(ids)], done, ids, k);
    }
    CountsPrefix(services, stored, collectible, dryRun, history + [Classify(ids)], scanned, done, chunks, ids, |ids|);
    assert ids[..|ids|] == ids && chunks[..|ids|] == chunks;
  }

  /** The node confirms the deletion of the `k`-th chunk of a page. */
  ghost predicate Confirmed(services: Services, collectible: ChunkId -> bool, history: seq<Request>, ids: seq<ChunkId>, k: nat)
    requires k < |ids|
  {
    services.deleted(AfterDeletions(history, Answers(collectible, ids), k), ids[k]) == Some(true)
  }

  lemma DeletionIsConfirmed(services: Services, stored: map<ChunkId, nat>, collectible: ChunkId -> bool,
                            history: seq<Request>, done: seq<ChunkId>, ids: seq<ChunkId>, k: nat)
    requires forall history, id :: services.deleted(history, id) == Some(id in Remaining(stored, history))
    requires DeletedIds(history) == Chosen(collectible, done)
    requires Ascending(LexLess, done + ids) && k < |ids| && ids[k] in stored
    ensures Confirmed(services, collectible, history, ids, k)
  {
    hide AfterDeletions, DeletedIds, Chosen, LexLess, Ascending;
    DeletionsDeleteChosen(history, collectible, done, ids, k);
    TakeConcat(done, ids, k);
    NotChosenYet(collectible, done + ids, |done| + k);
    assert ids[k] in Remaining(stored, AfterDeletions(history, Answers(collectible, ids), k));
  }

  lemma TakeConcat(a: seq<ChunkId>, b: seq<ChunkId>, k: nat)
    requires k < |b|
    ensures (a + b)[..|a| + k] == a + b[..k] && (a + b)[|a| + k] == b[k]
  {
  }

  lemma NotChosenYet(collectible: ChunkId -> bool, ids: seq<ChunkId>, n: nat)
    requires Ascending(LexLess, ids) && n < |ids|
    ensures ids[n] !in Chosen(collectible, ids[..n])
  {
    ChosenElements(collectible, ids[..n]);
    NotBefore(ids, n);
  }

  lemma {:induction false} CountsPrefix(services: Services, stored: map<ChunkId, nat>, collectible: ChunkId -> bool, dryRun: bool,
                                        history: seq<Request>, scanned: seq<ChunkId>, done: seq<ChunkId>, chunks: seq<StoredChunk>, ids: seq<ChunkId>, n: nat)
    requires n <= |chunks| && ids == IdsOf(chunks) && AreStored(chunks, stored)
    requires dryRun || forall k: nat | k < n :: Confirmed(services, collectible, history, ids, k)
    ensures Counted(services, history, chunks, Answers(collectible, ids), dryRun, StatsOf(stored, collectible, dryRun, scanned, done), n)
            == StatsOf(stored, collectible, dryRun, scanned, done + ids[..n])
  {
    if n == 0 {
      assert done + ids[..0] == done;
    } else {
      CountsPrefix(services, stored, collectible, dryRun, history, scanned, done, chunks, ids, n - 1);
      assert !dryRun ==> Confirmed(services, collectible, history, ids, n - 1);
      StatsDecideNext(stored, collectible, dryRun, scanned, done + ids[..n - 1], ids[n - 1]);
      TakeNext(done, ids, n - 1);
    }
  }

  lemma NotBefore(ids: seq<ChunkId>, n: nat)
    requires Ascending(LexLess, ids) && n < |ids|
    ensures ids[n] !in ids[..n]
  {
    LexTotal(ids[n], ids[n]);
  }

  /** The request to delete the chunk of decision `n` fails. */
  ghost predicate RequestRefused(services: Services, history: seq<Request>, decisions: seq<Decision>, n: nat)
    requires n < |decisions|
  {
    services.deleted(AfterDeletions(history, decisions, n), decisions[n].chunkId) == None
  }

  class GcEngine {
    const clients: Clients
    const node: NodeId

    constructor (clients: Clients, node: NodeId)
      ensures this.clients == clients && this.node == node
    {
      this.clients := clients;
      this.node := node;
    }

    /** Counts a collectible chunk and, unless this is a dry run, deletes it. */
    method ActOn(decision: Decision, size: nat, dryRun: bool, stats: Stats) returns (result: Option<Stats>)
      modifies clients`history
      ensures clients.history ==
              if decision.collectible && !dryRun then old(clients.history) + [Request.DeleteChunk(decision.chunkId)] else old(clients.history)
      ensures result.None? ==> !dryRun && clients.services.deleted(old(clients.history), decision.chunkId) == None
      ensures result.Some? ==>
                result.value == AfterDecision(stats, decision, size, !dryRun && clients.services.deleted(old(clients.history), decision.chunkId) == Some(true))
    {
      if !decision.collectible {
        return Some(stats);
      }
      var counted := stats.(collectible := stats.collectible + 1, collectibleBytes := Add64(stats.collectibleBytes, size));
      if dryRun {
        return Some(counted);
      }
      var deleted := clients.DeleteChunk(decision.chunkId);
      if deleted.None? {
        return None;
      }
      if deleted.value {
        counted := counted.(deleted := counted.deleted + 1, deletedBytes := Add64(counted.deletedBytes, size));
      }
      return Some(counted);
    }

    /** Works through the decisions on a page; `n` says how many were carried out. */
    method DeleteCollectible(chunks: seq<StoredChunk>, decisions: seq<Decision>, dryRun: bool, stats: Stats)
      returns (result: Result<Stats, EngineError>, ghost n: nat)
      requires |decisions| == |chunks|
      modifies clients`history
      ensures n <= |decisions| && FollowsDecisions(old(clients.history), clients.history, decisions, dryRun, n)
      ensures result.Ok? ==>
                && n == |decisions| && DecisionsMatch(decisions, chunks)
                && result.value == Counted(clients.services, old(clients.history), chunks, decisions, dryRun, stats, n)
      ensures result.Err? ==>
                || (result.error == DecisionMismatch && !DecisionsMatch(decisions, chunks))
                || (result.error == RequestFailed && !dryRun && n > 0 && RequestRefused(clients.services, old(clients.history), decisions, n - 1))
    {
      var counted := stats;
      for index := 0 to |decisions|
        invariant forall i | 0 <= i < index :: decisions[i].chunkId == chunks[i].chunkId
        invariant FollowsDecisions(old(clients.history), clients.history, decisions, dryRun, index)
        invariant counted == Counted(clients.services, old(clients.history), chunks, decisions, dryRun, stats, index)
      {
        if decisions[index].chunkId != chunks[index].chunkId {
          return Err(DecisionMismatch), index;
        }
        var after := ActOn(decisions[index], chunks[index].size, dryRun, counted);
        if after.None? {
          return Err(RequestFailed), index + 1;
        }
        counted := after.value;
      }
      return Ok(counted), |decisions|;
    }

    method ClassifyAndDelete(chunks: seq<StoredChunk>, dryRun: bool, scanned: Stats,
                             ghost stored: map<ChunkId, nat>, ghost collectible: ChunkId -> bool, ghost done: seq<ChunkId>)
      returns (result: Result<Stats, EngineError>)
      requires Justified(clients.services, clients.history) && (dryRun ==> DeletedIds(clients.history) == [])
      modifies clients`history
      ensures LoopAdds(old(clients.history), clients.history)
      ensures Justified(clients.services, clients.history) && (dryRun ==> DeletedIds(clients.history) == [])
      ensures && WellBehaved(clients.services, stored, collectible)
              && PageReady(stored, collectible, dryRun, old(clients.history), done, chunks, scanned)
              ==> var more := done + IdsOf(chunks);
                  && result == Ok(StatsOf(stored, collectible, dryRun, more, more))
                  && InStep(stored, collectible, dryRun, clients.history, more)
    {
      var ids := IdsOf(chunks);
      ghost var before := clients.history;
      var decisions := clients.ClassifyChunks(ids);
      JustifiedLonger(clients.services, before, Classify(ids));
      HistoryNext(before, Classify(ids));
      if decisions.None? {
        return Err(RequestFailed);
      }
      if |decisions.value| != |ids| {
        return Err(DecisionMismatch);
      }
      ghost var asked := clients.history;
      ghost var n;
      result, n := DeleteCollectible(chunks, decisions.value, dryRun, scanned);
      DeletionsAreJustified(clients.services, before, ids, decisions.value, n);
      DeletionsAreOfTheLoop(asked, decisions.value, n);
      LoopAddsMore(before, asked, clients.history);
      if WellBehaved(clients.services, stored, collectible) && PageReady(stored, collectible, dryRun, before, done, chunks, scanned) {
        PageCompletes(clients.services, stored, collectible, dryRun, before, done, chunks, result, clients.history, n);
      }
    }

    /** One page: check it, have it classified, delete. */
    method CollectPage(page: Page, dryRun: bool, stats: Stats,
                       ghost stored: map<ChunkId, nat>, ghost collectible: ChunkId -> bool, ghost done: seq<ChunkId>)
      returns (result: Result<Stats, EngineError>)
      requires page.chunks != [] && Justified(clients.services, clients.history)
      requires dryRun ==> DeletedIds(clients.history) == []
      modifies clients`history
      ensures LoopAdds(old(clients.history), clients.history)
      ensures Justified(clients.services, clients.history)
      ensures dryRun ==> DeletedIds(clients.history) == []
      ensures result.Ok? && page.nextAfter.Some? ==> page.nextAfter.value == page.chunks[|page.chunks| - 1].chunkId
      ensures && WellBehaved(clients.services, stored, collectible)
              && InStep(stored, collectible, dryRun, old(clients.history), done)
              && PageInStep(stored, done, page)
              && stats == StatsOf(stored, collectible, dryRun, done, done)
              ==> var more := done + IdsOf(page.chunks);
                  && result == Ok(StatsOf(stored, collectible, dryRun, more, more))
                  && InStep(stored, collectible, dryRun, clients.history, more)
    {
      var scanned := ScanPage(page, stats, stored, collectible, dryRun, done);
      if scanned.None? {
        return Err(InvalidPage);
      }
      if page.nextAfter.Some? && page.nextAfter.value != page.chunks[|page.chunks| - 1].chunkId {
        return Err(InvalidPage);
      }
      result := ClassifyAndDelete(page.chunks, dryRun, scanned.value, stored, collectible, done);
    }

    method NextPage(after: Option<ChunkId>, ghost stored: map<ChunkId, nat>, ghost collectible: ChunkId -> bool, ghost dryRun: bool, ghost done: seq<ChunkId>)
      returns (page: Option<Page>)
      requires Justified(clients.services, clients.history)
      modifies clients`history
      ensures LoopAdds(old(clients.history), clients.history)
      ensures Justified(clients.services, clients.history)
      ensures DeletedIds(clients.history) == old(DeletedIds(clients.history))
      ensures page.Some? ==> WellFormed(page.value)
      ensures && WellBehaved(clients.services, stored, collectible)
              && Visited(LexLess, stored, after, done) && InStep(stored, collectible, dryRun, old(clients.history), done)
              ==> && page.Some? && PageInStep(stored, done, page.value)
                  && Continues(LexLess, stored, after, page.value, done + IdsOf(page.value.chunks))
                  && InStep(stored, collectible, dryRun, clients.history, done)
    {
      ghost var before := clients.history;
      page := clients.ListChunks(after);
      JustifiedLonger(clients.services, before, ListPage(after));
      HistoryNext(before, ListPage(after));
      if WellBehaved(clients.services, stored, collectible) && Visited(LexLess, stored, after, done) && InStep(stored, collectible, dryRun, before, done) {
        NextPageInStep(clients.services, stored, collectible, dryRun, before, after, done, page);
      }
    }

    /** One turn of the loop: fetch a page beyond the cursor, collect it, move the cursor. */
    method CollectNextPage(after: Option<ChunkId>, dryRun: bool, stats: Stats,
                           ghost stored: map<ChunkId, nat>, ghost collectible: ChunkId -> bool, ghost done: seq<ChunkId>)
      returns (result: Result<Turn, EngineError>, ghost more: seq<ChunkId>)
      requires after.Some? ==> IsContentId(after.value)
      requires Justified(clients.services, clients.history) && (dryRun ==> DeletedIds(clients.history) == [])
      modifies clients`history
      ensures LoopAdds(old(clients.history), clients.history)
      ensures Justified(clients.services, clients.history) && (dryRun ==> DeletedIds(clients.history) == [])
      ensures result.Ok? && result.value.Onward? ==>
                IsContentId(result.value.cursor) && (after.Some? ==> LexLess(after.value, result.value.cursor))
      ensures && WellBehaved(clients.services, stored, collectible)
              && OnTrack(stored, collectible, dryRun, old(clients.history), after, done, stats)
              ==> && result.Ok?
                  && if result.value.Onward?
                     then OnTrack(stored, collectible, dryRun, clients.history, Some(result.value.cursor), more, result.value.stats)
                     else AtEnd(stored, collectible, dryRun, clients.history, more, result.value.stats)
    {
      more := done;
      ghost var before := clients.history;
      var page := NextPage(after, stored, collectible, dryRun, done);
      ghost var listed := clients.history;
      if page.None? {
        return Err(RequestFailed), more;
      }
      more := done + IdsOf(page.value.chunks);
      if page.value.chunks == [] {
        assert more == done;
        return if page.value.nextAfter.Some? then Err(InvalidPage) else Ok(Last(stats)), more;
      }
      var pageStats := CollectPage(page.value, dryRun, stats, stored, collectible, done);
      LoopAddsMore(before, listed, clients.history);
      if pageStats.Err? {
        return Err(pageStats.error), more;
      }
      if page.value.nextAfter.None? {
        return Ok(Last(pageStats.value)), more;
      }
      if after.Some? && !LexLess(after.value, page.value.nextAfter.value) {
        return Err(CursorStuck), more;
      }
      return Ok(Onward(pageStats.value, page.value.nextAfter.value)), more;
    }

    /** Pages through the inventory with a cursor that climbs a finite set of IDs, so that the loop ends
        whatever the server answers. */
    method CollectOpenRun(dryRun: bool, ghost stored: map<ChunkId, nat>, ghost collectible: ChunkId -> bool)
      returns (result: Result<Stats, EngineError>)
      requires Justified(clients.services, clients.history)
      requires ClassifiedIds(clients.history) == [] && DeletedIds(clients.history) == []
      modifies clients`history
      ensures LoopAdds(old(clients.history), clients.history)
      ensures Justified(clients.services, clients.history)
      ensures dryRun ==> DeletedIds(clients.history) == []
      ensures WellBehaved(clients.services, stored, collectible) ==>
                result.Ok? && Collected(stored, collectible, dryRun, clients.history, result.value)
    {
      var stats := NO_STATS;
      var after: Option<ChunkId> := None;
      ghost var done: seq<ChunkId> := [];
      ghost var started := clients.history;
      StartsOnTrack(stored, collectible, dryRun, clients.history);
      while true
        invariant after.Some? ==> IsContentId(after.value)
        invariant LoopAdds(started, clients.history)
        invariant Justified(clients.services, clients.history)
        invariant dryRun ==> DeletedIds(clients.history) == []
        invariant WellBehaved(clients.services, stored, collectible) ==>
                    OnTrack(stored, collectible, dryRun, clients.history, after, done, stats)
        decreases Distance(after)
      {
        ghost var before := clients.history;
        var turn;
        turn, done := CollectNextPage(after, dryRun, stats, stored, collectible, done);
        LoopAddsMore(started, before, clients.history);
        if turn.Err? {
          return Err(turn.error);
        }
        stats := turn.value.stats;
        if turn.value.Last? {
          break;
        }
        CursorClimbs(after, turn.value.cursor);
        after := Some(turn.value.cursor);
      }
      if WellBehaved(clients.services, stored, collectible) {
        AllCollected(stored, collectible, dryRun, clients.history, done, stats);
      }
      return Ok(stats);
    }

    /** A whole run. It is reported complete only after the last page, with the counters of the loop. */
    method Collect(runId: RunId, dryRun: bool, ghost stored: map<ChunkId, nat>, ghost collectible: ChunkId -> bool)
      returns (result: Result<RunView, EngineError>)
      requires clients.history == []
      modifies clients`history
      ensures clients.history != [] && clients.history[0] == StartRun(runId, node, dryRun)
      ensures var run := clients.services.start([], runId, node, dryRun);
              && (run.None? ==> result == Err(RequestFailed) && |clients.history| == 1)
              && (run.Some? && !IdentityMatches(run.value, runId, node, dryRun) ==> result == Err(IdentityMismatch) && |clients.history| == 1)
              && (run.Some? && IdentityMatches(run.value, runId, node, dryRun) && run.value.completed ==>
                    result == Ok(run.value) && |clients.history| == 1)
      // Completion is requested at most once, at the very end, and its reply is the result.
      ensures forall k | 0 <= k < |clients.history| - 1 :: !clients.history[k].CompleteRun?
      ensures result.Ok? && |clients.history| > 1 ==> EndsWithCompletion(clients.services, clients.history, runId, result)
      // Whatever the services answer, only chunks called collectible are deleted, and none by a dry run.
      ensures Justified(clients.services, clients.history)
      ensures dryRun ==> DeletedIds(clients.history) == []
      // Well-behaved services: the run visits every stored chunk exactly once and reports it all.
      ensures clients.services.start([], runId, node, dryRun) == Some(RunView(runId, node, dryRun, false))
              && WellBehaved(clients.services, stored, collectible) ==>
                EndsWithCompletion(clients.services, clients.history, runId, result)
                && Collected(stored, collectible, dryRun, clients.history, clients.history[|clients.history| - 1].stats)
    {
      hide Justified, ClassifiedIds, DeletedIds, LoopAdds, WellBehaved, Enumerates, Remaining, StatsOf;
      var run := clients.StartGcRun(runId, node, dryRun);
      NothingAskedYet(clients.services, StartRun(runId, node, dryRun));
      ghost var started := [StartRun(runId, node, dryRun)];
      assert clients.history == started;
      if run.None? {
        return Err(RequestFailed);
      }
      if !IdentityMatches(run.value, runId, node, dryRun) {
        return Err(IdentityMismatch);
      }
      if run.value.completed {
        return Ok(run.value);
      }
      var stats := CollectOpenRun(dryRun, stored, collectible);
      LoopCompletesNothing(started, clients.history);
      if stats.Err? {
        return Err(stats.error);
      }
      ghost var visited := clients.history;
      var completed := clients.CompleteGcRun(runId, stats.value);
      RunEnds(clients.services, visited, runId, stats.value);
      return if completed.Some? then Ok(completed.value) else Err(RequestFailed);
    }
  }

  datatype Turn = Onward(stats: Stats, cursor: ChunkId) | Last(stats: Stats)

  ghost predicate PageReady(stored: map<ChunkId, nat>, collectible: ChunkId -> bool, dryRun: bool, history: seq<Request>, done: seq<ChunkId>,
                            chunks: seq<StoredChunk>, scanned: Stats) {
    && InStep(stored, collectible, dryRun, history, done)
    && AreStored(chunks, stored) && Ascending(LexLess, done + IdsOf(chunks))
    && scanned == StatsOf(stored, collectible, dryRun, done + IdsOf(chunks), done)
  }

  /** Between two pages: what was classified, deleted and counted is what lies up to the cursor. */
  ghost predicate OnTrack(stored: map<ChunkId, nat>, collectible: ChunkId -> bool, dryRun: bool, history: seq<Request>,
                          after: Option<ChunkId>, done: seq<ChunkId>, stats: Stats) {
    && Visited(LexLess, stored, after, done)
    && InStep(stored, collectible, dryRun, history, done)
    && stats == StatsOf(stored, collectible, dryRun, done, done)
  }

  lemma StartsOnTrack(stored: map<ChunkId, nat>, collectible: ChunkId -> bool, dryRun: bool, history: seq<Request>)
    requires ClassifiedIds(history) == [] && DeletedIds(history) == []
    ensures OnTrack(stored, collectible, dryRun, history, None, [], NO_STATS)
  {
  }

  ghost predicate AtEnd(stored: map<ChunkId, nat>, collectible: ChunkId -> bool, dryRun: bool, history: seq<Request>, done: seq<ChunkId>, stats: Stats) {
    && Ascending(LexLess, done) && Elements(done) == stored.Keys
    && InStep(stored, collectible, dryRun, history, done)
    && stats == StatsOf(stored, collectible, dryRun, done, done)
  }

  lemma NothingAskedYet(services: Services, request: Request)
    requires !request.Classify? && !request.DeleteChunk?
    ensures Justified(services, [request]) && ClassifiedIds([request]) == [] && DeletedIds([request]) == []
  {
    assert [request][..0] == [];
  }

  lemma LoopCompletesNothing(started: seq<Request>, history: seq<Request>)
    requires |started| == 1 && !started[0].CompleteRun? && LoopAdds(started, history)
    ensures |history| >= 1 && history[0] == started[0]
    ensures forall k | 0 <= k < |history| :: !history[k].CompleteRun?
  {
    assert forall k | 0 <= k < |started| :: history[k] == started[k];
  }

  lemma RunEnds(services: Services, visited: seq<Request>, runId: RunId, stats: Stats)
    requires Justified(services, visited)
    ensures var history := visited + [CompleteRun(runId, stats)];
            && Justified(services, history)
            && history[..|history| - 1] == visited
            && ClassifiedIds(history) == ClassifiedIds(visited) && DeletedIds(history) == DeletedIds(visited)
            && forall stored :: Remaining(stored, history) == Remaining(stored, visited)
  {
    HistoryNext(visited, CompleteRun(runId, stats));
    JustifiedLonger(services, visited, CompleteRun(runId, stats));
  }

  /** The last request completes the run, and what the service replies to it is the result. */
  ghost predicate EndsWithCompletion(services: Services, history: seq<Request>, runId: RunId, result: Result<RunView, EngineError>) {
    && history != []
    && var last := history[|history| - 1];
    && last.CompleteRun? && last.runId == runId
    && var reply := services.complete(history[..|history| - 1], runId, last.stats);
    result == if reply.Some? then Ok(reply.value) else Err(RequestFailed)
  }

  predicate IdentityMatches(run: RunView, runId: RunId, node: NodeId, dryRun: bool) {
    run.runId == runId && run.node == node && run.dryRun == dryRun
  }

  /** Every stored chunk was classified exactly once, in order; a dry run deleted nothing, an apply run
      left exactly the chunks that are not collectible; and the counters count all of it. */
  ghost predicate Collected(stored: map<ChunkId, nat>, collectible: ChunkId -> bool, dryRun: bool, history: seq<Request>, stats: Stats) {
    && Enumerates(LexLess, ClassifiedIds(history), stored.Keys)
    && Remaining(stored, history) == (if dryRun then stored else map id | id in stored && !collectible(id) :: stored[id])
    && stats == StatsOf(stored, collectible, dryRun, ClassifiedIds(history), ClassifiedIds(history))
  }

  lemma CursorClimbs(after: Option<ChunkId>, next: ChunkId)
    requires IsContentId(next) && (after.Some? ==> IsContentId(after.value) && LexLess(after.value, next))
    ensures Distance(Some(next)) < Distance(after)
  {
    if after.Some? {
      HexValueClimbs(after.value, next);
    }
  }

  lemma NextPageInStep(services: Services, stored: map<ChunkId, nat>, collectible: ChunkId -> bool, dryRun: bool, before: seq<Request>,
                       after: Option<ChunkId>, done: seq<ChunkId>, page: Option<Page>)
    requires WellBehaved(services, stored, collectible)
    requires Visited(LexLess, stored, after, done) && InStep(stored, collectible, dryRun, before, done)
    requires var reply := services.page(before, after);
             page == if reply.Some? && WellFormed(reply.value) then reply else None
    ensures page.Some?
    ensures PageInStep(stored, done, page.value) && Continues(LexLess, stored, after, page.value, done + IdsOf(page.value.chunks))
  {
    var remaining := Remaining(stored, before);
    var reply := services.page(before, after).value;
    assert IsPage(remaining, after, PAGE_SIZE, reply);
    ChosenElements(collectible, done);
    PageContinuesVisit(stored, remaining, after, done, reply);
    StoredIdsAreWellFormed(stored, reply);
  }

  lemma StoredIdsAreWellFormed(stored: map<ChunkId, nat>, page: Page)
    requires (forall id | id in stored :: IsContentId(id)) && AreStored(page.chunks, stored)
    requires page.nextAfter.Some? ==> page.chunks != [] && page.nextAfter.value == page.chunks[|page.chunks| - 1].chunkId
    ensures WellFormed(page)
  {
  }

  lemma AllCollected(stored: map<ChunkId, nat>, collectible: ChunkId -> bool, dryRun: bool, history: seq<Request>, done: seq<ChunkId>, stats: Stats)
    requires AtEnd(stored, collectible, dryRun, history, done, stats)
    ensures Collected(stored, collectible, dryRun, history, stats)
  {
    ChosenElements(collectible, done);
    assert forall id | id in stored :: id in Elements(done);
  }

  ghost predicate PageInStep(stored: map<ChunkId, nat>, done: seq<ChunkId>, page: Page) {
    && Rising(LexLess, page.chunks)
    && AreStored(page.chunks, stored)
    && Ascending(LexLess, done + IdsOf(page.chunks))
    && (page.nextAfter.Some? ==> page.chunks != [] && page.nextAfter.value == page.chunks[|page.chunks| - 1].chunkId)
  }

  lemma NothingRefused(services: Services, stored: map<ChunkId, nat>, collectible: ChunkId -> bool, asked: seq<Request>,
                       chunks: seq<StoredChunk>, n: nat)
    requires WellBehaved(services, stored, collectible)
    ensures var decisions := Answers(collectible, IdsOf(chunks));
            DecisionsMatch(decisions, chunks) && (n < |decisions| ==> !RequestRefused(services, asked, decisions, n))
  {
  }

  /** Well-behaved services cause no error. */
  lemma PageCompletes(services: Services, stored: map<ChunkId, nat>, collectible: ChunkId -> bool, dryRun: bool, before: seq<Request>, done: seq<ChunkId>,
                      chunks: seq<StoredChunk>, result: Result<Stats, EngineError>, history: seq<Request>, n: nat)
    requires WellBehaved(services, stored, collectible) && InStep(stored, collectible, dryRun, before, done)
    requires AreStored(chunks, stored) && Ascending(LexLess, done + IdsOf(chunks)) && n <= |chunks|
    requires var ids := IdsOf(chunks);
             var decisions := Answers(collectible, ids);
             var asked := before + [Classify(ids)];
             && (result.Ok? ==>
                   && FollowsDecisions(asked, history, decisions, dryRun, |decisions|)
                   && result.value == Counted(services, asked, chunks, decisions, dryRun, StatsOf(stored, collectible, dryRun, done + ids, done), |decisions|))
             && (result.Err? ==> !DecisionsMatch(decisions, chunks) || (n > 0 && RequestRefused(services, asked, decisions, n - 1)))
    ensures var more := done + IdsOf(chunks);
            && result == Ok(StatsOf(stored, collectible, dryRun, more, more))
            && InStep(stored, collectible, dryRun, history, more)
  {
    var ids := IdsOf(chunks);
    NothingRefused(services, stored, collectible, before + [Classify(ids)], chunks, if n > 0 then n - 1 else 0);
    CountsEverything(services, stored, collectible, dryRun, before, done + ids, done, chunks);
    PageKeepsStep(stored, collectible, dryRun, before, done, ids);
  }

  function AfterDecision(stats: Stats, decision: Decision, size: nat, deleted: bool): Stats {
    if !decision.collectible then stats
    else
      var found := stats.(collectible := stats.collectible + 1, collectibleBytes := Add64(stats.collectibleBytes, size));
      if deleted then found.(deleted := found.deleted + 1, deletedBytes := Add64(found.deletedBytes, size)) else found
  }

  /** The counters after the first `n` decisions of a page: a deletion counts only if the node confirms it. */
  ghost function Counted(services: Services, history: seq<Request>, chunks: seq<StoredChunk>, decisions: seq<Decision>, dryRun: bool, stats: Stats, n: nat): Stats
    requires n <= |decisions| == |chunks|
  {
    if n == 0 then stats
    else
      AfterDecision(Counted(services, history, chunks, decisions, dryRun, stats, n - 1), decisions[n - 1], chunks[n - 1].size,
                    !dryRun && services.deleted(AfterDeletions(history, decisions, n - 1), decisions[n - 1].chunkId) == Some(true))
  }

  ghost function SomePage(stored: map<ChunkId, nat>, after: Option<ChunkId>): (page: Page)
    ensures IsPage(stored, after, PAGE_SIZE, page)
  {
    PageExists(stored, after, PAGE_SIZE);
    var page :| IsPage(stored, after, PAGE_SIZE, page);
    page
  }

  /** Well-behaved services exist for every inventory and every classification. */
  lemma WellBehavedServicesExist(stored: map<ChunkId, nat>, collectible: ChunkId -> bool) returns (services: Services)
    requires forall id | id in stored :: IsContentId(id)
    ensures WellBehaved(services, stored, collectible)
  {
    services := Services((history, runId, node, dryRun) => Some(RunView(runId, node, dryRun, false)),
                         (history, after) => Some(SomePage(Remaining(stored, history), after)),
                         (history, ids) => Some(Answers(collectible, ids)),
                         (history, id) => Some(id in Remaining(stored, history)),
                         (history, runId, stats) => None);
  }

  lemma {:induction false} DeletedWasRequested(history: seq<Request>, id: ChunkId) returns (k: nat)
    requires id in DeletedIds(history)
    ensures k < |history| && history[k] == Request.DeleteChunk(id)
  {
    var last := |history| - 1;
    if history[last] == Request.DeleteChunk(id) {
      k := last;
    } else {
      k := DeletedWasRequested(history[..last], id);
    }
  }

  /** A run that crashed, wherever it stopped, has deleted only collectible chunks; so a run that starts
      over on what remains ends with the same inventory as an undisturbed one. */
  lemma CrashedRunCanStartOver(services: Services, stored: map<ChunkId, nat>, collectible: ChunkId -> bool, crashed: seq<Request>)
    requires WellBehaved(services, stored, collectible) && Justified(services, crashed)
    ensures var remaining := Remaining(stored, crashed);
            (map id | id in remaining && !collectible(id) :: remaining[id]) == map id | id in stored && !collectible(id) :: stored[id]
  {
    forall id | id in DeletedIds(crashed)
      ensures collectible(id)
    {
      var k := DeletedWasRequested(crashed, id);
      var j :| 0 <= j < k && Calls(services, crashed[..k], j, id);
      var ids := crashed[..k][j].ids;
      var i :| 0 <= i < |ids| && Answers(collectible, ids)[i] == Decision(id, true);
    }
  }
}
