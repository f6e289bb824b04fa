/** What the calls to the repository mean on the rows themselves. Module Tables defines each reply by the
    queries that compute it; here the reply is described without them, in the terms in which a client or an
    operator would put it. */
module Calls {
  import opened Common
  import opened Ordering
  import opened ObjectLayouts
  import opened Tables
  import opened Outcomes
  import opened Invariant
  import Lifecycle
  import Placement

  /** The object still belongs to a version that has not been retired. */
  ghost predicate HasActiveVersion(db: Db, objectId: ObjectId) {
    exists v :: v in db.versions && db.versions[v].key.rootObjectId == objectId && v !in db.retired
  }

  ghost predicate Contains(d: Descriptor, c: ChunkId) {
    exists i :: 0 <= i < |d.chunks| && d.chunks[i].chunkId == c
  }

  /** Some layout with the chunk belongs to an object with an active version. */
  ghost predicate Needed(db: Db, c: ChunkId) {
    exists l :: l in db.layouts && Contains(db.layouts[l], c) && HasActiveVersion(db, db.layouts[l].objectId)
  }

  lemma LiveMeans(db: Db, l: LayoutId)
    requires Valid(db)
    ensures Live(db, l) <==> l in db.layouts && HasActiveVersion(db, db.layouts[l].objectId)
  {
    LiveIffObjectInUse(db, l);
  }

  lemma CollectibleMeans(db: Db, c: ChunkId)
    requires Valid(db)
    ensures Collectible(db, c) <==> !Needed(db, c)
  {
    hide Valid, Live;
    forall l
      ensures Live(db, l) <==> l in db.layouts && HasActiveVersion(db, db.layouts[l].objectId)
    {
      LiveMeans(db, l);
    }
    assert forall d: Descriptor :: HasChunk(d, c) <==> Contains(d, c);
  }

  // ---------------------------------------------------------------------------------------------
  // Finalization
  // ---------------------------------------------------------------------------------------------

  function VersionKeyOf(s: UploadSession, d: Descriptor): VersionKey {
    VersionKey(s.artifactId, d.objectId, s.parent, s.metadata)
  }

  /** The rows after a first finalization at time `now`: a version that is new carries that time. */
  ghost predicate CommittedAt(db: Db, sessionId: SessionId, d: Descriptor, now: real, reply: Finalized, later: Db)
    requires sessionId in db.sessions
  {
    var s := db.sessions[sessionId];
    var v := reply.versionId;
    && reply == Finalized(sessionId, db.hashing.versionId(VersionKeyOf(s, d)), d.objectId, db.hashing.layoutId(d))
    && v in later.versions && later.versions[v].key == VersionKeyOf(s, d)
    && later.versions[v].createdAt == (if v in db.versions then db.versions[v].createdAt else now)
    && (forall u | u != v :: u in later.versions <==> u in db.versions)
    && (forall u | u != v && u in db.versions :: later.versions[u] == db.versions[u])
    && later == db.(versions := later.versions,
                    objects := db.objects[d.objectId := d.totalSize],
                    layouts := db.layouts[reply.layoutId := d],
                    finalizations := db.finalizations[sessionId := Some(reply.layoutId)],
                    sessions := db.sessions[sessionId := s.(state := Committed(v))])
  }

  lemma FirstFinalization(db: Db, sessionId: SessionId, d: Descriptor, now: real)
    requires sessionId in db.sessions && db.sessions[sessionId].state.Open? && FinalizeUpload(db, sessionId, d, now).result.Ok?
    ensures var reply := FinalizeUpload(db, sessionId, d, now);
            CommittedAt(db, sessionId, d, now, reply.result.value, reply.db)
  {
    FinalizeOutcome(db, sessionId, d, now);
  }

  /** Every chunk of the layout has its row and is available on every node that the session's placement
      selects for it. */
  ghost predicate ChunksArePlaced(db: Db, s: UploadSession, d: Descriptor) {
    forall i | 0 <= i < |d.chunks| ::
      var c := d.chunks[i].chunkId;
      && c in db.chunks && db.chunks[c] == d.chunks[i].size
      && forall n | n in Placement.Select(db.hashing.digest, c, s.placement, s.replicationFactor) ::
           (c, n) in db.locations && db.locations[(c, n)] == Available
  }

  /** A first finalization succeeds if and only if: the sizes are ones the session's chunker could have
      produced, no chunk ID has two sizes, every chunk is in place, the version is neither retired nor its
      own parent, and rows with the same IDs have the same contents. */
  lemma FinalizationSucceedsIff(db: Db, sessionId: SessionId, d: Descriptor, now: real)
    requires Valid(db) && sessionId in db.sessions && db.sessions[sessionId].state.Open?
    ensures var s := db.sessions[sessionId];
            var v, l := db.hashing.versionId(VersionKeyOf(s, d)), db.hashing.layoutId(d);
            FinalizeUpload(db, sessionId, d, now).result.Ok? <==>
              && ShapeMatches(s.chunking, d)
              && SizesAgree(d.chunks)
              && ChunksArePlaced(db, s, d)
              && v !in db.retired && s.parent != Some(v)
              && (d.objectId in db.objects ==> db.objects[d.objectId] == d.totalSize)
              && (l in db.layouts ==> db.layouts[l] == d)
              && (v in db.versions ==> db.versions[v].key == VersionKeyOf(s, d))
  {
    var s := db.sessions[sessionId];
    assert SessionRowOk(s, FinalizationOf(db.finalizations, sessionId), db.versions, db.retired, db.layouts);
    if SizesAgree(d.chunks) {
      AcceptedMeansPlaced(db, s, d);
    }
  }

  lemma AcceptedMeansPlaced(db: Db, s: UploadSession, d: Descriptor)
    requires SizesAgree(d.chunks)
    ensures FirstRefusal(db, s, d, Enumeration(ChunkIds(d))).None? <==> ChunksArePlaced(db, s, d)
  {
    AcceptedIff(db, s, d);
    forall c
      ensures FullyReplicated(db, s, c) <==>
              forall n | n in Placement.Select(db.hashing.digest, c, s.placement, s.replicationFactor) ::
                (c, n) in db.locations && db.locations[(c, n)] == Available
    {
      var nodes := Desired(db, s, c);
      assert forall n | n in nodes :: exists i :: 0 <= i < |nodes| && nodes[i] == n;
      assert forall i | 0 <= i < |nodes| :: nodes[i] in nodes;
    }
  }

  // ---------------------------------------------------------------------------------------------
  // Garbage collection
  // ---------------------------------------------------------------------------------------------

  /** A page is classified if and only if it has 1 to 256 different IDs and the run is open; then a chunk is
      called collectible if and only if all versions of all objects with that chunk have been retired. */
  lemma ClassificationMeans(db: Db, r: RunId, ids: seq<ChunkId>)
    requires Valid(db)
    ensures ClassifyGcChunks(db, r, ids).Ok? <==>
              && 1 <= |ids| <= 256 && (forall i, j | 0 <= i < j < |ids| :: ids[i] != ids[j])
              && r in db.gcRuns && db.gcRuns[r].open
    ensures ClassifyGcChunks(db, r, ids).Ok? ==>
              var decisions := ClassifyGcChunks(db, r, ids).value;
              |decisions| == |ids| && forall i | 0 <= i < |ids| :: decisions[i] <==> !Needed(db, ids[i])
  {
    hide Valid, Needed, Collectible;
    forall i | 0 <= i < |ids|
      ensures Collectible(db, ids[i]) <==> !Needed(db, ids[i])
    {
      CollectibleMeans(db, ids[i]);
    }
  }

  /** Nothing that would be disturbed is going on. */
  ghost predicate Quiet(db: Db) {
    && (forall g | g in db.gcRuns :: !db.gcRuns[g].open)
    && (forall q | q in db.replicationRuns :: !db.replicationRuns[q].open)
    && (forall s | s in db.sessions :: !db.sessions[s].state.Open?)
  }

  /** A GC run with a new ID starts if and only if the node has a proper name, which need not be registered,
      and no other GC run, no replication run and no upload session is open. */
  lemma GcStartsIff(db: Db, r: RunId, node: NodeId, dryRun: bool)
    requires r !in db.gcRuns
    ensures var reply := StartGcRun(db, r, node, dryRun);
            && (reply.result.Ok? <==>
                  && 1 <= |node| <= 128
                  && (forall i | 0 <= i < |node| ::
                        'A' <= node[i] <= 'Z' || 'a' <= node[i] <= 'z' || '0' <= node[i] <= '9' || node[i] in "-_.")
                  && Quiet(db))
            && (reply.result.Ok? ==>
                  && reply.result.value == GcRun(node, dryRun, true, SweepStats(0, 0, 0, 0))
                  && reply.db == db.(gcRuns := db.gcRuns[r := reply.result.value]))
            && (reply.result.Err? ==> reply.db == db)
  {
    hide Placement.IsNodeId;
    NodeIdMeans(node);
  }

  lemma NodeIdMeans(node: NodeId)
    ensures Placement.IsNodeId(node) <==>
              && 1 <= |node| <= 128
              && forall i | 0 <= i < |node| ::
                   'A' <= node[i] <= 'Z' || 'a' <= node[i] <= 'z' || '0' <= node[i] <= '9' || node[i] in "-_."
  {
    forall i | 0 <= i < |node|
      ensures node[i] in "-_." <==> node[i] == '-' || node[i] == '_' || node[i] == '.'
    {
      CharactersOf(node[i]);
    }
  }

  lemma CharactersOf(c: char)
    ensures c in "-_." <==> c == '-' || c == '_' || c == '.'
  {
  }

  /** Exactly these rows are left when the chunks and layouts that nobody needs have been swept from a node. */
  ghost predicate SweptExactly(db: Db, node: NodeId, later: Db) {
    && (forall key :: key in later.locations <==> key in db.locations && (key.1 != node || Needed(db, key.0)))
    && (forall l :: l in later.layouts <==> l in db.layouts && HasActiveVersion(db, db.layouts[l].objectId))
    && (forall o :: o in later.objects <==>
          o in db.objects && ((exists v :: v in db.versions && db.versions[v].key.rootObjectId == o)
                              || (exists l :: l in later.layouts && later.layouts[l].objectId == o)))
    && (forall c :: c in later.chunks <==>
          c in db.chunks && ((exists l :: l in later.layouts && Contains(later.layouts[l], c)) || (exists key :: key in later.locations && key.0 == c)))
    && (forall s :: s in later.finalizations <==> s in db.finalizations)
    && (forall s | s in db.finalizations ::
          later.finalizations[s] == match db.finalizations[s]
                                    case None => None
                                    case Some(l) => if l in db.layouts && l !in later.layouts then None else Some(l))
  }

  ghost predicate RowsLeft<K, V>(rows: map<K, V>, later: map<K, V>) {
    forall key | key in later :: key in rows && later[key] == rows[key]
  }

  /** No row is changed, no other table is touched, and the counts are the numbers of rows that went. */
  ghost predicate SweptOnly(db: Db, later: Db, stats: SweepStats) {
    && RowsLeft(db.locations, later.locations) && RowsLeft(db.layouts, later.layouts)
    && RowsLeft(db.objects, later.objects) && RowsLeft(db.chunks, later.chunks)
    && later == db.(locations := later.locations, layouts := later.layouts, objects := later.objects, chunks := later.chunks,
                    finalizations := later.finalizations, gcRuns := later.gcRuns)
    && stats.locations == |db.locations| - |later.locations| && stats.layouts == |db.layouts| - |later.layouts|
    && stats.objects == |db.objects| - |later.objects| && stats.chunkRows == |db.chunks| - |later.chunks|
  }

  lemma {:induction false} RemovedRows<K, V>(rows: map<K, V>, gone: set<K>)
    requires gone <= rows.Keys
    ensures |rows - gone| == |rows| - |gone|
  {
    var left := rows - gone;
    assert left.Keys == rows.Keys - gone;
    assert |rows| == |rows.Keys| && |left| == |left.Keys|;
  }

  lemma TheseAreRows(db: Db, node: NodeId)
    ensures SweptLocations(db, node) <= db.locations.Keys && DeadLayouts(db) <= db.layouts.Keys
    ensures OrphanObjects(db) <= db.objects.Keys && OrphanChunks(db) <= db.chunks.Keys
  {
  }

  lemma SweepCountsRows(db: Db, node: NodeId)
    ensures var later, stats := Sweep(db, node), SweepCounts(db, node);
            && stats.locations == |db.locations| - |later.locations| && stats.layouts == |db.layouts| - |later.layouts|
            && stats.objects == |db.objects| - |later.objects| && stats.chunkRows == |db.chunks| - |later.chunks|
  {
    hide SweptLocations, DeadLayouts, OrphanObjects, OrphanChunks, Cleared;
    TheseAreRows(db, node);
    var db1 := WithoutLocations(db, node);
    var db2 := WithoutDeadLayouts(db1);
    var db3 := WithoutOrphanObjects(db2);
    TheseAreRows(db1, node);
    TheseAreRows(db2, node);
    TheseAreRows(db3, node);
    RemovedRows(db.locations, SweptLocations(db, node));
    RemovedRows(db1.layouts, DeadLayouts(db1));
    RemovedRows(db2.objects, OrphanObjects(db2));
    RemovedRows(db3.chunks, OrphanChunks(db3));
  }

  lemma SameOrphanObjects(db: Db, later: Db)
    requires later.objects == db.objects && later.versions == db.versions && later.layouts == db.layouts
    ensures OrphanObjects(later) == OrphanObjects(db)
  {
  }

  lemma SameOrphanChunks(db: Db, later: Db)
    requires later.chunks == db.chunks && later.locations == db.locations && later.layouts == db.layouts
    ensures OrphanChunks(later) == OrphanChunks(db)
  {
    assert forall c :: Referenced(later, c) <==> Referenced(db, c);
    assert forall c :: Located(later, c) <==> Located(db, c);
  }

  /** The tables after a sweep, as differences. */
  ghost predicate SweptTables(db: Db, node: NodeId, later: Db) {
    var middle := db.(locations := later.locations, layouts := later.layouts);
    && later.locations == db.locations - SweptLocations(db, node)
    && later.layouts == db.layouts - DeadLayouts(db)
    && later.objects == db.objects - OrphanObjects(middle)
    && later.chunks == db.chunks - OrphanChunks(middle)
    && later.finalizations == Cleared(db.finalizations, DeadLayouts(db))
    && later == db.(locations := later.locations, layouts := later.layouts, objects := later.objects, chunks := later.chunks,
                    finalizations := later.finalizations)
  }

  lemma SweepTables(db: Db, node: NodeId)
    ensures SweptTables(db, node, Sweep(db, node))
  {
    hide SweptLocations, DeadLayouts, OrphanObjects, OrphanChunks, Cleared;
    var db1 := WithoutLocations(db, node);
    var db2 := WithoutDeadLayouts(db1);
    var middle := db.(locations := db1.locations, layouts := db2.layouts);
    SameDead(db, db1);
    SameOrphanObjects(middle, db2);
    SameOrphanChunks(middle, WithoutOrphanObjects(db2));
  }

  lemma SameDead(db: Db, later: Db)
    requires later == db.(locations := later.locations)
    ensures DeadLayouts(later) == DeadLayouts(db)
  {
    assert forall l :: Live(later, l) <==> Live(db, l);
  }

  lemma LocationsLeft(db: Db, node: NodeId)
    requires Valid(db)
    ensures forall key :: key in db.locations - SweptLocations(db, node) <==> key in db.locations && (key.1 != node || Needed(db, key.0))
  {
    hide Valid, Collectible, Needed;
    forall c
      ensures Collectible(db, c) <==> !Needed(db, c)
    {
      CollectibleMeans(db, c);
    }
  }

  lemma LayoutsLeft(db: Db)
    requires Valid(db)
    ensures forall l :: l in DeadLayouts(db) <==> l in db.layouts && !HasActiveVersion(db, db.layouts[l].objectId)
  {
    hide Valid, Live, HasActiveVersion;
    forall l
      ensures Live(db, l) <==> l in db.layouts && HasActiveVersion(db, db.layouts[l].objectId)
    {
      LiveMeans(db, l);
    }
  }

  lemma OrphansMean(db: Db)
    ensures forall o :: o in OrphanObjects(db) <==>
              && o in db.objects
              && !(exists v :: v in db.versions && db.versions[v].key.rootObjectId == o)
              && !(exists l :: l in db.layouts && db.layouts[l].objectId == o)
    ensures forall c :: c in OrphanChunks(db) <==>
              && c in db.chunks
              && !(exists l :: l in db.layouts && Contains(db.layouts[l], c))
              && !(exists key :: key in db.locations && key.0 == c)
  {
    assert forall d: Descriptor, c :: HasChunk(d, c) <==> Contains(d, c);
  }

  lemma ObjectsLeft(db: Db, node: NodeId, later: Db)
    requires SweptTables(db, node, later)
    ensures forall o :: o in later.objects <==>
              o in db.objects && ((exists v :: v in db.versions && db.versions[v].key.rootObjectId == o)
                                  || (exists l :: l in later.layouts && later.layouts[l].objectId == o))
  {
    hide OrphanObjects, OrphanChunks, SweptLocations, DeadLayouts;
    OrphansMean(db.(locations := later.locations, layouts := later.layouts));
  }

  lemma ChunksLeft(db: Db, node: NodeId, later: Db)
    requires SweptTables(db, node, later)
    ensures forall c :: c in later.chunks <==>
              c in db.chunks && ((exists l :: l in later.layouts && Contains(later.layouts[l], c)) || (exists key :: key in later.locations && key.0 == c))
  {
    hide OrphanObjects, OrphanChunks, SweptLocations, DeadLayouts, Contains;
    OrphansMean(db.(locations := later.locations, layouts := later.layouts));
  }

  lemma FinalizationsLeft(db: Db, node: NodeId, later: Db)
    requires SweptTables(db, node, later)
    ensures forall s :: s in later.finalizations <==> s in db.finalizations
    ensures forall s | s in db.finalizations ::
              later.finalizations[s] == match db.finalizations[s]
                                        case None => None
                                        case Some(l) => if l in db.layouts && l !in later.layouts then None else Some(l)
  {
    hide OrphanObjects, OrphanChunks, SweptLocations;
    assert forall l :: l in DeadLayouts(db) <==> l in db.layouts && l !in later.layouts;
  }

  lemma SweepLeaves(db: Db, node: NodeId)
    requires Valid(db)
    ensures SweptExactly(db, node, Sweep(db, node))
  {
    hide Valid, Needed, HasActiveVersion, Contains, Sweep, SweptLocations, DeadLayouts, SweptTables;
    var later := Sweep(db, node);
    SweepTables(db, node);
    LocationsLeft(db, node);
    LayoutsLeft(db);
    SurvivorsOf(db, node, later);
    ObjectsLeft(db, node, later);
    ChunksLeft(db, node, later);
    FinalizationsLeft(db, node, later);
  }

  lemma SurvivorsOf(db: Db, node: NodeId, later: Db)
    requires SweptTables(db, node, later)
    ensures later.locations == db.locations - SweptLocations(db, node) && later.layouts == db.layouts - DeadLayouts(db)
  {
    hide OrphanObjects, OrphanChunks, SweptLocations, DeadLayouts;
  }

  lemma RowsAreLeft<K, V>(rows: map<K, V>, gone: set<K>)
    ensures RowsLeft(rows, rows - gone)
  {
  }

  lemma RowsOnlyGo(db: Db, node: NodeId, later: Db)
    requires SweptTables(db, node, later)
    ensures RowsLeft(db.locations, later.locations) && RowsLeft(db.layouts, later.layouts)
    ensures RowsLeft(db.objects, later.objects) && RowsLeft(db.chunks, later.chunks)
  {
    hide SweptLocations, DeadLayouts, OrphanObjects, OrphanChunks, RowsLeft;
    var middle := db.(locations := later.locations, layouts := later.layouts);
    RowsAreLeft(db.locations, SweptLocations(db, node));
    RowsAreLeft(db.layouts, DeadLayouts(db));
    RowsAreLeft(db.objects, OrphanObjects(middle));
    RowsAreLeft(db.chunks, OrphanChunks(middle));
  }

  lemma OtherTablesStay(db: Db, node: NodeId)
    ensures var later := Sweep(db, node);
            later == db.(locations := later.locations, layouts := later.layouts, objects := later.objects, chunks := later.chunks,
                         finalizations := later.finalizations, gcRuns := later.gcRuns)
  {
    hide SweptLocations, DeadLayouts, OrphanObjects, OrphanChunks, Cleared;
  }

  lemma SweepTouchesOnly(db: Db, node: NodeId)
    ensures SweptOnly(db, Sweep(db, node), SweepCounts(db, node))
  {
    hide Sweep, SweepCounts, SweptTables, RowsLeft;
    SweepTables(db, node);
    SweepCountsRows(db, node);
    RowsOnlyGo(db, node, Sweep(db, node));
    OtherTablesStay(db, node);
  }

  lemma RecordAdded(db: Db, node: NodeId, swept: Db, stats: SweepStats, later: Db)
    requires SweptExactly(db, node, swept) && SweptOnly(db, swept, stats) && later == swept.(gcRuns := later.gcRuns)
    ensures SweptExactly(db, node, later) && SweptOnly(db, later, stats)
  {
    hide Needed, HasActiveVersion, Contains, RowsLeft;
    SweptLikewise(db, node, swept, later);
  }

  lemma SweptLikewise(db: Db, node: NodeId, swept: Db, later: Db)
    requires SweptExactly(db, node, swept)
    requires later.locations == swept.locations && later.layouts == swept.layouts && later.objects == swept.objects
    requires later.chunks == swept.chunks && later.finalizations == swept.finalizations
    ensures SweptExactly(db, node, later)
  {
    hide Needed, HasActiveVersion, Contains;
  }

  /** Completing an apply run sweeps exactly what nobody needs, and counts it. */
  lemma CompletionSweepsExactly(db: Db, r: RunId)
    requires Valid(db) && r in db.gcRuns && db.gcRuns[r].open && !db.gcRuns[r].dryRun && CompleteGcRun(db, r).result.Ok?
    ensures var reply := CompleteGcRun(db, r);
            && SweptExactly(db, db.gcRuns[r].node, reply.db)
            && SweptOnly(db, reply.db, reply.result.value.stats)
            && reply.result.value == db.gcRuns[r].(open := false, stats := reply.result.value.stats)
            && reply.db.gcRuns == db.gcRuns[r := reply.result.value]
  {
    hide Valid, SweptExactly, SweptOnly, Sweep, SweepCounts;
    var node := db.gcRuns[r].node;
    SweepLeaves(db, node);
    SweepTouchesOnly(db, node);
    SweepTables(db, node);
    RecordAdded(db, node, Sweep(db, node), SweepCounts(db, node), CompleteGcRun(db, r).db);
  }

  /** What a dry run counts: the locations and layouts that would go, and the objects and chunk rows that
      nothing refers to already. It changes nothing but its own record. */
  lemma DryRunCountsExactly(db: Db, r: RunId)
    requires Valid(db) && r in db.gcRuns && db.gcRuns[r].open && db.gcRuns[r].dryRun && CompleteGcRun(db, r).result.Ok?
    ensures var reply := CompleteGcRun(db, r);
            var stats := reply.result.value.stats;
            && reply.db == db.(gcRuns := db.gcRuns[r := db.gcRuns[r].(open := false, stats := stats)])
            && stats.locations == |set key | key in db.locations && key.1 == db.gcRuns[r].node && !Needed(db, key.0)|
            && stats.layouts == |set l | l in db.layouts && !HasActiveVersion(db, db.layouts[l].objectId)|
            && stats.objects == |set o | && o in db.objects
                                         && (forall v | v in db.versions :: db.versions[v].key.rootObjectId != o)
                                         && (forall l | l in db.layouts :: db.layouts[l].objectId != o)|
            && stats.chunkRows == |set c | && c in db.chunks
                                           && (forall l | l in db.layouts :: !Contains(db.layouts[l], c))
                                           && (forall key | key in db.locations :: key.0 != c)|
  {
    hide Valid, Live, Collectible, Needed, HasActiveVersion;
    var node := db.gcRuns[r].node;
    forall c
      ensures Collectible(db, c) <==> !Needed(db, c)
    {
      CollectibleMeans(db, c);
    }
    forall l
      ensures Live(db, l) <==> l in db.layouts && HasActiveVersion(db, db.layouts[l].objectId)
    {
      LiveMeans(db, l);
    }
    assert forall d: Descriptor, c :: HasChunk(d, c) <==> Contains(d, c);
    assert SweptLocations(db, node) == set key | key in db.locations && key.1 == node && !Needed(db, key.0);
    assert DeadLayouts(db) == set l | l in db.layouts && !HasActiveVersion(db, db.layouts[l].objectId);
    assert OrphanChunks(db) == set c | && c in db.chunks
                                       && (forall l | l in db.layouts :: !Contains(db.layouts[l], c))
                                       && (forall key | key in db.locations :: key.0 != c);
  }

  // ---------------------------------------------------------------------------------------------
  // Replication
  // ---------------------------------------------------------------------------------------------

  predicate IsActive(db: Db, n: NodeId) {
    n in db.nodes && db.nodes[n] == Active
  }

  /** The layout belongs to the object, and each of its chunks is registered as available on some node that
      is active or draining. */
  ghost predicate CanRestore(db: Db, l: LayoutId, objectId: ObjectId) {
    && l in db.layouts && db.layouts[l].objectId == objectId
    && forall i | 0 <= i < |db.layouts[l].chunks| :: HasReader(db, db.layouts[l].chunks[i].chunkId)
  }

  ghost predicate HasReader(db: Db, c: ChunkId) {
    exists n :: (c, n) in db.locations && db.locations[(c, n)] == Available && n in db.nodes && db.nodes[n] in {Active, Draining}
  }

  lemma RestorableMeans(db: Db, objectId: ObjectId)
    ensures forall l :: l in RestorableLayouts(db, objectId) <==> CanRestore(db, l, objectId)
  {
    forall c
      ensures HasReader(db, c) <==> exists n :: IsAvailable(db, c, n) && ReadableNode(db, n)
    {
      if HasReader(db, c) {
        var n :| (c, n) in db.locations && db.locations[(c, n)] == Available && n in db.nodes && db.nodes[n] in {Active, Draining};
        assert IsAvailable(db, c, n) && ReadableNode(db, n);
      }
      if n :| IsAvailable(db, c, n) && ReadableNode(db, n) {
        assert (c, n) in db.locations;
      }
    }
    forall l | l in db.layouts
      ensures Restorable(db, db.layouts[l]) <==> forall i | 0 <= i < |db.layouts[l].chunks| :: HasReader(db, db.layouts[l].chunks[i].chunkId)
    {
      var chunks := db.layouts[l].chunks;
      assert forall i | 0 <= i < |chunks| :: chunks[i].chunkId in ChunkIds(db.layouts[l]);
    }
  }

  /** A run that is newly started: open, for that version and factor, on the restorable layout with the least
      ID, and placed on exactly the active nodes, in the order of their IDs. */
  ghost predicate StartedAs(db: Db, versionId: VersionId, replicationFactor: nat, run: ReplicationRun)
    requires versionId in db.versions
  {
    && run.open && run.versionId == versionId && run.replicationFactor == replicationFactor
    && (forall n :: n in run.placement <==> IsActive(db, n))
    && Ascending(LexLess, run.placement)
    && CanRestore(db, run.layoutId, db.versions[versionId].key.rootObjectId)
    && forall l | CanRestore(db, l, db.versions[versionId].key.rootObjectId) :: l == run.layoutId || LexLess(run.layoutId, l)
  }

  lemma LeastOf(keys: set<string>)
    requires keys != {}
    ensures Enumeration(keys) != [] && Enumeration(keys)[0] in keys
    ensures forall key | key in keys :: key == Enumeration(keys)[0] || LexLess(Enumeration(keys)[0], key)
  {
    var listed := Enumeration(keys);
    NoElements(listed);
    assert listed[0] in Elements(listed);
    forall key | key in keys
      ensures key == listed[0] || LexLess(listed[0], key)
    {
      assert key in Elements(listed);
      var i :| 0 <= i < |listed| && listed[i] == key;
    }
  }

  lemma NewReplicationRun(db: Db, r: RunId, versionId: VersionId, replicationFactor: nat)
    requires r !in db.replicationRuns && StartReplicationRun(db, r, versionId, replicationFactor).result.Ok?
    ensures var reply := StartReplicationRun(db, r, versionId, replicationFactor);
            && versionId in db.versions && StartedAs(db, versionId, replicationFactor, reply.result.value)
            && reply.db == db.(replicationRuns := db.replicationRuns[r := reply.result.value])
  {
    var objectId := db.versions[versionId].key.rootObjectId;
    var active := Enumeration(ActiveNodes(db));
    NoElements(Enumeration(RestorableLayouts(db, objectId)));
    RestorableMeans(db, objectId);
    LeastOf(RestorableLayouts(db, objectId));
    forall n
      ensures n in active <==> IsActive(db, n)
    {
      assert n in active <==> n in Elements(active);
    }
  }

  ghost function ActiveCount(db: Db): nat {
    |set n | n in db.nodes && db.nodes[n] == Active|
  }

  /** A run with a new ID starts if and only if the factor is in range, no GC run and no other replication run
      is open, the version is there and active, some layout of its object can be restored, and there are
      enough active nodes and not too many. */
  lemma ReplicationStartsIff(db: Db, r: RunId, versionId: VersionId, replicationFactor: nat)
    requires r !in db.replicationRuns
    ensures StartReplicationRun(db, r, versionId, replicationFactor).result.Ok? <==>
              && 1 <= replicationFactor <= 8
              && (forall g | g in db.gcRuns :: !db.gcRuns[g].open)
              && (forall q | q in db.replicationRuns :: !db.replicationRuns[q].open)
              && versionId in db.versions && versionId !in db.retired
              && (exists l :: CanRestore(db, l, db.versions[versionId].key.rootObjectId))
              && replicationFactor <= ActiveCount(db) <= 64
    ensures StartReplicationRun(db, r, versionId, replicationFactor).result.Ok?
            || StartReplicationRun(db, r, versionId, replicationFactor).db == db
  {
    LexStrictTotal();
    EnumerationSize(LexLess, Enumeration(ActiveNodes(db)), ActiveNodes(db));
    assert ActiveCount(db) == |ActiveNodes(db)|;
    if versionId in db.versions {
      var objectId := db.versions[versionId].key.rootObjectId;
      RestorableMeans(db, objectId);
      SomeMember(RestorableLayouts(db, objectId));
    }
  }

  lemma SomeMember(keys: set<string>)
    ensures Enumeration(keys) != [] <==> exists key :: key in keys
  {
    NoElements(Enumeration(keys));
  }

  /** Completing an open run succeeds if and only if every chunk of its layout is registered as available on
      every node that the run's placement selects for it. */
  lemma ReplicationCompletesIff(db: Db, r: RunId)
    requires Valid(db) && r in db.replicationRuns && db.replicationRuns[r].open
    ensures var run := db.replicationRuns[r];
            var reply := CompleteReplicationRun(db, r);
            && run.layoutId in db.layouts
            && (reply.result.Ok? <==>
                  forall i, n | 0 <= i < |db.layouts[run.layoutId].chunks|
                                && n in Placement.Select(db.hashing.digest, db.layouts[run.layoutId].chunks[i].chunkId, run.placement, run.replicationFactor) ::
                    var c := db.layouts[run.layoutId].chunks[i].chunkId;
                    (c, n) in db.locations && db.locations[(c, n)] == Available)
            && (if reply.result.Ok? then reply == Reply(db.(replicationRuns := db.replicationRuns[r := run.(open := false)]), Ok(run.(open := false)))
                else reply == Fail(db, UnderReplicated))
  {
    var run := db.replicationRuns[r];
    assert ReplicationOpen(db.replicationRuns);
    forall c
      ensures ReplicasAvailable(db, run, c) <==>
              forall n | n in Placement.Select(db.hashing.digest, c, run.placement, run.replicationFactor) ::
                (c, n) in db.locations && db.locations[(c, n)] == Available
    {
      var nodes := Targets(db, run, c);
      assert forall n | n in nodes :: exists i :: 0 <= i < |nodes| && nodes[i] == n;
      assert forall i | 0 <= i < |nodes| :: nodes[i] in nodes;
    }
  }

  // ---------------------------------------------------------------------------------------------
  // Sessions and the catalog
  // ---------------------------------------------------------------------------------------------

  /** A session with a new ID is created if and only if no GC run is open, its nodes are sorted, different,
      active and enough, and its artifact and its parent version are there; a session that is there already
      is left alone, and answered for only if it is the very same. */
  lemma SessionCreatedIff(db: Db, sessionId: SessionId, s: UploadSession)
    ensures var reply := CreateUploadSession(db, sessionId, s);
            && (sessionId !in db.sessions ==>
                  (reply.result.Ok? <==>
                     && s.state.Open?
                     && (forall g | g in db.gcRuns :: !db.gcRuns[g].open)
                     && 1 <= s.replicationFactor <= |s.placement| <= 64 && s.replicationFactor <= 8
                     && Ascending(LexLess, s.placement)
                     && (forall n | n in s.placement :: Placement.IsNodeId(n) && IsActive(db, n))
                     && s.artifactId in db.artifacts
                     && (s.parent.Some? ==> s.parent.value in db.versions && db.versions[s.parent.value].key.artifactId == s.artifactId)))
            && (sessionId in db.sessions ==> reply.db == db && (reply.result.Ok? ==> s == db.sessions[sessionId]))
            && reply.db == if reply.result.Ok? then db.(sessions := db.sessions[sessionId := s]) else db
  {
    PlacementMeans(s);
    if sessionId in db.sessions && db.sessions[sessionId] == s {
      assert db.sessions[sessionId := s] == db.sessions;
    }
  }

  lemma PlacementMeans(s: UploadSession)
    ensures Placement.ValidReplication(s.placement, s.replicationFactor) <==>
              && 1 <= s.replicationFactor <= |s.placement| <= 64 && s.replicationFactor <= 8
              && Ascending(LexLess, s.placement)
              && forall n | n in s.placement :: Placement.IsNodeId(n)
  {
    if Placement.SortedNodeIds(s.placement) {
      Placement.SortedNodeIdsDistinct(s.placement);
    }
  }

  ghost predicate CanNegotiate(db: Db, sessionId: SessionId, batch: seq<ChunkMetadata>) {
    && sessionId in db.sessions && db.sessions[sessionId].state.Open?
    && (forall i | 0 <= i < |batch| :: batch[i].size > 0)
    && (forall i, j | 0 <= i < |batch| && 0 <= j < |batch| && batch[i].chunkId == batch[j].chunkId :: batch[i].size == batch[j].size)
    && (forall i | 0 <= i < |batch| && batch[i].chunkId in db.chunks :: db.chunks[batch[i].chunkId] == batch[i].size)
  }

  lemma NegotiationSucceedsIff(db: Db, sessionId: SessionId, batch: seq<ChunkMetadata>)
    ensures NegotiateChunks(db, sessionId, batch).result.Ok? <==> CanNegotiate(db, sessionId, batch)
    ensures NegotiateChunks(db, sessionId, batch).db ==
            if CanNegotiate(db, sessionId, batch) then db.(chunks := BatchSizes(batch) + db.chunks) else db
  {
    hide BatchSizes;
  }

  /** A batch is negotiated if and only if the session is open, no chunk is empty, and no chunk has two sizes
      within the batch or another one in the database; then exactly its chunks have been added. */
  lemma NegotiatedIff(db: Db, sessionId: SessionId, batch: seq<ChunkMetadata>)
    ensures var reply := NegotiateChunks(db, sessionId, batch);
            && (reply.result.Ok? <==> CanNegotiate(db, sessionId, batch))
            && reply.db == db.(chunks := reply.db.chunks)
            && (reply.result.Err? ==> reply.db == db)
            && (reply.result.Ok? ==>
                  && (forall c :: c in reply.db.chunks <==> c in db.chunks || exists i :: 0 <= i < |batch| && batch[i].chunkId == c)
                  && (forall c | c in db.chunks :: reply.db.chunks[c] == db.chunks[c])
                  && (forall i | 0 <= i < |batch| :: reply.db.chunks[batch[i].chunkId] == batch[i].size))
  {
    hide NegotiateChunks, BatchSizes;
    NegotiationSucceedsIff(db, sessionId, batch);
    if CanNegotiate(db, sessionId, batch) {
      BatchRows(batch);
    }
  }

  lemma {:induction false} BatchRows(batch: seq<ChunkMetadata>)
    requires BatchSizesAgree(batch)
    ensures forall c :: c in BatchSizes(batch) <==> exists i :: 0 <= i < |batch| && batch[i].chunkId == c
    ensures forall i | 0 <= i < |batch| :: BatchSizes(batch)[batch[i].chunkId] == batch[i].size
  {
    if batch != [] {
      var rest := batch[..|batch| - 1];
      assert forall i | 0 <= i < |rest| :: rest[i] == batch[i];
      BatchRows(rest);
      assert forall c :: c in BatchSizes(rest) ==> exists i :: 0 <= i < |rest| && rest[i].chunkId == c;
    }
  }

  ghost predicate OnlySet<K(!new), V>(rows: map<K, V>, key: K, value: V, later: map<K, V>) {
    && key in later && later[key] == value
    && forall other | other != key ::
         && (other in later <==> other in rows)
         && (other in rows ==> later[other] == rows[other])
  }

  lemma RowSet<K(!new), V>(rows: map<K, V>, key: K, value: V)
    ensures OnlySet(rows, key, value, rows[key := value])
  {
  }

  /** A registered location has the state it was registered with, and no other replica is affected. */
  lemma LocationRegistered(db: Db, c: ChunkId, n: NodeId, state: LocationState)
    ensures var reply := RegisterStorageLocation(db, c, n, state);
            && (reply.result.Ok? <==> n != "" && c in db.chunks)
            && reply.db == db.(locations := reply.db.locations)
            && (reply.result.Ok? ==> OnlySet(db.locations, (c, n), state, reply.db.locations))
            && (reply.result.Err? ==> reply.db == db)
  {
    hide OnlySet;
    RowSet(db.locations, (c, n), state);
  }

  /** Taking a pin away undoes setting it, and a tag moves to its newest version. */
  lemma PinsAndTags(db: Db, v: VersionId, u: VersionId, artifactId: ArtifactId, name: string)
    requires PinVersion(db, v).result.Ok?
    ensures v in PinVersion(db, v).db.pins
    ensures UnpinVersion(PinVersion(db, v).db, v).db == db.(pins := db.pins - {v})
    ensures UnpinVersion(PinVersion(db, v).db, v).result == Ok(true)
    ensures UnpinVersion(db, v).result == Ok(v in db.pins)
    ensures SetTag(db, artifactId, name, u).result.Ok? <==>
              name != "" && u in db.versions && u !in db.retired && db.versions[u].key.artifactId == artifactId
    ensures SetTag(db, artifactId, name, u).result.Ok? ==>
              SetTag(db, artifactId, name, u).db == db.(tags := db.tags[(artifactId, name) := u])
  {
  }

  /** A manifest with a new ID is registered if and only if each of its roles names a version that is there and
      not retired; one that is there already is left alone. */
  lemma ManifestRegisteredIff(db: Db, m: ManifestId, entries: map<string, VersionId>)
    ensures var reply := RegisterManifest(db, m, entries);
            && (m !in db.manifests ==>
                  (reply.result.Ok? <==> forall role | role in entries :: entries[role] in db.versions && entries[role] !in db.retired))
            && (m in db.manifests && reply.result.Ok? ==> entries == db.manifests[m])
            && reply.db == if reply.result.Ok? then db.(manifests := db.manifests[m := entries]) else db
  {
    if m in db.manifests && db.manifests[m] == entries {
      assert db.manifests[m := entries] == db.manifests;
    }
  }

  /** A session can be aborted, any number of times, unless it has been committed. */
  lemma AbortedIff(db: Db, sessionId: SessionId)
    ensures var reply := AbortUploadSession(db, sessionId);
            && (reply.result.Ok? <==> sessionId in db.sessions && !db.sessions[sessionId].state.Committed?)
            && (reply.result.Ok? ==> reply.db == db.(sessions := db.sessions[sessionId := db.sessions[sessionId].(state := Aborted)]))
            && (reply.result.Err? ==> reply.db == db)
            && AbortUploadSession(reply.db, sessionId) == reply
  {
    if sessionId in db.sessions && db.sessions[sessionId].state.Aborted? {
      var aborted := db.sessions[sessionId].(state := Aborted);
      assert db.sessions[sessionId := aborted] == db.sessions;
    }
  }

  lemma KindsMean(db: Db)
    ensures KindsValid(db) <==>
            forall v | v in db.versions && v !in db.retired && db.versions[v].key.rootObjectId in db.objects ::
              Lifecycle.ResolveKind(db.versions[v].key.metadata).Some?
  {
    hide Lifecycle.ResolveKind;
    assert forall v :: v in ScannedVersions(db) <==> v in db.versions && v !in db.retired && db.versions[v].key.rootObjectId in db.objects;
  }

  /** A lifecycle run with a new ID takes place if and only if the policy is there, the kind of every version
      that may be retired is known, and nothing is going on. */
  lemma LifecycleRunsIff(db: Db, r: RunId, policyId: PolicyId, apply: bool, now: real)
    requires r !in db.lifecycleRuns
    ensures var reply := RunLifecycle(db, r, policyId, apply, now);
            && (reply.result.Ok? <==>
                  && Quiet(db) && policyId in db.policies
                  && forall v | v in db.versions && v !in db.retired && db.versions[v].key.rootObjectId in db.objects ::
                       Lifecycle.ResolveKind(db.versions[v].key.metadata).Some?)
            && reply.db == db.(lifecycleRuns := reply.db.lifecycleRuns, retired := reply.db.retired)
            && (reply.result.Ok? ==>
                  && reply.result.value == LifecycleRun(policyId, apply, now)
                  && reply.db.lifecycleRuns == db.lifecycleRuns[r := reply.result.value]
                  && (!apply ==> reply.db.retired == db.retired))
            && (reply.result.Err? ==> reply.db == db)
  {
    hide Lifecycle.ResolveKind, RetiredBy, KindsValid;
    KindsMean(db);
  }
}
