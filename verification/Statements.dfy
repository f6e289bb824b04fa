/** The loops inside the repository's transactions
    (src/metadata/postgres_metadata_repository.cpp). */
module Statements {
  import opened Common
  import opened Ordering
  import opened ObjectLayouts
  import opened Tables
  import opened Calls
  import Lifecycle

  method AnyRetired(entries: map<string, VersionId>, retired: set<VersionId>) returns (found: bool)
    ensures found <==> exists role :: role in entries && entries[role] in retired
  {
    var roles := Listed(entries.Keys);
    assert forall role | role in entries :: role in Elements(roles);
    assert forall i | 0 <= i < |roles| :: roles[i] in Elements(roles);
    for index := 0 to |roles|
      invariant forall i | 0 <= i < index :: entries[roles[i]] !in retired
    {
      if entries[roles[index]] in retired {
        return true;
      }
    }
    return false;
  }

  /** Inserting the entries fails on a version that does not exist. */
  method AnyMissing(entries: map<string, VersionId>, versions: map<VersionId, Version>) returns (found: bool)
    ensures found <==> exists role :: role in entries && entries[role] !in versions
  {
    var roles := Listed(entries.Keys);
    assert forall role | role in entries :: role in Elements(roles);
    assert forall i | 0 <= i < |roles| :: roles[i] in Elements(roles);
    for index := 0 to |roles|
      invariant forall i | 0 <= i < index :: entries[roles[i]] in versions
    {
      if entries[roles[index]] !in versions {
        return true;
      }
    }
    return false;
  }

  /** `seen` has exactly the sizes of the first `n` chunks. */
  ghost predicate Seen(seen: map<ChunkId, nat>, batch: seq<ChunkMetadata>, n: nat)
    requires n <= |batch|
  {
    && (forall i | 0 <= i < n :: batch[i].chunkId in seen && seen[batch[i].chunkId] == batch[i].size)
    && (forall id | id in seen :: exists i | 0 <= i < n :: batch[i].chunkId == id)
  }

  lemma SeenNext(seen: map<ChunkId, nat>, batch: seq<ChunkMetadata>, n: nat)
    requires n < |batch| && Seen(seen, batch, n)
    requires batch[n].chunkId in seen ==> seen[batch[n].chunkId] == batch[n].size
    ensures Seen(seen[batch[n].chunkId := batch[n].size], batch, n + 1)
  {
  }

  lemma SeenNothing(batch: seq<ChunkMetadata>)
    ensures Seen(map[], batch, 0)
  {
  }

  lemma SeenAll(seen: map<ChunkId, nat>, batch: seq<ChunkMetadata>)
    requires Seen(seen, batch, |batch|)
    ensures BatchSizesAgree(batch)
  {
  }

  lemma SeenConflict(seen: map<ChunkId, nat>, batch: seq<ChunkMetadata>, n: nat)
    requires n < |batch| && Seen(seen, batch, n) && batch[n].chunkId in seen && seen[batch[n].chunkId] != batch[n].size
    ensures !BatchSizesAgree(batch)
  {
    var i :| 0 <= i < n && batch[i].chunkId == batch[n].chunkId;
    assert batch[i].size != batch[n].size;
  }

  ghost predicate NoneEmpty(batch: seq<ChunkMetadata>, n: nat)
    requires n <= |batch|
  {
    forall i | 0 <= i < n :: batch[i].size != 0
  }

  /** `seen_sizes`: refuses empty chunks and conflicting sizes within the batch. */
  method CollectSizes(batch: seq<ChunkMetadata>) returns (sizes: Option<map<ChunkId, nat>>)
    ensures sizes.Some? <==> BatchSizesAgree(batch) && NoneEmpty(batch, |batch|)
    ensures sizes.Some? ==> sizes.value == BatchSizes(batch)
  {
    hide Seen, BatchSizesAgree;
    var seen: map<ChunkId, nat> := map[];
    SeenNothing(batch);
    for index := 0 to |batch|
      invariant NoneEmpty(batch, index) && Seen(seen, batch, index)
      invariant seen == BatchSizes(batch[..index])
    {
      var chunk := batch[index];
      assert batch[..index + 1][..index] == batch[..index];
      if chunk.size == 0 {
        return None;
      }
      if chunk.chunkId in seen && seen[chunk.chunkId] != chunk.size {
        SeenConflict(seen, batch, index);
        return None;
      }
      SeenNext(seen, batch, index);
      seen := seen[chunk.chunkId := chunk.size];
    }
    SeenAll(seen, batch);
    assert batch[..|batch|] == batch;
    return Some(seen);
  }

  method AnyConflict(batch: seq<ChunkMetadata>, chunks: map<ChunkId, nat>) returns (conflict: bool)
    ensures conflict <==> exists i | 0 <= i < |batch| :: batch[i].chunkId in chunks && chunks[batch[i].chunkId] != batch[i].size
  {
    for index := 0 to |batch|
      invariant forall i | 0 <= i < index :: !(batch[i].chunkId in chunks && chunks[batch[i].chunkId] != batch[i].size)
    {
      if batch[index].chunkId in chunks && chunks[batch[index].chunkId] != batch[index].size {
        return true;
      }
    }
    return false;
  }

  /** Every chunk but the last is checked, then the last one. */
  method CheckShape(chunking: SessionChunking, d: Descriptor) returns (ok: bool)
    ensures ok <==> ShapeMatches(chunking, d)
  {
    if d.strategy.FixedSize? != chunking.FixedChunks? {
      return false;
    }
    if d.chunks == [] {
      return true;
    }
    if chunking.CdcChunks? && d.strategy != FastCdc(chunking.parameters) {
      return false;
    }
    for index := 0 to |d.chunks| - 1
      invariant forall i | 0 <= i < index :: NonFinalOk(chunking, d.chunks[i].size)
    {
      if !NonFinalOk(chunking, d.chunks[index].size) {
        return false;
      }
    }
    var finalSize := d.chunks[|d.chunks| - 1].size;
    return 0 < finalSize <= (if chunking.FixedChunks? then chunking.chunkSize else chunking.parameters.max);
  }

  predicate NonFinalOk(chunking: SessionChunking, size: nat) {
    match chunking
    case FixedChunks(chunkSize) => size == chunkSize
    case CdcChunks(parameters) => parameters.min <= size <= parameters.max
  }

  /** `unique_chunks`: no chunk ID with two sizes. */
  method CheckSizes(chunks: seq<ChunkRef>) returns (agree: bool)
    ensures agree <==> SizesAgree(chunks)
  {
    var unique: map<ChunkId, nat> := map[];
    for index := 0 to |chunks|
      invariant forall i | 0 <= i < index :: chunks[i].chunkId in unique && unique[chunks[i].chunkId] == chunks[i].size
      invariant forall id | id in unique :: exists i | 0 <= i < index :: chunks[i].chunkId == id
    {
      var chunk := chunks[index];
      if chunk.chunkId in unique && unique[chunk.chunkId] != chunk.size {
        var i :| 0 <= i < index && chunks[i].chunkId == chunk.chunkId;
        assert chunks[i].size != chunks[index].size;
        return false;
      }
      unique := unique[chunk.chunkId := chunk.size];
    }
    return true;
  }

  method CheckReplicasOf(db: Db, s: UploadSession, id: ChunkId) returns (ok: bool)
    ensures ok <==> FullyReplicated(db, s, id)
  {
    var desired := Desired(db, s, id);
    for node := 0 to |desired|
      invariant forall i | 0 <= i < node :: IsAvailable(db, id, desired[i])
    {
      if !IsAvailable(db, id, desired[node]) {
        return false;
      }
    }
    return true;
  }

  /** The unique chunks in the order of their IDs: row, size, and all desired replicas. */
  method CheckChunks(db: Db, s: UploadSession, d: Descriptor) returns (refusal: Option<Error>)
    ensures refusal == FirstRefusal(db, s, d, Enumeration(ChunkIds(d)))
  {
    var ids := SortKeys(ChunkIds(d));
    for index := 0 to |ids|
      invariant FirstRefusal(db, s, d, ids) == FirstRefusal(db, s, d, ids[index..])
    {
      var id := ids[index];
      assert ids[index..][0] == id && ids[index..][1..] == ids[index + 1..];
      if id !in db.chunks || db.chunks[id] != SizeOf(d.chunks, id) {
        return Some(Conflict);
      }
      var replicated := CheckReplicasOf(db, s, id);
      if !replicated {
        return Some(ChunkUnderReplicated);
      }
    }
    return None;
  }

  /** The inserts of a first finalization, each of which tolerates an equal row and nothing else. */
  method InsertUpload(db: Db, sessionId: SessionId, s: UploadSession, d: Descriptor, now: real) returns (committed: Result<Db, Error>)
    ensures committed == if !ObjectRowsCompatible(db, d) then Err(Conflict)
                         else if s.parent == Some(db.hashing.versionId(KeyOf(s, d))) then Err(ConstraintViolation)
                         else if !VersionRowsCompatible(db, sessionId, s, d) then Err(Conflict)
                         else Ok(CommitUpload(db, sessionId, s, d, now))
    ensures committed.Ok? && sessionId in db.sessions && db.sessions[sessionId] == s ==>
              CommittedAt(db, sessionId, d, now, Finalized(sessionId, db.hashing.versionId(KeyOf(s, d)), d.objectId, db.hashing.layoutId(d)),
                          committed.value)
  {
    var layoutId := db.hashing.layoutId(d);
    var versionId := db.hashing.versionId(KeyOf(s, d));
    var objects := InsertOrSame(db.objects, d.objectId, d.totalSize);
    if objects.None? {
      return Err(Conflict);
    }
    var layouts := InsertOrSame(db.layouts, layoutId, d);
    if layouts.None? {
      return Err(Conflict);
    }
    if s.parent == Some(versionId) {
      return Err(ConstraintViolation);
    }
    var versions := db.versions;
    if versionId !in versions {
      versions := versions[versionId := Version(KeyOf(s, d), now)];
    } else if versions[versionId].key != KeyOf(s, d) {
      return Err(Conflict);
    }
    if sessionId in db.finalizations {
      return Err(Conflict);
    }
    return Ok(db.(objects := objects.value, layouts := layouts.value, versions := versions,
                  finalizations := db.finalizations[sessionId := Some(layoutId)],
                  sessions := db.sessions[sessionId := s.(state := Committed(versionId))]));
  }

  /** `INSERT … ON CONFLICT DO NOTHING`, then compare. */
  method InsertOrSame<K, V(==)>(table: map<K, V>, key: K, row: V) returns (after: Option<map<K, V>>)
    ensures after == if key in table && table[key] != row then None else Some(table[key := row])
  {
    if key in table {
      if table[key] != row {
        return None;
      }
      assert table[key := row] == table;
      return Some(table);
    }
    return Some(table[key := row]);
  }

  // ---------------------------------------------------------------------------------------------
  // Garbage collection
  // ---------------------------------------------------------------------------------------------

  method AreDistinct(ids: seq<ChunkId>) returns (distinct: bool)
    ensures distinct <==> forall i, j | 0 <= i < j < |ids| :: ids[i] != ids[j]
  {
    var unique: set<ChunkId> := {};
    for index := 0 to |ids|
      invariant forall id :: id in unique <==> exists i | 0 <= i < index :: ids[i] == id
      invariant forall i, j | 0 <= i < j < index :: ids[i] != ids[j]
    {
      if ids[index] in unique {
        return false;
      }
      unique := unique + {ids[index]};
    }
    return true;
  }

  method ClassifyEach(db: Db, ids: seq<ChunkId>) returns (decisions: seq<bool>)
    ensures decisions == seq(|ids|, i requires 0 <= i < |ids| => Collectible(db, ids[i]))
  {
    decisions := [];
    for index := 0 to |ids|
      invariant |decisions| == index && forall i | 0 <= i < index :: decisions[i] == Collectible(db, ids[i])
    {
      decisions := decisions + [Collectible(db, ids[index])];
    }
  }

  method DeleteLocations(db: Db, node: NodeId) returns (after: Db, count: nat)
    ensures after == WithoutLocations(db, node) && count == |SweptLocations(db, node)|
  {
    var rows := SweptLocations(db, node);
    return db.(locations := db.locations - rows), |rows|;
  }

  /** Fails if a replication run references a layout that would be deleted; clears deleted layouts from
      the finalization records. */
  method DeleteLayouts(db: Db) returns (result: Option<(Db, nat)>)
    ensures result == if DeletionRestricted(db) then None else Some((WithoutDeadLayouts(db), |DeadLayouts(db)|))
  {
    var rows := DeadLayouts(db);
    if DeletionRestricted(db) {
      return None;
    }
    return Some((db.(layouts := db.layouts - rows, finalizations := Cleared(db.finalizations, rows)), |rows|));
  }

  method DeleteObjects(db: Db) returns (after: Db, count: nat)
    ensures after == WithoutOrphanObjects(db) && count == |OrphanObjects(db)|
  {
    var rows := OrphanObjects(db);
    return db.(objects := db.objects - rows), |rows|;
  }

  method DeleteChunks(db: Db) returns (after: Db, count: nat)
    ensures after == WithoutOrphanChunks(db) && count == |OrphanChunks(db)|
  {
    var rows := OrphanChunks(db);
    return db.(chunks := db.chunks - rows), |rows|;
  }

  /** The four DELETE statements of `sweep_gc_metadata`. */
  method SweepMetadata(db: Db, node: NodeId) returns (swept: Option<(Db, SweepStats)>)
    ensures swept == if DeletionRestricted(db) then None else Some((Sweep(db, node), SweepCounts(db, node)))
  {
    var tx, locations := DeleteLocations(db, node);
    var result := DeleteLayouts(tx);
    assert DeadLayouts(tx) == DeadLayouts(db);
    if result.None? {
      return None;
    }
    tx := result.value.0;
    var objects, chunks;
    tx, objects := DeleteObjects(tx);
    tx, chunks := DeleteChunks(tx);
    return Some((tx, SweepStats(locations, result.value.1, objects, chunks)));
  }

  /** The four counting statements of a dry run. */
  method CountSweepCandidates(db: Db, node: NodeId) returns (stats: SweepStats)
    ensures stats == DryRunCounts(db, node)
  {
    return SweepStats(|SweptLocations(db, node)|, |DeadLayouts(db)|, |OrphanObjects(db)|, |OrphanChunks(db)|);
  }

  // ---------------------------------------------------------------------------------------------
  // Replication
  // ---------------------------------------------------------------------------------------------

  predicate HasSource(db: Db, chunkId: ChunkId) {
    exists key :: key in db.locations && key.0 == chunkId && db.locations[key] == Available && ReadableNode(db, key.1)
  }

  lemma HasSourceMeans(db: Db, chunkId: ChunkId)
    ensures HasSource(db, chunkId) <==> exists n :: IsAvailable(db, chunkId, n) && ReadableNode(db, n)
  {
    if n :| IsAvailable(db, chunkId, n) && ReadableNode(db, n) {
      assert (chunkId, n) in db.locations;
    }
    if HasSource(db, chunkId) {
      var key :| key in db.locations && key.0 == chunkId && db.locations[key] == Available && ReadableNode(db, key.1);
      assert key == (chunkId, key.1);
      assert IsAvailable(db, chunkId, key.1);
    }
  }

  method IsRestorable(db: Db, d: Descriptor) returns (ok: bool)
    ensures ok <==> Restorable(db, d)
  {
    for index := 0 to |d.chunks|
      invariant forall i | 0 <= i < index :: HasSource(db, d.chunks[i].chunkId)
    {
      if !HasSource(db, d.chunks[index].chunkId) {
        HasSourceMeans(db, d.chunks[index].chunkId);
        assert d.chunks[index].chunkId in ChunkIds(d);
        return false;
      }
    }
    forall c | c in ChunkIds(d)
      ensures exists n :: IsAvailable(db, c, n) && ReadableNode(db, n)
    {
      HasSourceMeans(db, c);
    }
    return true;
  }

  /** The layouts of an object that can be restored, in the order of their IDs. */
  method SelectRestorableLayouts(db: Db, objectId: ObjectId) returns (layouts: seq<LayoutId>)
    ensures layouts == Enumeration(RestorableLayouts(db, objectId))
  {
    var all := Listed(db.layouts.Keys);
    var found: set<LayoutId> := {};
    for index := 0 to |all|
      invariant forall l :: l in found <==> exists i | 0 <= i < index :: all[i] == l && l in RestorableLayouts(db, objectId)
    {
      var l := all[index];
      assert l in Elements(all);
      var ok := IsRestorable(db, db.layouts[l]);
      if ok && db.layouts[l].objectId == objectId {
        found := found + {l};
      }
    }
    forall l | l in RestorableLayouts(db, objectId)
      ensures l in found
    {
      assert l in Elements(all);
    }
    assert found == RestorableLayouts(db, objectId);
    layouts := SortKeys(found);
  }

  method SelectActiveNodes(db: Db) returns (nodes: seq<NodeId>)
    ensures nodes == Enumeration(ActiveNodes(db))
  {
    var active := set n | n in db.nodes && db.nodes[n] == Active;
    assert active == ActiveNodes(db);
    nodes := SortKeys(active);
  }

  /** Every desired node of a chunk must be registered and not disabled. */
  method CheckTargets(db: Db, run: ReplicationRun, chunkId: ChunkId) returns (ok: bool)
    ensures ok <==> TargetsReadable(db, run, chunkId)
  {
    var desired := Targets(db, run, chunkId);
    for index := 0 to |desired|
      invariant forall j | 0 <= j < index :: ReadableNode(db, desired[j])
    {
      if !ReadableNode(db, desired[index]) {
        return false;
      }
    }
    return true;
  }

  method SelectSources(db: Db, chunkId: ChunkId) returns (sources: seq<NodeId>)
    ensures sources == Enumeration(SourcesOf(db, chunkId))
  {
    var found := set key | key in db.locations && key.0 == chunkId && db.locations[key] == Available && ReadableNode(db, key.1) :: key.1;
    assert found == SourcesOf(db, chunkId);
    sources := SortKeys(found);
  }

  /** The loop of `get_replication_plan` over the chunks of the layout. */
  method PlanChunks(db: Db, run: ReplicationRun, chunks: seq<ChunkRef>) returns (plan: Option<seq<ChunkPlan>>)
    ensures plan.Some? <==> forall i | 0 <= i < |chunks| :: TargetsReadable(db, run, chunks[i].chunkId)
    ensures plan.Some? ==> plan.value == seq(|chunks|, i requires 0 <= i < |chunks| => ChunkPlanOf(db, run, chunks[i]))
  {
    var planned: seq<ChunkPlan> := [];
    for index := 0 to |chunks|
      invariant |planned| == index
      invariant forall i | 0 <= i < index :: TargetsReadable(db, run, chunks[i].chunkId) && planned[i] == ChunkPlanOf(db, run, chunks[i])
    {
      var chunk := chunks[index];
      var ok := CheckTargets(db, run, chunk.chunkId);
      if !ok {
        return None;
      }
      var sources := SelectSources(db, chunk.chunkId);
      planned := planned + [ChunkPlan(chunk.chunkId, chunk.size, Targets(db, run, chunk.chunkId), sources)];
    }
    return Some(planned);
  }

  /** The check loop of `complete_replication_run`. */
  method CheckReplicas(db: Db, run: ReplicationRun, d: Descriptor) returns (ok: bool)
    ensures ok <==> ReplicationSatisfied(db, run, d)
  {
    for index := 0 to |d.chunks|
      invariant forall i | 0 <= i < index :: ReplicasAvailable(db, run, d.chunks[i].chunkId)
    {
      var desired := Targets(db, run, d.chunks[index].chunkId);
      for node := 0 to |desired|
        invariant forall j | 0 <= j < node :: IsAvailable(db, d.chunks[index].chunkId, desired[j])
      {
        if !IsAvailable(db, d.chunks[index].chunkId, desired[node]) {
          return false;
        }
      }
    }
    return true;
  }

  // ---------------------------------------------------------------------------------------------
  // Lifecycle
  // ---------------------------------------------------------------------------------------------

  /** Reads the candidate rows; an unknown artifact kind is an error. */
  method ReadCandidates(db: Db) returns (rows: Option<seq<Lifecycle.Candidate>>)
    ensures rows.Some? <==> KindsValid(db)
    ensures rows.Some? ==>
              && Elements(rows.value) == Candidates(db)
              && Lifecycle.DistinctVersions(Candidates(db))
              && forall i, j | 0 <= i < j < |rows.value| :: rows.value[i] != rows.value[j]
  {
    var ids := Listed(ScannedVersions(db));
    var candidates: seq<Lifecycle.Candidate> := [];
    for index := 0 to |ids|
      invariant |candidates| == index
      invariant forall i | 0 <= i < index :: IsCandidateOf(db, ids[i], candidates[i])
    {
      var id := ids[index];
      assert id in Elements(ids);
      var kind := Lifecycle.ResolveKind(db.versions[id].key.metadata);
      if kind.None? {
        return None;
      }
      candidates := candidates + [CandidateOf(db, id, kind.value)];
    }
    RowsAreCandidates(db, ids, candidates);
    return Some(candidates);
  }

  predicate IsCandidateOf(db: Db, id: VersionId, c: Lifecycle.Candidate) {
    && id in ScannedVersions(db)
    && Lifecycle.ResolveKind(db.versions[id].key.metadata).Some?
    && c == CandidateOf(db, id, Lifecycle.ResolveKind(db.versions[id].key.metadata).value)
  }

  lemma RowsAreCandidates(db: Db, ids: seq<VersionId>, rows: seq<Lifecycle.Candidate>)
    requires Elements(ids) == ScannedVersions(db) && |rows| == |ids|
    requires forall i, j | 0 <= i < j < |ids| :: ids[i] != ids[j]
    requires forall i | 0 <= i < |ids| :: IsCandidateOf(db, ids[i], rows[i])
    ensures KindsValid(db) && Elements(rows) == Candidates(db) && Lifecycle.DistinctVersions(Candidates(db))
    ensures forall i, j | 0 <= i < j < |rows| :: rows[i] != rows[j]
  {
    forall v | v in ScannedVersions(db)
      ensures exists i :: 0 <= i < |ids| && IsCandidateOf(db, v, rows[i])
    {
      assert v in Elements(ids);
    }
    forall i, j | 0 <= i < j < |rows|
      ensures rows[i] != rows[j]
    {
      assert rows[i].versionId == ids[i] && rows[j].versionId == ids[j];
    }
  }

  method InsertRetirements(retired: set<VersionId>, retirements: seq<VersionId>) returns (after: set<VersionId>)
    ensures after == retired + Elements(retirements)
  {
    after := retired;
    for index := 0 to |retirements|
      invariant after == retired + Elements(retirements[..index])
    {
      assert retirements[..index + 1] == retirements[..index] + [retirements[index]];
      after := after + {retirements[index]};
    }
    assert retirements[..|retirements|] == retirements;
  }
}
