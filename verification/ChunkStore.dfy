/** The chunk files of a storage node (src/storage/local_chunk_store.cpp). The file system keeps files
    by directory and name; a crash can leave temporary files behind. */
module ChunkStores {
  import opened Common
  import opened Ordering

  datatype Path = Path(directory: string, name: string)

  datatype StoredChunk = StoredChunk(chunkId: ChunkId, size: nat)

  datatype Page = Page(chunks: seq<StoredChunk>, nextAfter: Option<ChunkId>)

  datatype StoreError = InvalidId | InvalidLimit | NotFound | WriteFailed | HashMismatch | Corrupted | Crashed

  predicate IsFanoutName(name: string) {
    |name| == 2 && AllHex(name)
  }

  /** The files that the inventory lists. */
  predicate IsChunkPath(p: Path) {
    IsFanoutName(p.directory) && IsContentId(p.name) && p.name[..2] == p.directory
  }

  function ChunkPath(id: ChunkId): (p: Path)
    requires IsContentId(id)
    ensures IsChunkPath(p)
  {
    Path(id[..2], id)
  }

  predicate ById(a: StoredChunk, b: StoredChunk) {
    LexLess(a.chunkId, b.chunkId)
  }

  type IdOrder = (ChunkId, ChunkId) -> bool

  predicate Beyond(lt: IdOrder, after: Option<ChunkId>, id: ChunkId) {
    after.Some? ==> lt(after.value, id)
  }

  predicate Lists(chunks: seq<StoredChunk>, id: ChunkId) {
    exists i | 0 <= i < |chunks| :: chunks[i].chunkId == id
  }

  ghost predicate Rising(lt: IdOrder, chunks: seq<StoredChunk>) {
    forall i, j | 0 <= i < j < |chunks| :: lt(chunks[i].chunkId, chunks[j].chunkId)
  }

  ghost predicate AreStored(chunks: seq<StoredChunk>, stored: map<ChunkId, nat>) {
    forall i | 0 <= i < |chunks| :: chunks[i].chunkId in stored && chunks[i].size == stored[chunks[i].chunkId]
  }

  /** The first chunks beyond the cursor, in order; the next cursor is the last of them exactly when
      there are more. */
  ghost predicate IsPageBy(lt: IdOrder, stored: map<ChunkId, nat>, after: Option<ChunkId>, page: Page) {
    && Rising(lt, page.chunks)
    && AreStored(page.chunks, stored)
    && (forall i | 0 <= i < |page.chunks| :: Beyond(lt, after, page.chunks[i].chunkId))
    && (forall id | id in stored && Beyond(lt, after, id) ::
          Lists(page.chunks, id) || (page.nextAfter.Some? && lt(page.nextAfter.value, id)))
    && (page.nextAfter.Some? ==>
          && page.chunks != [] && page.nextAfter.value == page.chunks[|page.chunks| - 1].chunkId
          && exists id :: id in stored && lt(page.nextAfter.value, id))
  }

  ghost predicate IsPage(stored: map<ChunkId, nat>, after: Option<ChunkId>, limit: nat, page: Page) {
    |page.chunks| <= limit && IsPageBy(LexLess, stored, after, page)
  }

  ghost function ChunkFiles(files: map<Path, Bytes>): set<ChunkId> {
    set p | p in files && IsChunkPath(p) :: p.name
  }

  /** The chunks that are stored, with the sizes of their files. */
  ghost function Inventory(files: map<Path, Bytes>): (stored: map<ChunkId, nat>)
    ensures forall id :: id in stored <==> IsContentId(id) && ChunkPath(id) in files
  {
    assert forall id | id in ChunkFiles(files) :: IsContentId(id) && ChunkPath(id) in files;
    assert forall id | IsContentId(id) && ChunkPath(id) in files :: ChunkPath(id).name in ChunkFiles(files);
    map id | id in ChunkFiles(files) :: |files[ChunkPath(id)]|
  }

  lemma ByIdOrder(chunks: seq<StoredChunk>)
    requires forall i, j | 0 <= i < j < |chunks| :: chunks[i].chunkId != chunks[j].chunkId
    ensures StrictOrder(ById) && TotalOn(ById, Elements(chunks))
  {
    LexStrictTotal();
  }

  class LocalChunkStore {
    const hash: Bytes -> ChunkId
    var files: map<Path, Bytes>

    constructor (hash: Bytes -> ChunkId, files: map<Path, Bytes>)
      ensures this.hash == hash && this.files == files
    {
      this.hash := hash;
      this.files := files;
    }

    /** Writes a temporary file in one or more `write` calls, checks its hash and renames it into
        place. `accepted` says how many bytes each call takes; when it runs out the process dies. With
        `dies` it also dies after the last write, before the rename. */
    method Put(expectedId: ChunkId, data: Bytes, temporary: Path, accepted: seq<nat>, dies: bool) returns (result: Result<(), StoreError>)
      requires temporary !in files && !IsChunkPath(temporary)
      modifies this`files
      ensures result.Ok? ==>
                && IsContentId(expectedId)
                && ChunkPath(expectedId) in files && hash(files[ChunkPath(expectedId)]) == expectedId
                && files == if ChunkPath(expectedId) in old(files) then old(files) else old(files)[ChunkPath(expectedId) := data]
      ensures result.Err? ==> Inventory(files) == old(Inventory(files))
      ensures result.Err? && result.error != Crashed ==> files == old(files)
      ensures result == Err(Crashed) ==> exists n | 0 <= n <= |data| :: files == old(files)[temporary := data[..n]]
      ensures result == Err(Corrupted) <==>
              IsContentId(expectedId) && ChunkPath(expectedId) in old(files) && hash(old(files)[ChunkPath(expectedId)]) != expectedId
      ensures result == Err(HashMismatch) ==> hash(data) != expectedId
      ensures IsContentId(expectedId) && ChunkPath(expectedId) !in old(files) && dies ==> result in {Err(Crashed), Err(WriteFailed)}
    {
      if !IsContentId(expectedId) {
        return Err(InvalidId);
      }
      var final := ChunkPath(expectedId);
      if final in files {
        var stored := Get(expectedId);
        return if stored.Ok? then Ok(()) else Err(stored.error);
      }
      files := files[temporary := []];
      var position, call := 0, 0;
      while position < |data|
        invariant 0 <= position <= |data| && call <= |accepted|
        invariant files == old(files)[temporary := data[..position]]
        decreases |accepted| - call
      {
        if call == |accepted| {
          TemporaryFilesAreNotListed(old(files), temporary, data[..position]);
          return Err(Crashed);
        }
        var written := if accepted[call] <= |data| - position then accepted[call] else |data| - position;
        if written == 0 {
          files := files - {temporary};
          assert files == old(files);
          return Err(WriteFailed);
        }
        position, call := position + written, call + 1;
        files := files[temporary := data[..position]];
      }
      assert data[..position] == data;
      if dies {
        TemporaryFilesAreNotListed(old(files), temporary, data);
        assert files == old(files)[temporary := data[..|data|]];
        return Err(Crashed);
      }
      if hash(data) != expectedId {
        files := files - {temporary};
        assert files == old(files);
        return Err(HashMismatch);
      }
      files := (files - {temporary})[final := data];
      return Ok(());
    }

    /** Chunks are verified whenever they are read. */
    method Get(chunkId: ChunkId) returns (result: Result<Bytes, StoreError>)
      ensures result.Ok? <==> IsContentId(chunkId) && ChunkPath(chunkId) in files && hash(files[ChunkPath(chunkId)]) == chunkId
      ensures result.Ok? ==> result.value == files[ChunkPath(chunkId)]
      ensures result == Err(Corrupted) <==>
              IsContentId(chunkId) && ChunkPath(chunkId) in files && hash(files[ChunkPath(chunkId)]) != chunkId
      ensures result.Err? ==> result.error in {InvalidId, NotFound, Corrupted}
    {
      if !IsContentId(chunkId) {
        return Err(InvalidId);
      }
      var path := ChunkPath(chunkId);
      if path !in files {
        return Err(NotFound);
      }
      var data := files[path];
      if hash(data) != chunkId {
        return Err(Corrupted);
      }
      return Ok(data);
    }

    method Remove(chunkId: ChunkId) returns (result: Result<bool, StoreError>)
      modifies this`files
      ensures IsContentId(chunkId) ==>
                && result == Ok(ChunkPath(chunkId) in old(files))
                && files == old(files) - {ChunkPath(chunkId)}
                && Inventory(files) == old(Inventory(files)) - {chunkId}
      ensures !IsContentId(chunkId) ==> result == Err(InvalidId) && files == old(files)
    {
      if !IsContentId(chunkId) {
        return Err(InvalidId);
      }
      var path := ChunkPath(chunkId);
      result := Ok(path in files);
      files := files - {path};
      assert Inventory(files) == old(Inventory(files)) - {chunkId};
    }

    /** Walks the directories in whatever order, keeps the chunk files, sorts them and cuts a page. */
    method ListChunks(after: Option<ChunkId>, limit: nat) returns (result: Result<Page, StoreError>)
      ensures result.Ok? <==> 1 <= limit <= 256 && (after.Some? ==> IsContentId(after.value))
      ensures result.Ok? ==> IsPage(Inventory(files), after, limit, result.value)
    {
      if limit < 1 || limit > 256 {
        return Err(InvalidLimit);
      }
      if after.Some? && !IsContentId(after.value) {
        return Err(InvalidId);
      }
      var discovered := Discover();
      discovered := SortById(discovered, Inventory(files));
      var page := CutPage(discovered, Inventory(files), after, limit);
      return Ok(page);
    }

    method Discover() returns (discovered: seq<StoredChunk>)
      ensures forall i, j | 0 <= i < j < |discovered| :: discovered[i].chunkId != discovered[j].chunkId
      ensures AreStored(discovered, Inventory(files))
      ensures forall id | id in Inventory(files) :: Lists(discovered, id)
    {
      discovered := [];
      var entries := files.Keys;
      while entries != {}
        invariant entries <= files.Keys
        invariant forall i, j | 0 <= i < j < |discovered| :: discovered[i].chunkId != discovered[j].chunkId
        invariant AreStored(discovered, Inventory(files))
        invariant forall i | 0 <= i < |discovered| :: ChunkPath(discovered[i].chunkId) !in entries
        invariant forall id | id in Inventory(files) && ChunkPath(id) !in entries :: Lists(discovered, id)
        decreases |entries|
      {
        var entry :| entry in entries;
        entries := entries - {entry};
        if IsChunkPath(entry) {
          assert ChunkPath(entry.name) == entry;
          ghost var before := discovered;
          discovered := discovered + [StoredChunk(entry.name, |files[entry]|)];
          assert discovered[|before|].chunkId == entry.name;
          assert forall id | Lists(before, id) :: Lists(discovered, id) by {
            assert forall i | 0 <= i < |before| :: discovered[i] == before[i];
          }
        }
      }
    }
  }

  /** Temporary files that a crash leaves behind never show up in the inventory. */
  lemma TemporaryFilesAreNotListed(files: map<Path, Bytes>, temporary: Path, data: Bytes)
    requires !IsChunkPath(temporary)
    ensures Inventory(files[temporary := data]) == Inventory(files)
  {
  }

  ghost predicate ListsInventory(lt: IdOrder, chunks: seq<StoredChunk>, stored: map<ChunkId, nat>) {
    && Rising(lt, chunks)
    && AreStored(chunks, stored)
    && (forall id | id in stored :: Lists(chunks, id))
  }

  method SortById(found: seq<StoredChunk>, ghost stored: map<ChunkId, nat>) returns (sorted: seq<StoredChunk>)
    requires forall i, j | 0 <= i < j < |found| :: found[i].chunkId != found[j].chunkId
    requires AreStored(found, stored)
    requires forall id | id in stored :: Lists(found, id)
    ensures ListsInventory(LexLess, sorted, stored)
  {
    ByIdOrder(found);
    SortedEnumerates(ById, found);
    sorted := Sorted(ById, found);
    SortedInventory(found, sorted, stored);
  }

  lemma SortedInventory(found: seq<StoredChunk>, sorted: seq<StoredChunk>, stored: map<ChunkId, nat>)
    requires Enumerates(ById, sorted, Elements(found))
    requires AreStored(found, stored)
    requires forall id | id in stored :: Lists(found, id)
    ensures ListsInventory(LexLess, sorted, stored)
  {
    forall i | 0 <= i < |sorted|
      ensures sorted[i] in found
    {
      assert sorted[i] in Elements(sorted);
    }
    forall id | id in stored
      ensures Lists(sorted, id)
    {
      var i :| 0 <= i < |found| && found[i].chunkId == id;
      assert found[i] in Elements(sorted);
    }
  }

  /** The position of the first chunk beyond the cursor. */
  method FirstBeyond(all: seq<StoredChunk>, after: Option<ChunkId>) returns (startIndex: nat)
    requires Rising(LexLess, all)
    ensures startIndex <= |all|
    ensures forall i | 0 <= i < startIndex :: !Beyond(LexLess, after, all[i].chunkId)
    ensures forall i | startIndex <= i < |all| :: Beyond(LexLess, after, all[i].chunkId)
  {
    startIndex := 0;
    if after.Some? {
      while startIndex < |all| && !LexLess(after.value, all[startIndex].chunkId)
        invariant startIndex <= |all|
        invariant forall i | 0 <= i < startIndex :: !Beyond(LexLess, after, all[i].chunkId)
      {
        startIndex := startIndex + 1;
      }
      forall i | startIndex < i < |all|
        ensures Beyond(LexLess, after, all[i].chunkId)
      {
        LexTransitive(after.value, all[startIndex].chunkId, all[i].chunkId);
      }
    }
  }

  function Cut(all: seq<StoredChunk>, start: nat, end: nat): Page
    requires start <= end <= |all|
  {
    Page(all[start..end], if start < end < |all| then Some(all[end - 1].chunkId) else None)
  }

  method CutPage(all: seq<StoredChunk>, ghost stored: map<ChunkId, nat>, after: Option<ChunkId>, limit: nat) returns (page: Page)
    requires ListsInventory(LexLess, all, stored) && limit > 0
    ensures IsPage(stored, after, limit, page)
  {
    var startIndex := FirstBeyond(all, after);
    var endIndex := if startIndex + limit <= |all| then startIndex + limit else |all|;
    PageIsCut(LexLess, all, stored, after, startIndex, endIndex);
    page := Cut(all, startIndex, endIndex);
  }

  lemma PageIsCut(lt: IdOrder, all: seq<StoredChunk>, stored: map<ChunkId, nat>, after: Option<ChunkId>, start: nat, end: nat)
    requires ListsInventory(lt, all, stored) && start <= end <= |all| && (start == end ==> end == |all|)
    requires forall i | 0 <= i < start :: !Beyond(lt, after, all[i].chunkId)
    requires forall i | start <= i < |all| :: Beyond(lt, after, all[i].chunkId)
    ensures IsPageBy(lt, stored, after, Cut(all, start, end))
  {
    var page := Cut(all, start, end);
    assert forall i | 0 <= i < |page.chunks| :: page.chunks[i] == all[start + i];
    forall id | id in stored && Beyond(lt, after, id)
      ensures Lists(page.chunks, id) || (page.nextAfter.Some? && lt(page.nextAfter.value, id))
    {
      var i :| 0 <= i < |all| && all[i].chunkId == id;
      assert i < end ==> page.chunks[i - start].chunkId == id;
    }
    if start < end < |all| {
      assert lt(all[end - 1].chunkId, all[end].chunkId) && all[end].chunkId in stored;
    }
  }

  lemma {:induction false} SplitAtCursor(all: seq<StoredChunk>, after: Option<ChunkId>, n: nat) returns (start: nat)
    requires Rising(LexLess, all) && n <= |all|
    requires forall i | n <= i < |all| :: Beyond(LexLess, after, all[i].chunkId)
    ensures start <= n
    ensures forall i | 0 <= i < start :: !Beyond(LexLess, after, all[i].chunkId)
    ensures forall i | start <= i < |all| :: Beyond(LexLess, after, all[i].chunkId)
    decreases n
  {
    if n > 0 && Beyond(LexLess, after, all[n - 1].chunkId) {
      start := SplitAtCursor(all, after, n - 1);
    } else {
      start := n;
      forall i | 0 <= i < n
        ensures !Beyond(LexLess, after, all[i].chunkId)
      {
        if i < n - 1 && Beyond(LexLess, after, all[i].chunkId) && after.Some? {
          LexTransitive(after.value, all[i].chunkId, all[n - 1].chunkId);
        }
      }
    }
  }

  /** Whatever is stored, there is a page for every cursor and limit. */
  lemma PageExists(stored: map<ChunkId, nat>, after: Option<ChunkId>, limit: nat)
    requires limit > 0
    ensures exists page :: IsPage(stored, after, limit, page)
  {
    var ids := Enumeration(stored.Keys);
    assert forall i | 0 <= i < |ids| :: ids[i] in Elements(ids);
    var all := seq(|ids|, i requires 0 <= i < |ids| => StoredChunk(ids[i], stored[ids[i]]));
    forall id | id in stored
      ensures Lists(all, id)
    {
      assert id in Elements(ids);
      var i :| 0 <= i < |ids| && ids[i] == id;
      assert all[i].chunkId == id;
    }
    var start := SplitAtCursor(all, after, |all|);
    var end := if start + limit <= |all| then start + limit else |all|;
    PageIsCut(LexLess, all, stored, after, start, end);
    assert IsPage(stored, after, limit, Cut(all, start, end));
  }
}
