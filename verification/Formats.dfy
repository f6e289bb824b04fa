/** The canonical formats byte for byte: which numbers, IDs and texts stand where among the bytes that module
    CanonicalBytes defines by their pieces. */
module CanonicalFormats {
  import opened Common
  import opened Arithmetic
  import opened Ordering
  import opened ObjectLayouts
  import opened Encoding
  import opened CanonicalBytes
  import Chunking

  /** The unsigned integer written, most significant byte first, at a place among the bytes. */
  ghost predicate HoldsNumber(bytes: Bytes, start: nat, width: nat, value: nat) {
    start + width <= |bytes| && Number(bytes[start..start + width]) == value
  }

  /** The 32 bytes of an ID, two hexadecimal digits to the byte. */
  ghost predicate HoldsId(bytes: Bytes, start: nat, id: string)
    requires IsContentId(id)
  {
    && start + 32 <= |bytes|
    && forall k | 0 <= k < 32 :: bytes[start + k] == 16 * HexDigit(id[2 * k]) + HexDigit(id[2 * k + 1])
  }

  ghost predicate HoldsText(bytes: Bytes, start: nat, text: string) {
    start + |text| <= |bytes| && forall k | 0 <= k < |text| :: bytes[start + k] == text[k] as int
  }

  /** The bytes lie between the pieces before the `n`-th one and those after it. */
  lemma PieceLies(p: seq<Bytes>, n: nat, start: nat)
    requires n < |p| && |Chunking.Concat(p[..n])| == start
    ensures start + |p[n]| <= |Chunking.Concat(p)|
    ensures Chunking.Concat(p)[start..start + |p[n]|] == p[n]
    ensures |Chunking.Concat(p[..n + 1])| == start + |p[n]|
  {
    PieceAt(p, n);
    assert p[..n + 1] == p[..n] + [p[n]];
    Chunking.ConcatAppend(p[..n], p[n]);
  }

  lemma NumberLies(p: seq<Bytes>, n: nat, start: nat, value: nat)
    requires n < |p| && |Chunking.Concat(p[..n])| == start && IsUint64(value) && p[n] == Uint64(value)
    ensures HoldsNumber(Chunking.Concat(p), start, 8, value)
    ensures |Chunking.Concat(p[..n + 1])| == start + 8
  {
    PieceLies(p, n, start);
    PowersOfTwo();
    NumberOfBigEndian(value, 8);
  }

  lemma IdIsHeld(bytes: Bytes, start: nat, id: string)
    requires IsContentId(id) && start + 32 <= |bytes| && bytes[start..start + 32] == IdBytes(id)
    ensures HoldsId(bytes, start, id)
  {
    forall k | 0 <= k < 32
      ensures bytes[start + k] == 16 * HexDigit(id[2 * k]) + HexDigit(id[2 * k + 1])
    {
      HexBytesAt(id, k);
      assert bytes[start + k] == bytes[start..start + 32][k];
    }
  }

  lemma IdLies(p: seq<Bytes>, n: nat, start: nat, id: string)
    requires n < |p| && |Chunking.Concat(p[..n])| == start && IsContentId(id) && p[n] == IdBytes(id)
    ensures HoldsId(Chunking.Concat(p), start, id)
    ensures |Chunking.Concat(p[..n + 1])| == start + 32
  {
    PieceLies(p, n, start);
    IdIsHeld(Chunking.Concat(p), start, id);
  }

  // ---------------------------------------------------------------------------------------------
  // Layouts
  // ---------------------------------------------------------------------------------------------

  /** The first 51 bytes: magic, format version 1, object ID, and 1 or 2 for the strategy. */
  ghost predicate StartsAsLayout(bytes: Bytes, d: Descriptor)
    requires IsContentId(d.objectId)
  {
    && HoldsText(bytes, 0, "AISTORE_LAYOUT")
    && HoldsNumber(bytes, 14, 4, 1)
    && HoldsId(bytes, 18, d.objectId)
    && HoldsNumber(bytes, 50, 1, if d.strategy.FixedSize? then 1 else 2)
  }

  lemma TextLies(p: seq<Bytes>, n: nat, start: nat, text: string)
    requires n < |p| && |Chunking.Concat(p[..n])| == start && IsByteString(text) && p[n] == StringBytes(text)
    ensures HoldsText(Chunking.Concat(p), start, text)
    ensures |Chunking.Concat(p[..n + 1])| == start + |text|
  {
    PieceLies(p, n, start);
    var piece := Chunking.Concat(p)[start..start + |text|];
    forall k | 0 <= k < |text|
      ensures Chunking.Concat(p)[start + k] == text[k] as int
    {
      assert piece[k] == StringBytes(text)[k];
    }
  }

  lemma MagicLies(p: seq<Bytes>, magic: string)
    requires p != [] && IsByteString(magic) && p[0] == StringBytes(magic)
    ensures HoldsText(Chunking.Concat(p), 0, magic)
    ensures |Chunking.Concat(p[..1])| == |magic|
  {
    TextLies(p, 0, 0, magic);
  }

  lemma VersionLies(p: seq<Bytes>, start: nat)
    requires |p| > 1 && p[1] == BigEndian(FORMAT_VERSION, 4) && |Chunking.Concat(p[..1])| == start
    ensures HoldsNumber(Chunking.Concat(p), start, 4, 1)
    ensures |Chunking.Concat(p[..2])| == start + 4
  {
    PieceLies(p, 1, start);
    assert Pow2(32) > 1;
    NumberOfBigEndian(FORMAT_VERSION, 4);
  }

  lemma CodeLies(p: seq<Bytes>, n: nat, start: nat, code: Byte)
    requires n < |p| && p[n] == [code] && |Chunking.Concat(p[..n])| == start
    ensures HoldsNumber(Chunking.Concat(p), start, 1, code)
    ensures |Chunking.Concat(p[..n + 1])| == start + 1
  {
    PieceLies(p, n, start);
    assert p[n][..0] == [];
    assert Number([]) == 0 && Number(p[n]) == code;
  }

  lemma LayoutStarts(d: Descriptor)
    requires ValidDescriptor(d)
    ensures StartsAsLayout(LayoutBytes(d), d)
    ensures |LayoutPieces(d)| >= 4 && |Chunking.Concat(LayoutPieces(d)[..4])| == 51
  {
    hide Chunking.Concat, HoldsText, HoldsNumber, HoldsId;
    var p := LayoutPieces(d);
    MagicLies(p, "AISTORE_LAYOUT");
    VersionLies(p, 14);
    IdLies(p, 2, 18, d.objectId);
    CodeLies(p, 3, 50, StrategyCode(d.strategy));
  }

  /** Where the chunk entries start. */
  function HeadSize(strategy: Strategy): nat {
    if strategy.FixedSize? then 67 else 91
  }

  /** The three parameters of FastCDC, if it is the strategy, then the total size and the number of chunks. */
  ghost predicate ContinuesAsLayout(bytes: Bytes, d: Descriptor) {
    var head := HeadSize(d.strategy);
    && (d.strategy.FastCdc? ==>
          && HoldsNumber(bytes, 51, 8, d.strategy.parameters.min)
          && HoldsNumber(bytes, 59, 8, d.strategy.parameters.avg)
          && HoldsNumber(bytes, 67, 8, d.strategy.parameters.max))
    && HoldsNumber(bytes, head - 16, 8, d.totalSize)
    && HoldsNumber(bytes, head - 8, 8, |d.chunks|)
  }

  lemma ParametersLie(p: seq<Bytes>, d: Descriptor)
    requires ValidDescriptor(d) && IsLayout(p, d) && d.strategy.FastCdc? && |Chunking.Concat(p[..4])| == 51
    ensures HoldsNumber(Chunking.Concat(p), 51, 8, d.strategy.parameters.min)
    ensures HoldsNumber(Chunking.Concat(p), 59, 8, d.strategy.parameters.avg)
    ensures HoldsNumber(Chunking.Concat(p), 67, 8, d.strategy.parameters.max)
    ensures |Chunking.Concat(p[..7])| == 75
  {
    hide Chunking.Concat, HoldsNumber;
    assert p[4] == p[4..7][0] && p[5] == p[4..7][1] && p[6] == p[4..7][2];
    NumberLies(p, 4, 51, d.strategy.parameters.min);
    NumberLies(p, 5, 59, d.strategy.parameters.avg);
    NumberLies(p, 6, 67, d.strategy.parameters.max);
  }

  lemma LayoutContinues(d: Descriptor)
    requires ValidDescriptor(d)
    ensures ContinuesAsLayout(LayoutBytes(d), d)
    ensures HeadLength(d.strategy) <= |LayoutPieces(d)|
    ensures |Chunking.Concat(LayoutPieces(d)[..HeadLength(d.strategy)])| == HeadSize(d.strategy)
  {
    hide Chunking.Concat, HoldsNumber, StartsAsLayout;
    var p, n := LayoutPieces(d), HeadLength(d.strategy);
    LayoutStarts(d);
    LayoutPiecesArePlaced(d);
    if d.strategy.FastCdc? {
      ParametersLie(p, d);
    }
    NumberLies(p, n - 2, HeadSize(d.strategy) - 16, d.totalSize);
    NumberLies(p, n - 1, HeadSize(d.strategy) - 8, |d.chunks|);
  }

  /** A chunk takes 48 bytes: its ID, its offset, its size. */
  ghost predicate HoldsChunk(bytes: Bytes, start: nat, chunk: ChunkRef)
    requires IsContentId(chunk.chunkId)
  {
    && HoldsId(bytes, start, chunk.chunkId)
    && HoldsNumber(bytes, start + 32, 8, chunk.offset)
    && HoldsNumber(bytes, start + 40, 8, chunk.size)
  }

  lemma SliceOfSlice(bytes: Bytes, start: nat, end: nat, a: nat, b: nat)
    requires start <= end <= |bytes| && a <= b <= end - start
    ensures bytes[start..end][a..b] == bytes[start + a..start + b]
  {
    var middle := bytes[start..end];
    assert |middle[a..b]| == |bytes[start + a..start + b]|;
    forall k | 0 <= k < b - a
      ensures middle[a..b][k] == bytes[start + a..start + b][k]
    {
      assert middle[a..b][k] == middle[a + k] == bytes[start + (a + k)];
    }
  }

  lemma EntryParts(chunk: ChunkRef)
    requires ValidChunk(chunk)
    ensures var entry := ChunkEntry(chunk);
            entry[..32] == IdBytes(chunk.chunkId) && entry[32..40] == Uint64(chunk.offset) && entry[40..48] == Uint64(chunk.size)
  {
  }

  lemma EntryIsHeld(bytes: Bytes, start: nat, chunk: ChunkRef)
    requires ValidChunk(chunk) && start + 48 <= |bytes| && bytes[start..start + 48] == ChunkEntry(chunk)
    ensures HoldsChunk(bytes, start, chunk)
  {
    hide HoldsId, Number, ChunkEntry;
    EntryParts(chunk);
    SliceOfSlice(bytes, start, start + 48, 0, 32);
    SliceOfSlice(bytes, start, start + 48, 32, 40);
    SliceOfSlice(bytes, start, start + 48, 40, 48);
    IdIsHeld(bytes, start, chunk.chunkId);
    PowersOfTwo();
    NumberOfBigEndian(chunk.offset, 8);
    NumberOfBigEndian(chunk.size, 8);
  }

  /** The pieces after the head are the chunk entries. */
  lemma EntryPiece(d: Descriptor, i: nat)
    requires ValidDescriptor(d) && i < |d.chunks|
    ensures var n := HeadLength(d.strategy) + i;
            n < |LayoutPieces(d)| && LayoutPieces(d)[n] == ChunkEntry(d.chunks[i])
  {
    var p, n := LayoutPieces(d), HeadLength(d.strategy);
    LayoutPiecesArePlaced(d);
    assert p[n + i] == p[n..][i];
  }

  lemma {:induction false} EntryStarts(d: Descriptor, i: nat)
    requires ValidDescriptor(d) && i <= |d.chunks|
    ensures var n := HeadLength(d.strategy) + i;
            n <= |LayoutPieces(d)| && |Chunking.Concat(LayoutPieces(d)[..n])| == HeadSize(d.strategy) + 48 * i
  {
    hide Chunking.Concat, ContinuesAsLayout, LayoutPieces, HeadLength, HeadSize, ValidDescriptor, ChunkEntry;
    LayoutContinues(d);
    if i > 0 {
      EntryStarts(d, i - 1);
      EntryPiece(d, i - 1);
      PieceLies(LayoutPieces(d), HeadLength(d.strategy) + i - 1, HeadSize(d.strategy) + 48 * (i - 1));
    }
  }

  lemma ChunkLies(d: Descriptor, i: nat)
    requires ValidDescriptor(d) && i < |d.chunks|
    ensures HoldsChunk(LayoutBytes(d), HeadSize(d.strategy) + 48 * i, d.chunks[i])
  {
    hide Chunking.Concat, HoldsChunk, LayoutPieces, HeadLength, HeadSize, ChunkEntry;
    var n, start := HeadLength(d.strategy) + i, HeadSize(d.strategy) + 48 * i;
    EntryStarts(d, i);
    EntryPiece(d, i);
    PieceLies(LayoutPieces(d), n, start);
    EntryIsHeld(LayoutBytes(d), start, d.chunks[i]);
  }

  /** The format, byte for byte: what stands where among the canonical bytes of a layout, and nothing else does. */
  lemma LayoutFormat(d: Descriptor)
    requires ValidDescriptor(d)
    ensures var bytes, head := LayoutBytes(d), HeadSize(d.strategy);
            && |bytes| == head + 48 * |d.chunks|
            && StartsAsLayout(bytes, d)
            && ContinuesAsLayout(bytes, d)
            && forall i | 0 <= i < |d.chunks| :: HoldsChunk(bytes, head + 48 * i, d.chunks[i])
  {
    hide Chunking.Concat, HoldsChunk, ContinuesAsLayout, StartsAsLayout;
    LayoutStarts(d);
    LayoutContinues(d);
    forall i | 0 <= i < |d.chunks|
      ensures HoldsChunk(LayoutBytes(d), HeadSize(d.strategy) + 48 * i, d.chunks[i])
    {
      ChunkLies(d, i);
    }
    EntryStarts(d, |d.chunks|);
    AllPieces(d);
  }

  lemma AllPieces(d: Descriptor)
    requires ValidDescriptor(d)
    ensures var p := LayoutPieces(d);
            |p| == HeadLength(d.strategy) + |d.chunks| && p[..|p|] == p
  {
  }

  // ---------------------------------------------------------------------------------------------
  // Versions
  // ---------------------------------------------------------------------------------------------

  /** The 16 bytes of a UUID, its hyphens left out. */
  ghost predicate HoldsUuid(bytes: Bytes, start: nat, uuid: string)
    requires IsUuid(uuid)
  {
    var digits := uuid[..8] + uuid[9..13] + uuid[14..18] + uuid[19..23] + uuid[24..36];
    && start + 16 <= |bytes|
    && forall k | 0 <= k < 16 ::
         && IsLowerHex(digits[2 * k]) && IsLowerHex(digits[2 * k + 1])
         && bytes[start + k] == 16 * HexDigit(digits[2 * k]) + HexDigit(digits[2 * k + 1])
  }

  lemma UuidLies(p: seq<Bytes>, n: nat, start: nat, uuid: string)
    requires n < |p| && |Chunking.Concat(p[..n])| == start && IsUuid(uuid) && p[n] == UuidBytes(uuid)
    ensures HoldsUuid(Chunking.Concat(p), start, uuid)
    ensures |Chunking.Concat(p[..n + 1])| == start + 16
  {
    PieceLies(p, n, start);
    CompactUuid(uuid);
    CompactUuidIsHex(uuid);
    var digits := WithoutHyphens(uuid);
    var piece := Chunking.Concat(p)[start..start + 16];
    forall k | 0 <= k < 16
      ensures Chunking.Concat(p)[start + k] == 16 * HexDigit(digits[2 * k]) + HexDigit(digits[2 * k + 1])
    {
      HexBytesAt(digits, k);
      assert piece[k] == HexBytes(digits)[k];
    }
  }

  /** The length, then the characters. */
  ghost predicate HoldsString(bytes: Bytes, start: nat, s: string) {
    HoldsNumber(bytes, start, 8, |s|) && HoldsText(bytes, start + 8, s)
  }

  lemma StringLies(p: seq<Bytes>, n: nat, start: nat, s: string)
    requires n + 1 < |p| && |Chunking.Concat(p[..n])| == start && ValidString(s)
    requires p[n] == Uint64(|s|) && p[n + 1] == StringBytes(s)
    ensures HoldsString(Chunking.Concat(p), start, s)
    ensures |Chunking.Concat(p[..n + 2])| == start + 8 + |s|
  {
    hide Chunking.Concat, HoldsNumber, HoldsText;
    NumberLies(p, n, start, |s|);
    TextLies(p, n + 1, start + 8, s);
  }

  /** Keys and values in turn, up to the end. */
  ghost predicate HoldsMetadata(bytes: Bytes, start: nat, entries: seq<(string, string)>)
    decreases |entries|
  {
    if entries == [] then start == |bytes|
    else
      var key, value := entries[0].0, entries[0].1;
      && HoldsString(bytes, start, key)
      && HoldsString(bytes, start + 8 + |key|, value)
      && HoldsMetadata(bytes, start + 16 + |key| + |value|, entries[1..])
  }

  lemma {:induction false} MetadataLies(p: seq<Bytes>, n: nat, start: nat, entries: seq<(string, string)>)
    requires n <= |p| && |Chunking.Concat(p[..n])| == start
    requires ValidMetadata(entries) && p[n..] == MetadataPieces(entries)
    ensures HoldsMetadata(Chunking.Concat(p), start, entries)
    decreases |entries|
  {
    hide Chunking.Concat, HoldsString;
    if entries == [] {
      assert p[..n] == p;
    } else {
      FirstEntry(p, n, entries);
      EntryOfMetadata(p, n, entries[0]);
      StringLies(p, n, start, entries[0].0);
      StringLies(p, n + 2, start + 8 + |entries[0].0|, entries[0].1);
      MetadataLies(p, n + 4, start + 16 + |entries[0].0| + |entries[0].1|, entries[1..]);
    }
  }

  lemma EntryOfMetadata(p: seq<Bytes>, n: nat, entry: (string, string))
    requires n + 4 <= |p| && ValidString(entry.0) && ValidString(entry.1)
    requires p[n..n + 4] == [Uint64(|entry.0|), StringBytes(entry.0), Uint64(|entry.1|), StringBytes(entry.1)]
    ensures p[n] == Uint64(|entry.0|) && p[n + 1] == StringBytes(entry.0)
    ensures p[n + 2] == Uint64(|entry.1|) && p[n + 3] == StringBytes(entry.1)
  {
    var four := p[n..n + 4];
    assert p[n] == four[0] && p[n + 1] == four[1] && p[n + 2] == four[2] && p[n + 3] == four[3];
  }

  /** Magic, format version 1, artifact, root object, and the parent after a 1 or a 0 for none. */
  ghost predicate StartsAsVersion(bytes: Bytes, v: VersionKey)
    requires ValidVersion(v)
  {
    && HoldsText(bytes, 0, "AISTORE_VERSION")
    && HoldsNumber(bytes, 15, 4, 1)
    && HoldsUuid(bytes, 19, v.artifactId)
    && HoldsId(bytes, 35, v.rootObjectId)
    && HoldsNumber(bytes, 67, 1, if v.parent.Some? then 1 else 0)
    && (v.parent.Some? ==> HoldsId(bytes, 68, v.parent.value))
  }

  lemma VersionStarts(v: VersionKey)
    requires ValidVersion(v)
    ensures StartsAsVersion(VersionBytes(v), v)
    ensures var p, n := VersionPieces(v), if v.parent.Some? then 6 else 5;
            n < |p| && |Chunking.Concat(p[..n])| == if v.parent.Some? then 100 else 68
  {
    hide Chunking.Concat, HoldsText, HoldsNumber, HoldsId, HoldsUuid, MetadataPieces;
    var p := VersionPieces(v);
    MagicLies(p, "AISTORE_VERSION");
    VersionLies(p, 15);
    UuidLies(p, 2, 19, v.artifactId);
    IdLies(p, 3, 35, v.rootObjectId);
    CodeLies(p, 4, 67, if v.parent.Some? then 1 else 0);
    if v.parent.Some? {
      IdLies(p, 5, 68, v.parent.value);
    }
  }

  /** The format of a version: its head, the number of metadata entries, and the entries by ascending key. */
  lemma VersionFormat(v: VersionKey)
    requires ValidVersion(v)
    ensures var bytes, head, entries := VersionBytes(v), if v.parent.Some? then 100 else 68, EntriesOf(v.metadata);
            && StartsAsVersion(bytes, v)
            && HoldsNumber(bytes, head, 8, |v.metadata|)
            && HoldsMetadata(bytes, head + 8, entries)
            && AscendingEntries(entries, v.metadata)
  {
    hide Chunking.Concat, HoldsNumber, HoldsMetadata, StartsAsVersion;
    var p, n, head := VersionPieces(v), if v.parent.Some? then 6 else 5, if v.parent.Some? then 100 else 68;
    VersionStarts(v);
    VersionPiecesArePlaced(v);
    NumberLies(p, n, head, |EntriesOf(v.metadata)|);
    MetadataLies(p, n + 1, head + 8, EntriesOf(v.metadata));
    EntriesAscend(v.metadata);
  }

  /** Exactly the entries of the map, their keys ascending. */
  ghost predicate AscendingEntries(entries: seq<(string, string)>, m: map<string, string>) {
    && |entries| == |m|
    && (forall i | 0 <= i < |entries| :: entries[i].0 in m && m[entries[i].0] == entries[i].1)
    && (forall i, j | 0 <= i < j < |entries| :: LexLess(entries[i].0, entries[j].0))
    && (forall key | key in m :: (key, m[key]) in entries)
  }

  lemma EntriesAscend(m: map<string, string>)
    ensures AscendingEntries(EntriesOf(m), m)
  {
    var keys, entries := Enumeration(m.Keys), EntriesOf(m);
    LexStrictTotal();
    EnumerationSize(LexLess, keys, m.Keys);
    assert |m| == |m.Keys|;
    forall key | key in m
      ensures (key, m[key]) in entries
    {
      assert key in Elements(keys);
      var i :| 0 <= i < |keys| && keys[i] == key;
      assert entries[i] == (key, m[key]);
    }
    forall i | 0 <= i < |entries|
      ensures entries[i].0 == keys[i] && keys[i] in m && m[keys[i]] == entries[i].1
    {
      assert keys[i] in Elements(keys);
    }
  }

  // ---------------------------------------------------------------------------------------------
  // Manifests
  // ---------------------------------------------------------------------------------------------

  /** Roles, each with the ID of its version, up to the end. */
  ghost predicate HoldsRoles(bytes: Bytes, start: nat, entries: seq<(string, string)>)
    requires ValidEntries(entries)
    decreases |entries|
  {
    if entries == [] then start == |bytes|
    else
      && HoldsString(bytes, start, entries[0].0)
      && HoldsId(bytes, start + 8 + |entries[0].0|, entries[0].1)
      && HoldsRoles(bytes, start + 40 + |entries[0].0|, entries[1..])
  }

  lemma {:induction false} RolesLie(p: seq<Bytes>, n: nat, start: nat, entries: seq<(string, string)>)
    requires n <= |p| && |Chunking.Concat(p[..n])| == start
    requires ValidEntries(entries) && p[n..] == EntryPieces(entries)
    ensures HoldsRoles(Chunking.Concat(p), start, entries)
    decreases |entries|
  {
    hide Chunking.Concat, HoldsString, HoldsId;
    if entries == [] {
      assert p[..n] == p;
    } else {
      FirstRole(p, n, entries);
      EntryOfManifest(p, n, entries[0]);
      StringLies(p, n, start, entries[0].0);
      IdLies(p, n + 2, start + 8 + |entries[0].0|, entries[0].1);
      RolesLie(p, n + 3, start + 40 + |entries[0].0|, entries[1..]);
    }
  }

  lemma EntryOfManifest(p: seq<Bytes>, n: nat, entry: (string, string))
    requires n + 3 <= |p| && ValidString(entry.0) && IsContentId(entry.1)
    requires p[n..n + 3] == [Uint64(|entry.0|), StringBytes(entry.0), IdBytes(entry.1)]
    ensures p[n] == Uint64(|entry.0|) && p[n + 1] == StringBytes(entry.0) && p[n + 2] == IdBytes(entry.1)
  {
    var three := p[n..n + 3];
    assert p[n] == three[0] && p[n + 1] == three[1] && p[n + 2] == three[2];
  }

  /** The format of a manifest: magic, format version 1, the number of entries, and the entries by ascending
      role. */
  lemma ManifestFormat(m: map<string, string>)
    requires ValidManifest(m)
    ensures var bytes, entries := ManifestBytes(m), EntriesOf(m);
            && HoldsText(bytes, 0, "AISTORE_MANIFEST")
            && HoldsNumber(bytes, 16, 4, 1)
            && HoldsNumber(bytes, 20, 8, |m|)
            && HoldsRoles(bytes, 28, entries)
            && AscendingEntries(entries, m)
  {
    hide Chunking.Concat, HoldsText, HoldsNumber, HoldsRoles, EntryPieces;
    var p := ManifestPieces(m);
    MagicLies(p, "AISTORE_MANIFEST");
    VersionLies(p, 16);
    NumberLies(p, 2, 20, |EntriesOf(m)|);
    RolesLie(p, 3, 28, EntriesOf(m));
    EntriesAscend(m);
  }
}
