/** The canonical bytes of object layouts, versions and manifests, whose hashes are their IDs
    (`serialize` in src/metadata/object_layout_descriptor.cpp, artifact_model.cpp and
    manifest_model.cpp): equal bytes come from equal contents, and the three kinds never coincide. */
module CanonicalBytes {
  import opened Common
  import opened Arithmetic
  import opened Ordering
  import opened ObjectLayouts
  import opened Encoding
  import Chunking
  import Tables

  const FORMAT_VERSION := 1

  const LAYOUT_MAGIC: Bytes := StringBytes("AISTORE_LAYOUT")
  const VERSION_MAGIC: Bytes := StringBytes("AISTORE_VERSION")
  const MANIFEST_MAGIC: Bytes := StringBytes("AISTORE_MANIFEST")

  predicate IsUint64(n: nat) {
    n <= UINT64_MAX
  }

  function Uint64(n: nat): (bytes: Bytes)
    ensures |bytes| == 8
  {
    BigEndian(n, 8)
  }

  lemma Uint64Injective(a: nat, b: nat)
    requires IsUint64(a) && IsUint64(b) && Uint64(a) == Uint64(b)
    ensures a == b
  {
    PowersOfTwo();
    BigEndianInjective(a, b, 8);
  }

  lemma PowersOfTwo()
    ensures Pow2(64) == UINT64_MAX + 1
  {
    Squares(8, 256);
    Squares(16, 65536);
    Squares(32, 4294967296);
  }

  lemma Squares(n: nat, power: nat)
    requires Pow2(n) == power
    ensures Pow2(2 * n) == power * power
  {
    Pow2Add(n, n);
  }

  function IdBytes(id: string): (bytes: Bytes)
    requires IsContentId(id)
    ensures |bytes| == 32
  {
    HexBytes(id)
  }

  lemma IdBytesInjective(a: string, b: string)
    requires IsContentId(a) && IsContentId(b) && IdBytes(a) == IdBytes(b)
    ensures a == b
  {
    HexBytesInjective(a, b);
  }

  // ---------------------------------------------------------------------------------------------
  // Layouts
  // ---------------------------------------------------------------------------------------------

  predicate ValidParameters(strategy: Strategy) {
    strategy.FastCdc? ==> IsUint64(strategy.parameters.min) && IsUint64(strategy.parameters.avg) && IsUint64(strategy.parameters.max)
  }

  predicate ValidChunk(chunk: ChunkRef) {
    IsContentId(chunk.chunkId) && IsUint64(chunk.offset) && IsUint64(chunk.size)
  }

  predicate ValidChunks(chunks: seq<ChunkRef>) {
    IsUint64(|chunks|) && forall i | 0 <= i < |chunks| :: ValidChunk(chunks[i])
  }

  /** What the constructors guarantee. */
  predicate ValidDescriptor(d: Descriptor) {
    IsContentId(d.objectId) && IsUint64(d.totalSize) && ValidParameters(d.strategy) && ValidChunks(d.chunks)
  }

  function StrategyCode(strategy: Strategy): Byte {
    if strategy.FixedSize? then 1 else 2
  }

  function ChunkEntry(chunk: ChunkRef): (bytes: Bytes)
    requires ValidChunk(chunk)
    ensures |bytes| == 48
  {
    IdBytes(chunk.chunkId) + Uint64(chunk.offset) + Uint64(chunk.size)
  }

  function ParameterPieces(strategy: Strategy): seq<Bytes> {
    match strategy
    case FixedSize => []
    case FastCdc(parameters) => [Uint64(parameters.min), Uint64(parameters.avg), Uint64(parameters.max)]
  }

  function ChunkPieces(chunks: seq<ChunkRef>): (pieces: seq<Bytes>)
    requires ValidChunks(chunks)
  {
    seq(|chunks|, i requires 0 <= i < |chunks| => ChunkEntry(chunks[i]))
  }

  function Header(magic: Bytes): seq<Bytes> {
    [magic, BigEndian(FORMAT_VERSION, 4)]
  }

  function LayoutPieces(d: Descriptor): seq<Bytes>
    requires ValidDescriptor(d)
  {
    Header(LAYOUT_MAGIC) + [IdBytes(d.objectId), [StrategyCode(d.strategy)]]
    + ParameterPieces(d.strategy) + [Uint64(d.totalSize), Uint64(|d.chunks|)] + ChunkPieces(d.chunks)
  }

  function LayoutBytes(d: Descriptor): Bytes
    requires ValidDescriptor(d)
  {
    Chunking.Concat(LayoutPieces(d))
  }

  lemma ChunkEntryInjective(a: ChunkRef, b: ChunkRef)
    requires ValidChunk(a) && ValidChunk(b) && ChunkEntry(a) == ChunkEntry(b)
    ensures a == b
  {
    assert ChunkEntry(a)[..32] == IdBytes(a.chunkId) && ChunkEntry(b)[..32] == IdBytes(b.chunkId);
    assert ChunkEntry(a)[32..40] == Uint64(a.offset) && ChunkEntry(b)[32..40] == Uint64(b.offset);
    assert ChunkEntry(a)[40..] == Uint64(a.size) && ChunkEntry(b)[40..] == Uint64(b.size);
    IdBytesInjective(a.chunkId, b.chunkId);
    Uint64Injective(a.offset, b.offset);
    Uint64Injective(a.size, b.size);
  }

  lemma ChunkPiecesInjective(a: seq<ChunkRef>, b: seq<ChunkRef>)
    requires ValidChunks(a) && ValidChunks(b) && ChunkPieces(a) == ChunkPieces(b)
    ensures a == b
  {
    forall i | 0 <= i < |a|
      ensures a[i] == b[i]
    {
      assert ChunkPieces(a)[i] == ChunkPieces(b)[i];
      ChunkEntryInjective(a[i], b[i]);
    }
  }

  /** Number of pieces before the chunk entries. */
  function HeadLength(strategy: Strategy): nat {
    if strategy.FixedSize? then 6 else 9
  }

  /** Where each part of a layout is found among its pieces. */
  predicate IsLayout(p: seq<Bytes>, d: Descriptor)
    requires ValidDescriptor(d)
  {
    var n := HeadLength(d.strategy);
    && |p| == n + |d.chunks|
    && |p[0]| == |LAYOUT_MAGIC| && |p[1]| == 4
    && p[2] == IdBytes(d.objectId) && p[3] == [StrategyCode(d.strategy)]
    && (d.strategy.FastCdc? ==> p[4..7] == ParameterPieces(d.strategy))
    && p[n - 2] == Uint64(d.totalSize) && p[n - 1] == Uint64(|d.chunks|)
    && p[n..] == ChunkPieces(d.chunks)
  }

  lemma LayoutPiecesArePlaced(d: Descriptor)
    requires ValidDescriptor(d)
    ensures IsLayout(LayoutPieces(d), d)
  {
  }

  lemma HeadWidths(p: seq<Bytes>, d: Descriptor, i: nat)
    requires ValidDescriptor(d) && IsLayout(p, d) && 4 <= i < |p|
    ensures |p[i]| == if i < HeadLength(d.strategy) then 8 else 48
  {
    var n := HeadLength(d.strategy);
    if i >= n {
      assert p[i] == p[n..][i - n];
    } else if i < n - 2 {
      assert p[i] == p[4..7][i - 4];
    }
  }

  lemma SameHead(p: seq<Bytes>, q: seq<Bytes>, a: Descriptor, b: Descriptor)
    requires ValidDescriptor(a) && ValidDescriptor(b) && IsLayout(p, a) && IsLayout(q, b)
    requires Chunking.Concat(p) == Chunking.Concat(q)
    ensures HeadLength(a.strategy) == HeadLength(b.strategy)
    ensures p[..HeadLength(a.strategy)] == q[..HeadLength(a.strategy)]
  {
    NextPieces(p, q, 0, 4);
    assert p[3] == p[..4][3] == q[..4][3] == q[3];
    var n := HeadLength(a.strategy);
    forall i | 4 <= i < n
      ensures |p[i]| == |q[i]|
    {
      HeadWidths(p, a, i);
      HeadWidths(q, b, i);
    }
    NextPieces(p, q, 4, n);
  }

  lemma SameLayout(p: seq<Bytes>, q: seq<Bytes>, a: Descriptor, b: Descriptor)
    requires ValidDescriptor(a) && ValidDescriptor(b) && IsLayout(p, a) && IsLayout(q, b)
    requires Chunking.Concat(p) == Chunking.Concat(q)
    ensures a == b
  {
    SameHead(p, q, a, b);
    HeadIsRead(p, q, a, b);
    var n := HeadLength(a.strategy);
    forall i | n <= i < |p|
      ensures |p[i]| == |q[i]|
    {
      HeadWidths(p, a, i);
      HeadWidths(q, b, i);
    }
    NextPieces(p, q, n, |p|);
    assert p == p[..|p|] && q == q[..|p|];
    ChunkPiecesInjective(a.chunks, b.chunks);
  }

  lemma HeadIsRead(p: seq<Bytes>, q: seq<Bytes>, a: Descriptor, b: Descriptor)
    requires ValidDescriptor(a) && ValidDescriptor(b) && IsLayout(p, a) && IsLayout(q, b)
    requires HeadLength(a.strategy) == HeadLength(b.strategy)
    requires p[..HeadLength(a.strategy)] == q[..HeadLength(a.strategy)]
    ensures a.objectId == b.objectId && a.strategy == b.strategy && a.totalSize == b.totalSize && |a.chunks| == |b.chunks|
  {
    var n := HeadLength(a.strategy);
    assert forall i | 0 <= i < n :: p[i] == p[..n][i] == q[..n][i] == q[i];
    assert a.strategy.FastCdc? ==> p[4..7] == q[4..7];
    HeadDetermines(a, b);
  }

  /** Layouts with the same canonical bytes are the same. */
  lemma LayoutBytesInjective(a: Descriptor, b: Descriptor)
    requires ValidDescriptor(a) && ValidDescriptor(b) && LayoutBytes(a) == LayoutBytes(b)
    ensures a == b
  {
    LayoutPiecesArePlaced(a);
    LayoutPiecesArePlaced(b);
    SameLayout(LayoutPieces(a), LayoutPieces(b), a, b);
  }

  lemma HeadDetermines(a: Descriptor, b: Descriptor)
    requires ValidDescriptor(a) && ValidDescriptor(b) && a.strategy.FixedSize? == b.strategy.FixedSize?
    requires IdBytes(a.objectId) == IdBytes(b.objectId)
    requires a.strategy.FastCdc? ==> ParameterPieces(a.strategy) == ParameterPieces(b.strategy)
    requires Uint64(a.totalSize) == Uint64(b.totalSize) && Uint64(|a.chunks|) == Uint64(|b.chunks|)
    ensures a.objectId == b.objectId && a.strategy == b.strategy && a.totalSize == b.totalSize && |a.chunks| == |b.chunks|
  {
    IdBytesInjective(a.objectId, b.objectId);
    if a.strategy.FastCdc? {
      var x, y := ParameterPieces(a.strategy), ParameterPieces(b.strategy);
      assert x[0] == y[0] && x[1] == y[1] && x[2] == y[2];
      Uint64Injective(a.strategy.parameters.min, b.strategy.parameters.min);
      Uint64Injective(a.strategy.parameters.avg, b.strategy.parameters.avg);
      Uint64Injective(a.strategy.parameters.max, b.strategy.parameters.max);
    }
    Uint64Injective(a.totalSize, b.totalSize);
    Uint64Injective(|a.chunks|, |b.chunks|);
  }

  // ---------------------------------------------------------------------------------------------
  // Versions and manifests
  // ---------------------------------------------------------------------------------------------

  predicate ValidString(s: string) {
    IsByteString(s) && IsUint64(|s|)
  }

  /** A length-prefixed string that follows agreeing pieces is read back. */
  lemma SameString(p: seq<Bytes>, q: seq<Bytes>, n: nat, s: string, t: string)
    requires Chunking.Concat(p) == Chunking.Concat(q) && ValidString(s) && ValidString(t)
    requires n + 2 <= |p| && n + 2 <= |q| && p[..n] == q[..n]
    requires p[n] == Uint64(|s|) && p[n + 1] == StringBytes(s) && q[n] == Uint64(|t|) && q[n + 1] == StringBytes(t)
    ensures s == t && p[..n + 2] == q[..n + 2]
  {
    NextPiece(p, q, n);
    Uint64Injective(|s|, |t|);
    NextPiece(p, q, n + 1);
    StringBytesInjective(s, t);
  }

  /** The order in which a `std::map` is traversed. */
  ghost function EntriesOf(m: map<string, string>): (entries: seq<(string, string)>)
    ensures |entries| == |Enumeration(m.Keys)|
  {
    var keys := Enumeration(m.Keys);
    assert forall i | 0 <= i < |keys| :: keys[i] in Elements(keys);
    seq(|keys|, i requires 0 <= i < |keys| => (keys[i], m[keys[i]]))
  }

  lemma EntriesInjective(a: map<string, string>, b: map<string, string>)
    requires EntriesOf(a) == EntriesOf(b)
    ensures a == b
  {
    var x, y := Enumeration(a.Keys), Enumeration(b.Keys);
    forall i | 0 <= i < |x|
      ensures x[i] == y[i]
    {
      assert EntriesOf(a)[i] == EntriesOf(b)[i];
    }
    assert a.Keys == Elements(x) == Elements(y) == b.Keys;
    forall k | k in a
      ensures a[k] == b[k]
    {
      assert k in Elements(x);
      var i :| 0 <= i < |x| && x[i] == k;
      assert EntriesOf(a)[i] == EntriesOf(b)[i];
    }
  }

  predicate ValidMetadata(entries: seq<(string, string)>) {
    forall i | 0 <= i < |entries| :: ValidString(entries[i].0) && ValidString(entries[i].1)
  }

  function MetadataPieces(entries: seq<(string, string)>): seq<Bytes>
    requires ValidMetadata(entries)
  {
    if entries == [] then []
    else
      [Uint64(|entries[0].0|), StringBytes(entries[0].0), Uint64(|entries[0].1|), StringBytes(entries[0].1)]
      + MetadataPieces(entries[1..])
  }

  /** One entry of a metadata map. */
  lemma SameEntry(p: seq<Bytes>, q: seq<Bytes>, n: nat, a: (string, string), b: (string, string))
    requires Chunking.Concat(p) == Chunking.Concat(q) && n + 4 <= |p| && n + 4 <= |q| && p[..n] == q[..n]
    requires ValidString(a.0) && ValidString(a.1) && ValidString(b.0) && ValidString(b.1)
    requires p[n..n + 4] == [Uint64(|a.0|), StringBytes(a.0), Uint64(|a.1|), StringBytes(a.1)]
    requires q[n..n + 4] == [Uint64(|b.0|), StringBytes(b.0), Uint64(|b.1|), StringBytes(b.1)]
    ensures a == b && p[..n + 4] == q[..n + 4]
  {
    var x, y := p[n..n + 4], q[n..n + 4];
    assert p[n] == x[0] && p[n + 1] == x[1] && p[n + 2] == x[2] && p[n + 3] == x[3];
    assert q[n] == y[0] && q[n + 1] == y[1] && q[n + 2] == y[2] && q[n + 3] == y[3];
    SameString(p, q, n, a.0, b.0);
    SameString(p, q, n + 2, a.1, b.1);
  }

  lemma FirstEntry(p: seq<Bytes>, n: nat, a: seq<(string, string)>)
    requires ValidMetadata(a) && a != [] && n <= |p| && p[n..] == MetadataPieces(a)
    ensures n + 4 <= |p| && p[n + 4..] == MetadataPieces(a[1..])
    ensures p[n..n + 4] == [Uint64(|a[0].0|), StringBytes(a[0].0), Uint64(|a[0].1|), StringBytes(a[0].1)]
  {
    assert p[n..n + 4] == p[n..][..4] && p[n + 4..] == p[n..][4..];
  }

  lemma {:induction false} SameMetadata(p: seq<Bytes>, q: seq<Bytes>, n: nat, a: seq<(string, string)>, b: seq<(string, string)>)
    requires Chunking.Concat(p) == Chunking.Concat(q) && ValidMetadata(a) && ValidMetadata(b) && |a| == |b|
    requires n <= |p| && n <= |q| && p[..n] == q[..n] && p[n..] == MetadataPieces(a) && q[n..] == MetadataPieces(b)
    ensures a == b
    decreases |a|
  {
    if a != [] {
      FirstEntry(p, n, a);
      FirstEntry(q, n, b);
      SameEntry(p, q, n, a[0], b[0]);
      SameMetadata(p, q, n + 4, a[1..], b[1..]);
      assert a == [a[0]] + a[1..] && b == [b[0]] + b[1..];
    }
  }

  function UuidBytes(uuid: string): (bytes: Bytes)
    requires IsUuid(uuid)
    ensures |bytes| == 16
  {
    CompactUuidIsHex(uuid);
    HexBytes(WithoutHyphens(uuid))
  }

  lemma UuidBytesInjective(a: string, b: string)
    requires IsUuid(a) && IsUuid(b) && UuidBytes(a) == UuidBytes(b)
    ensures a == b
  {
    CompactUuidIsHex(a);
    CompactUuidIsHex(b);
    HexBytesInjective(WithoutHyphens(a), WithoutHyphens(b));
    CompactUuidInjective(a, b);
  }

  type VersionKey = Tables.VersionKey

  ghost predicate ValidVersion(v: VersionKey) {
    && IsUuid(v.artifactId) && IsContentId(v.rootObjectId) && (v.parent.Some? ==> IsContentId(v.parent.value))
    && IsUint64(|EntriesOf(v.metadata)|) && ValidMetadata(EntriesOf(v.metadata))
  }

  function ParentPieces(parent: Option<VersionId>): seq<Bytes>
    requires parent.Some? ==> IsContentId(parent.value)
  {
    match parent
    case None => [[0]]
    case Some(id) => [[1], IdBytes(id)]
  }

  ghost function VersionHead(v: VersionKey): seq<Bytes>
    requires ValidVersion(v)
  {
    Header(VERSION_MAGIC) + [UuidBytes(v.artifactId), IdBytes(v.rootObjectId)] + ParentPieces(v.parent)
  }

  ghost function VersionPieces(v: VersionKey): seq<Bytes>
    requires ValidVersion(v)
  {
    VersionHead(v) + [Uint64(|EntriesOf(v.metadata)|)] + MetadataPieces(EntriesOf(v.metadata))
  }

  ghost function VersionBytes(v: VersionKey): Bytes
    requires ValidVersion(v)
  {
    Chunking.Concat(VersionPieces(v))
  }

  /** Where each part of a version is found among its pieces. */
  ghost predicate IsVersion(p: seq<Bytes>, v: VersionKey)
    requires ValidVersion(v)
  {
    var n := if v.parent.Some? then 6 else 5;
    && n < |p|
    && |p[0]| == |VERSION_MAGIC| && |p[1]| == 4
    && p[2] == UuidBytes(v.artifactId) && p[3] == IdBytes(v.rootObjectId)
    && p[4] == [if v.parent.Some? then 1 else 0]
    && (v.parent.Some? ==> p[5] == IdBytes(v.parent.value))
    && p[n] == Uint64(|EntriesOf(v.metadata)|)
    && p[n + 1..] == MetadataPieces(EntriesOf(v.metadata))
  }

  lemma VersionPiecesArePlaced(v: VersionKey)
    requires ValidVersion(v)
    ensures IsVersion(VersionPieces(v), v)
  {
  }

  lemma SameVersionHead(p: seq<Bytes>, q: seq<Bytes>, a: VersionKey, b: VersionKey)
    requires ValidVersion(a) && ValidVersion(b) && IsVersion(p, a) && IsVersion(q, b)
    requires Chunking.Concat(p) == Chunking.Concat(q)
    ensures a.parent.Some? == b.parent.Some?
    ensures a.artifactId == b.artifactId && a.rootObjectId == b.rootObjectId
    ensures p[..5] == q[..5]
  {
    NextPieces(p, q, 0, 5);
    assert forall i | 0 <= i < 5 :: p[i] == p[..5][i] == q[..5][i] == q[i];
    UuidBytesInjective(a.artifactId, b.artifactId);
    IdBytesInjective(a.rootObjectId, b.rootObjectId);
  }

  lemma SameVersion(p: seq<Bytes>, q: seq<Bytes>, a: VersionKey, b: VersionKey)
    requires ValidVersion(a) && ValidVersion(b) && IsVersion(p, a) && IsVersion(q, b)
    requires Chunking.Concat(p) == Chunking.Concat(q)
    ensures a == b
  {
    SameVersionHead(p, q, a, b);
    var n := if a.parent.Some? then 6 else 5;
    NextPieces(p, q, 5, n + 1);
    assert p[5] == p[..n + 1][5] == q[..n + 1][5] == q[5];
    assert p[n] == p[..n + 1][n] == q[..n + 1][n] == q[n];
    if a.parent.Some? {
      IdBytesInjective(a.parent.value, b.parent.value);
    }
    Uint64Injective(|EntriesOf(a.metadata)|, |EntriesOf(b.metadata)|);
    SameMetadata(p, q, n + 1, EntriesOf(a.metadata), EntriesOf(b.metadata));
    EntriesInjective(a.metadata, b.metadata);
  }

  /** Versions with the same canonical bytes have the same artifact, object, parent and metadata. */
  lemma VersionBytesInjective(a: VersionKey, b: VersionKey)
    requires ValidVersion(a) && ValidVersion(b) && VersionBytes(a) == VersionBytes(b)
    ensures a == b
  {
    VersionPiecesArePlaced(a);
    VersionPiecesArePlaced(b);
    SameVersion(VersionPieces(a), VersionPieces(b), a, b);
  }

  predicate ValidEntries(entries: seq<(string, string)>) {
    forall i | 0 <= i < |entries| :: ValidString(entries[i].0) && IsContentId(entries[i].1)
  }

  function EntryPieces(entries: seq<(string, string)>): seq<Bytes>
    requires ValidEntries(entries)
  {
    if entries == [] then []
    else [Uint64(|entries[0].0|), StringBytes(entries[0].0), IdBytes(entries[0].1)] + EntryPieces(entries[1..])
  }

  /** One entry of a manifest. */
  lemma SameRole(p: seq<Bytes>, q: seq<Bytes>, n: nat, a: (string, string), b: (string, string))
    requires Chunking.Concat(p) == Chunking.Concat(q) && n + 3 <= |p| && n + 3 <= |q| && p[..n] == q[..n]
    requires ValidString(a.0) && IsContentId(a.1) && ValidString(b.0) && IsContentId(b.1)
    requires p[n..n + 3] == [Uint64(|a.0|), StringBytes(a.0), IdBytes(a.1)]
    requires q[n..n + 3] == [Uint64(|b.0|), StringBytes(b.0), IdBytes(b.1)]
    ensures a == b && p[..n + 3] == q[..n + 3]
  {
    var x, y := p[n..n + 3], q[n..n + 3];
    assert p[n] == x[0] && p[n + 1] == x[1] && p[n + 2] == x[2];
    assert q[n] == y[0] && q[n + 1] == y[1] && q[n + 2] == y[2];
    SameString(p, q, n, a.0, b.0);
    NextPiece(p, q, n + 2);
    IdBytesInjective(a.1, b.1);
  }

  lemma FirstRole(p: seq<Bytes>, n: nat, a: seq<(string, string)>)
    requires ValidEntries(a) && a != [] && n <= |p| && p[n..] == EntryPieces(a)
    ensures n + 3 <= |p| && p[n + 3..] == EntryPieces(a[1..])
    ensures p[n..n + 3] == [Uint64(|a[0].0|), StringBytes(a[0].0), IdBytes(a[0].1)]
  {
    assert p[n..n + 3] == p[n..][..3] && p[n + 3..] == p[n..][3..];
  }

  lemma {:induction false} SameEntries(p: seq<Bytes>, q: seq<Bytes>, n: nat, a: seq<(string, string)>, b: seq<(string, string)>)
    requires Chunking.Concat(p) == Chunking.Concat(q) && ValidEntries(a) && ValidEntries(b) && |a| == |b|
    requires n <= |p| && n <= |q| && p[..n] == q[..n] && p[n..] == EntryPieces(a) && q[n..] == EntryPieces(b)
    ensures a == b
    decreases |a|
  {
    if a != [] {
      FirstRole(p, n, a);
      FirstRole(q, n, b);
      SameRole(p, q, n, a[0], b[0]);
      SameEntries(p, q, n + 3, a[1..], b[1..]);
      assert a == [a[0]] + a[1..] && b == [b[0]] + b[1..];
    }
  }

  ghost predicate ValidManifest(m: map<string, VersionId>) {
    IsUint64(|EntriesOf(m)|) && ValidEntries(EntriesOf(m))
  }

  ghost function ManifestPieces(m: map<string, VersionId>): seq<Bytes>
    requires ValidManifest(m)
  {
    Header(MANIFEST_MAGIC) + [Uint64(|EntriesOf(m)|)] + EntryPieces(EntriesOf(m))
  }

  ghost function ManifestBytes(m: map<string, VersionId>): Bytes
    requires ValidManifest(m)
  {
    Chunking.Concat(ManifestPieces(m))
  }

  /** Manifests with the same canonical bytes have the same entries. */
  lemma ManifestBytesInjective(a: map<string, VersionId>, b: map<string, VersionId>)
    requires ValidManifest(a) && ValidManifest(b) && ManifestBytes(a) == ManifestBytes(b)
    ensures a == b
  {
    var p: seq<Bytes>, q: seq<Bytes> := ManifestPieces(a), ManifestPieces(b);
    NextPieces(p, q, 0, 3);
    assert p[2] == p[..3][2] == q[..3][2] == q[2];
    assert p[3..] == EntryPieces(EntriesOf(a)) && q[3..] == EntryPieces(EntriesOf(b));
    Uint64Injective(|EntriesOf(a)|, |EntriesOf(b)|);
    SameEntries(p, q, 3, EntriesOf(a), EntriesOf(b));
    EntriesInjective(a, b);
  }

  // ---------------------------------------------------------------------------------------------
  // Kinds
  // ---------------------------------------------------------------------------------------------

  lemma MagicDecides(p: seq<Bytes>, magic: Bytes)
    requires |p| > 0 && p[0] == magic && |magic| > 8
    ensures |Chunking.Concat(p)| > 8 && Chunking.Concat(p)[8] == magic[8]
  {
    PieceAt(p, 0);
    assert Chunking.Concat(p)[0..|magic|] == magic;
  }

  lemma NinthBytes()
    ensures |LAYOUT_MAGIC| > 8 && LAYOUT_MAGIC[8] == 'L' as int
    ensures |VERSION_MAGIC| > 8 && VERSION_MAGIC[8] == 'V' as int
    ensures |MANIFEST_MAGIC| > 8 && MANIFEST_MAGIC[8] == 'M' as int
  {
  }

  /** Bytes of different kinds never coincide: the ninth byte tells them apart. */
  lemma KindsNeverCoincide(d: Descriptor, v: VersionKey, m: map<string, VersionId>)
    ensures ValidDescriptor(d) && ValidVersion(v) ==> LayoutBytes(d) != VersionBytes(v)
    ensures ValidDescriptor(d) && ValidManifest(m) ==> LayoutBytes(d) != ManifestBytes(m)
    ensures ValidVersion(v) && ValidManifest(m) ==> VersionBytes(v) != ManifestBytes(m)
  {
    NinthBytes();
    if ValidDescriptor(d) {
      MagicDecides(LayoutPieces(d), LAYOUT_MAGIC);
    }
    if ValidVersion(v) {
      MagicDecides(VersionPieces(v), VERSION_MAGIC);
    }
    if ValidManifest(m) {
      MagicDecides(ManifestPieces(m), MANIFEST_MAGIC);
    }
  }

  /** An ID identifies its layout, and no version or manifest has the ID of a layout, unless the canonical
      bytes of the two collide. */
  lemma IdsIdentify(sha: Bytes -> string, a: Descriptor, b: Descriptor, v: VersionKey, m: map<string, VersionId>)
    requires ValidDescriptor(a) && ValidDescriptor(b) && ValidVersion(v) && ValidManifest(m)
    ensures sha(LayoutBytes(a)) == sha(LayoutBytes(b)) <==> a == b || Collide(sha, LayoutBytes(a), LayoutBytes(b))
    ensures sha(LayoutBytes(a)) == sha(VersionBytes(v)) <==> Collide(sha, LayoutBytes(a), VersionBytes(v))
    ensures sha(LayoutBytes(a)) == sha(ManifestBytes(m)) <==> Collide(sha, LayoutBytes(a), ManifestBytes(m))
    ensures sha(VersionBytes(v)) == sha(ManifestBytes(m)) <==> Collide(sha, VersionBytes(v), ManifestBytes(m))
  {
    KindsNeverCoincide(a, v, m);
    if LayoutBytes(a) == LayoutBytes(b) {
      LayoutBytesInjective(a, b);
    }
  }
}
