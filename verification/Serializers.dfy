/** The three `serialize` functions, which append to an output buffer piece by piece
    (src/metadata/object_layout_descriptor.cpp, artifact_model.cpp, manifest_model.cpp), proved
    against the piece lists of module CanonicalBytes. */
module Serializers {
  import opened Common
  import opened Ordering
  import opened ObjectLayouts
  import opened Encoding
  import opened CanonicalBytes
  import opened Chunking

  /** One more piece on the buffer. */
  lemma Appended(output: Bytes, pieces: seq<Bytes>, piece: Bytes)
    requires output == Concat(pieces)
    ensures output + piece == Concat(pieces + [piece])
  {
    ConcatAppend(pieces, piece);
  }

  method AppendHeader(magic: Bytes) returns (output: Bytes)
    ensures output == Concat(Header(magic))
  {
    output := magic;
    assert Header(magic)[..1] == [magic] && Concat([magic]) == magic by {
      Appended([], [], magic);
      assert [] + magic == magic && [] + [magic] == [magic];
    }
    Appended(output, [magic], BigEndian(FORMAT_VERSION, 4));
    output := AppendBigEndian(output, FORMAT_VERSION, 4);
    assert [magic] + [BigEndian(FORMAT_VERSION, 4)] == Header(magic);
  }

  method AppendUint64(output: Bytes, value: nat, ghost pieces: seq<Bytes>) returns (longer: Bytes)
    requires output == Concat(pieces)
    ensures longer == Concat(pieces + [Uint64(value)])
  {
    longer := AppendBigEndian(output, value, 8);
    Appended(output, pieces, Uint64(value));
  }

  method AppendId(output: Bytes, id: string, ghost pieces: seq<Bytes>) returns (longer: Bytes)
    requires output == Concat(pieces) && IsContentId(id)
    ensures longer == Concat(pieces + [IdBytes(id)])
  {
    longer := AppendHex(output, id);
    Appended(output, pieces, IdBytes(id));
  }

  /** The length, then the bytes. */
  method AppendString(output: Bytes, s: string, ghost pieces: seq<Bytes>) returns (longer: Bytes)
    requires output == Concat(pieces) && ValidString(s)
    ensures longer == Concat(pieces + [Uint64(|s|), StringBytes(s)])
  {
    longer := AppendUint64(output, |s|, pieces);
    Appended(longer, pieces + [Uint64(|s|)], StringBytes(s));
    longer := longer + StringBytes(s);
    assert pieces + [Uint64(|s|)] + [StringBytes(s)] == pieces + [Uint64(|s|), StringBytes(s)];
  }

  method SerializeLayout(d: Descriptor) returns (output: Bytes)
    requires ValidDescriptor(d)
    ensures output == LayoutBytes(d)
  {
    ghost var pieces := Header(LAYOUT_MAGIC);
    output := AppendHeader(LAYOUT_MAGIC);
    output := AppendId(output, d.objectId, pieces);
    pieces := pieces + [IdBytes(d.objectId)];
    Appended(output, pieces, [StrategyCode(d.strategy)]);
    output := output + [StrategyCode(d.strategy)];
    pieces := pieces + [[StrategyCode(d.strategy)]];
    output := AppendParameters(output, d.strategy, pieces);
    pieces := pieces + ParameterPieces(d.strategy);
    output := AppendUint64(output, d.totalSize, pieces);
    pieces := pieces + [Uint64(d.totalSize)];
    output := AppendUint64(output, |d.chunks|, pieces);
    pieces := pieces + [Uint64(|d.chunks|)];
    output := AppendChunks(output, d.chunks, pieces);
    assert pieces + ChunkPieces(d.chunks) == LayoutPieces(d);
  }

  lemma ThreePieces(pieces: seq<Bytes>, a: Bytes, b: Bytes, c: Bytes)
    ensures pieces + [a] + [b] + [c] == pieces + [a, b, c]
  {
  }

  method AppendParameters(output: Bytes, strategy: Strategy, ghost pieces: seq<Bytes>) returns (longer: Bytes)
    requires output == Concat(pieces)
    ensures longer == Concat(pieces + ParameterPieces(strategy))
  {
    match strategy {
      case FixedSize =>
        assert pieces + [] == pieces;
        longer := output;
      case FastCdc(parameters) =>
        longer := AppendThree(output, parameters.min, parameters.avg, parameters.max, pieces);
    }
  }

  method AppendThree(output: Bytes, a: nat, b: nat, c: nat, ghost pieces: seq<Bytes>) returns (longer: Bytes)
    requires output == Concat(pieces)
    ensures longer == Concat(pieces + [Uint64(a), Uint64(b), Uint64(c)])
  {
    longer := AppendUint64(output, a, pieces);
    longer := AppendUint64(longer, b, pieces + [Uint64(a)]);
    longer := AppendUint64(longer, c, pieces + [Uint64(a)] + [Uint64(b)]);
    ThreePieces(pieces, Uint64(a), Uint64(b), Uint64(c));
  }

  method AppendChunk(output: Bytes, chunk: ChunkRef) returns (longer: Bytes)
    requires ValidChunk(chunk)
    ensures longer == output + ChunkEntry(chunk)
  {
    longer := AppendHex(output, chunk.chunkId);
    longer := AppendBigEndian(longer, chunk.offset, 8);
    longer := AppendBigEndian(longer, chunk.size, 8);
    FourParts(output, IdBytes(chunk.chunkId), Uint64(chunk.offset), Uint64(chunk.size));
  }

  lemma FourParts(output: Bytes, a: Bytes, b: Bytes, c: Bytes)
    ensures output + a + b + c == output + (a + b + c)
  {
  }

  lemma ChunkPiecesNext(pieces: seq<Bytes>, chunks: seq<ChunkRef>, n: nat)
    requires ValidChunks(chunks) && n < |chunks|
    ensures pieces + ChunkPieces(chunks)[..n + 1] == pieces + ChunkPieces(chunks)[..n] + [ChunkEntry(chunks[n])]
  {
    assert ChunkPieces(chunks)[..n + 1] == ChunkPieces(chunks)[..n] + [ChunkEntry(chunks[n])];
  }

  method AppendChunks(output: Bytes, chunks: seq<ChunkRef>, ghost pieces: seq<Bytes>) returns (longer: Bytes)
    requires output == Concat(pieces) && ValidChunks(chunks)
    ensures longer == Concat(pieces + ChunkPieces(chunks))
  {
    longer := output;
    assert pieces + ChunkPieces(chunks)[..0] == pieces;
    for index := 0 to |chunks|
      invariant longer == Concat(pieces + ChunkPieces(chunks)[..index])
    {
      Appended(longer, pieces + ChunkPieces(chunks)[..index], ChunkEntry(chunks[index]));
      ChunkPiecesNext(pieces, chunks, index);
      longer := AppendChunk(longer, chunks[index]);
    }
    assert ChunkPieces(chunks)[..|chunks|] == ChunkPieces(chunks);
  }

  /** Traverses a map in the order of its keys. */
  method SortedEntries(m: map<string, string>) returns (entries: seq<(string, string)>)
    ensures entries == EntriesOf(m)
  {
    var keys := SortKeys(m.Keys);
    assert forall i | 0 <= i < |keys| :: keys[i] in Elements(keys);
    entries := seq(|keys|, i requires 0 <= i < |keys| => (keys[i], m[keys[i]]));
  }

  method SerializeVersion(v: VersionKey) returns (output: Bytes)
    requires ValidVersion(v)
    ensures output == VersionBytes(v)
  {
    output := SerializeVersionHead(v);
    var entries := SortedEntries(v.metadata);
    output := AppendUint64(output, |entries|, VersionHead(v));
    output := AppendMetadata(output, entries, VersionHead(v) + [Uint64(|entries|)]);
  }

  method SerializeVersionHead(v: VersionKey) returns (output: Bytes)
    requires ValidVersion(v)
    ensures output == Concat(VersionHead(v))
  {
    ghost var pieces := Header(VERSION_MAGIC);
    output := AppendHeader(VERSION_MAGIC);
    CompactUuidIsHex(v.artifactId);
    Appended(output, pieces, UuidBytes(v.artifactId));
    output := AppendHex(output, WithoutHyphens(v.artifactId));
    pieces := pieces + [UuidBytes(v.artifactId)];
    output := AppendId(output, v.rootObjectId, pieces);
    pieces := pieces + [IdBytes(v.rootObjectId)];
    output := AppendParent(output, v.parent, pieces);
    assert pieces + ParentPieces(v.parent) == VersionHead(v);
  }

  method AppendParent(output: Bytes, parent: Option<VersionId>, ghost pieces: seq<Bytes>) returns (longer: Bytes)
    requires output == Concat(pieces) && (parent.Some? ==> IsContentId(parent.value))
    ensures longer == Concat(pieces + ParentPieces(parent))
  {
    if parent.Some? {
      Appended(output, pieces, [1]);
      longer := output + [1];
      longer := AppendId(longer, parent.value, pieces + [[1]]);
      assert pieces + [[1]] + [IdBytes(parent.value)] == pieces + ParentPieces(parent);
    } else {
      Appended(output, pieces, [0]);
      longer := output + [0];
    }
  }

  lemma MetadataPiecesNext(entries: seq<(string, string)>, n: nat)
    requires ValidMetadata(entries) && n < |entries|
    ensures MetadataPieces(entries[n..])
            == [Uint64(|entries[n].0|), StringBytes(entries[n].0), Uint64(|entries[n].1|), StringBytes(entries[n].1)] + MetadataPieces(entries[n + 1..])
  {
    assert entries[n..][1..] == entries[n + 1..];
  }

  /** Written from the front: what is on the buffer and what is still to come make up the whole. */
  method AppendMetadata(output: Bytes, entries: seq<(string, string)>, ghost pieces: seq<Bytes>) returns (longer: Bytes)
    requires output == Concat(pieces) && ValidMetadata(entries)
    ensures longer == Concat(pieces + MetadataPieces(entries))
  {
    longer := output;
    ghost var done := pieces;
    for index := 0 to |entries|
      invariant longer == Concat(done)
      invariant done + MetadataPieces(entries[index..]) == pieces + MetadataPieces(entries)
    {
      var key, value := entries[index].0, entries[index].1;
      MetadataPiecesNext(entries, index);
      longer := AppendString(longer, key, done);
      longer := AppendString(longer, value, done + [Uint64(|key|), StringBytes(key)]);
      done := done + [Uint64(|key|), StringBytes(key)] + [Uint64(|value|), StringBytes(value)];
      assert done + MetadataPieces(entries[index + 1..]) == pieces + MetadataPieces(entries);
    }
    assert done + [] == done;
  }

  method SerializeManifest(m: map<string, VersionId>) returns (output: Bytes)
    requires ValidManifest(m)
    ensures output == ManifestBytes(m)
  {
    ghost var pieces := Header(MANIFEST_MAGIC);
    output := AppendHeader(MANIFEST_MAGIC);
    var entries := SortedEntries(m);
    output := AppendUint64(output, |entries|, pieces);
    pieces := pieces + [Uint64(|entries|)];
    output := AppendEntries(output, entries, pieces);
    assert pieces + EntryPieces(entries) == ManifestPieces(m);
  }

  lemma EntryPiecesNext(entries: seq<(string, string)>, n: nat)
    requires ValidEntries(entries) && n < |entries|
    ensures EntryPieces(entries[n..])
            == [Uint64(|entries[n].0|), StringBytes(entries[n].0), IdBytes(entries[n].1)] + EntryPieces(entries[n + 1..])
  {
    assert entries[n..][1..] == entries[n + 1..];
  }

  method AppendEntries(output: Bytes, entries: seq<(string, string)>, ghost pieces: seq<Bytes>) returns (longer: Bytes)
    requires output == Concat(pieces) && ValidEntries(entries)
    ensures longer == Concat(pieces + EntryPieces(entries))
  {
    longer := output;
    ghost var done := pieces;
    for index := 0 to |entries|
      invariant longer == Concat(done)
      invariant done + EntryPieces(entries[index..]) == pieces + EntryPieces(entries)
    {
      var role, id := entries[index].0, entries[index].1;
      EntryPiecesNext(entries, index);
      longer := AppendString(longer, role, done);
      longer := AppendId(longer, id, done + [Uint64(|role|), StringBytes(role)]);
      done := done + [Uint64(|role|), StringBytes(role)] + [IdBytes(id)];
      assert done + EntryPieces(entries[index + 1..]) == pieces + EntryPieces(entries);
    }
    assert done + [] == done;
  }
}
