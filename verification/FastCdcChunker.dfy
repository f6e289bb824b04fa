/** The stateful FastCDC chunker and its gear table, proved against module FastCdc. */
module FastCdcChunkers {
  import opened Arithmetic
  import opened Common
  import opened ObjectLayouts
  import opened Chunking
  import opened FastCdc

  const GEAR_SEED := 0xA15C_0DE5_A15C_0DE5 as bv64

  function SplitMix64(value: bv64): bv64 {
    var a := value + 0x9E37_79B9_7F4A_7C15;
    var b := (a ^ (a >> 30)) * 0xBF58_476D_1CE4_E5B9;
    var c := (b ^ (b >> 27)) * 0x94D0_49BB_1331_11EB;
    c ^ (c >> 31)
  }

  function GearState(step: nat): bv64 {
    if step == 0 then GEAR_SEED else SplitMix64(GearState(step - 1))
  }

  /** The table entry of a byte: one more step of the generator per entry. */
  function StandardGear(byte: Byte): Hash {
    GearState(byte + 1) as nat
  }

  const STANDARD_GEAR: GearTable := seq(256, (byte: nat) => if byte < 256 then StandardGear(byte) else 0)

  method MakeGearTable() returns (table: GearTable)
    ensures table == STANDARD_GEAR
  {
    var entries: seq<Hash> := [];
    var state := GEAR_SEED;
    for entry := 0 to 256
      invariant |entries| == entry && state == GearState(entry)
      invariant forall byte: Byte | byte < entry :: entries[byte] == StandardGear(byte)
    {
      state := SplitMix64(state);
      entries := entries + [state as nat];
    }
    TableIsStandard(entries);
    table := entries;
  }

  lemma TableIsStandard(entries: seq<Hash>)
    requires |entries| == 256 && forall byte: Byte :: entries[byte] == StandardGear(byte)
    ensures entries == STANDARD_GEAR
  {
  }

  datatype ChunkBuffer = ChunkBuffer(offset: nat, bytes: Bytes)

  function BytesOf(delivered: seq<ChunkBuffer>): (chunks: seq<Bytes>)
    ensures |chunks| == |delivered|
    ensures forall i | 0 <= i < |chunks| :: chunks[i] == delivered[i].bytes
  {
    seq(|delivered|, (i: nat) requires i < |delivered| => delivered[i].bytes)
  }

  /** Each chunk is delivered with the number of bytes before it. */
  ghost predicate OffsetsMatch(delivered: seq<ChunkBuffer>) {
    forall i | 0 <= i < |delivered| :: delivered[i].offset == |Concat(BytesOf(delivered)[..i])|
  }

  lemma DeliverKeepsOffsets(delivered: seq<ChunkBuffer>, bytes: Bytes)
    requires OffsetsMatch(delivered)
    ensures var after := delivered + [ChunkBuffer(|Concat(BytesOf(delivered))|, bytes)];
            && OffsetsMatch(after)
            && BytesOf(after) == BytesOf(delivered) + [bytes]
            && Concat(BytesOf(after)) == Concat(BytesOf(delivered)) + bytes
  {
    var after := delivered + [ChunkBuffer(|Concat(BytesOf(delivered))|, bytes)];
    assert BytesOf(after) == BytesOf(delivered) + [bytes];
    ConcatAppend(BytesOf(delivered), bytes);
    forall i | 0 <= i < |after|
      ensures after[i].offset == |Concat(BytesOf(after)[..i])|
    {
      assert BytesOf(after)[..i] == BytesOf(delivered)[..i];
      assert BytesOf(delivered)[..|delivered|] == BytesOf(delivered);
    }
  }

  /** The decision made after every byte: below the minimum size never, from the maximum size on always, and
      in between if the hash ends in enough zeros. */
  method ProcessBufferedBytes(p: FastCdcParameters, bufferedSize: nat, gearHash: Hash) returns (cutHere: bool)
    requires ValidParameters(p)
    ensures cutHere == Decide(p, bufferedSize, gearHash)
    ensures forall k: nat | Pow2(k) == p.avg ::
              && k >= 1
              && (cutHere <==>
                    && bufferedSize >= p.min
                    && (bufferedSize < p.avg ==> gearHash % Pow2(k + 1) == 0)
                    && (p.avg <= bufferedSize < p.max ==> gearHash % Pow2(k - 1) == 0))
  {
    hide PowerOfTwo;
    ParametersMean(p);
    LogOfPowerOfTwo(p.avg);
    if bufferedSize < p.min {
      return false;
    }
    if bufferedSize >= p.max {
      return true;
    }
    var bits := CountTrailingZeros(p.avg);
    if bufferedSize < p.avg {
      return LowBitsClear(gearHash, bits + 1);
    }
    return LowBitsClear(gearHash, if bits == 0 then 0 else bits - 1);
  }

  class FastCdcChunker {
    const parameters: FastCdcParameters
    const gear: GearTable

    var buffer: Bytes
    var gearHash: Hash
    var nextChunkOffset: nat
    var finalized: bool

    /** Everything the consumer has been given. */
    var delivered: seq<ChunkBuffer>

    ghost predicate Valid()
      reads this
    {
      && ValidParameters(parameters)
      && gearHash == GearHash(gear, buffer)
      && nextChunkOffset == |Concat(BytesOf(delivered))|
      && OffsetsMatch(delivered)
    }

    ghost function State(): ScanState
      reads this
    {
      ScanState(BytesOf(delivered), buffer)
    }

    constructor (parameters: FastCdcParameters, gear: GearTable)
      requires ValidParameters(parameters)
      ensures Valid() && State() == START && !finalized
      ensures this.parameters == parameters && this.gear == gear
    {
      this.parameters, this.gear := parameters, gear;
      buffer, gearHash, nextChunkOffset, finalized, delivered := [], 0, 0, false, [];
    }

    /** The checks of the constructor, in their order. */
    static method ValidateParameters(p: FastCdcParameters) returns (error: Option<string>)
      ensures error.None? <==> ValidParameters(p)
    {
      if p.min < MINIMUM_ALLOWED {
        return Some("FastCDC min chunk size must be at least 64 bytes");
      }
      if p.avg < MINIMUM_ALLOWED {
        return Some("FastCDC avg chunk size must be at least 64 bytes");
      }
      if !PowerOfTwo(p.avg) {
        return Some("FastCDC avg chunk size must be a power of two");
      }
      if p.min > p.avg {
        return Some("FastCDC min chunk size must be <= avg chunk size");
      }
      if p.avg > p.max {
        return Some("FastCDC avg chunk size must be <= max chunk size");
      }
      if p.max > MAXIMUM_ALLOWED {
        return Some("FastCDC max chunk size must be <= 8 MiB");
      }
      return None;
    }

    /** A chunker as the program constructs it: parameters checked, standard gear table. */
    static method Create(p: FastCdcParameters) returns (result: Result<FastCdcChunker, string>)
      ensures result.Ok? <==> ValidParameters(p)
      ensures result.Ok? ==>
                && fresh(result.value) && result.value.Valid() && !result.value.finalized
                && result.value.State() == START
                && result.value.parameters == p && result.value.gear == STANDARD_GEAR
    {
      var error := ValidateParameters(p);
      if error.Some? {
        return Err(error.value);
      }
      var gear := MakeGearTable();
      var chunker := new FastCdcChunker(p, gear);
      return Ok(chunker);
    }

    method Update(data: Bytes) returns (accepted: bool)
      requires Valid()
      modifies this
      ensures Valid() && finalized == old(finalized) && accepted == !finalized
      ensures State() == if accepted then Scan(Cut(parameters, gear), old(State()), data) else old(State())
    {
      if finalized {
        return false;
      }
      for index := 0 to |data|
        invariant Valid() && !finalized
        invariant State() == Scan(Cut(parameters, gear), old(State()), data[..index])
      {
        assert data[..index + 1][..index] == data[..index];
        PushByte(data[index]);
      }
      assert data[..|data|] == data;
      return true;
    }

    method PushByte(byte: Byte)
      requires Valid()
      modifies this
      ensures Valid() && finalized == old(finalized)
      ensures State() == Feed(Cut(parameters, gear), old(State()), byte)
    {
      assert (buffer + [byte])[..|buffer|] == buffer;
      buffer := buffer + [byte];
      gearHash := (2 * gearHash + gear[byte]) % WORD;
      var cutHere := ProcessBufferedBytes(parameters, |buffer|, gearHash);
      if cutHere {
        EmitCurrentChunk();
      }
    }

    method EmitCurrentChunk()
      requires Valid()
      modifies this
      ensures Valid() && finalized == old(finalized)
      ensures State() == ScanState(old(State()).chunks + [old(buffer)], [])
    {
      var chunk := ChunkBuffer(nextChunkOffset, buffer);
      DeliverKeepsOffsets(delivered, buffer);
      buffer := [];
      gearHash := 0;
      nextChunkOffset := nextChunkOffset + |chunk.bytes|;
      delivered := delivered + [chunk];
    }

    method Finalize() returns (accepted: bool)
      requires Valid()
      modifies this
      ensures Valid() && finalized && accepted == !old(finalized)
      ensures accepted ==> State() == ScanState(AllChunks(old(State())), [])
      ensures !accepted ==> State() == old(State())
    {
      if finalized {
        return false;
      }
      if buffer != [] {
        EmitCurrentChunk();
      }
      finalized := true;
      return true;
    }
  }
}
