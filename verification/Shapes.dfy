/** Which descriptors pass the size checks of finalization: those whose chunk sizes are the sizes of some input
    as the session's chunker splits it. */
module Shapes {
  import opened Common
  import opened Arithmetic
  import opened ObjectLayouts
  import opened Chunking
  import opened FastCdc
  import opened Tables
  import FixedSizeChunkers
  import Ordering
  import PushPlan

  ghost predicate HasSizes(chunks: seq<Bytes>, refs: seq<ChunkRef>) {
    |chunks| == |refs| && forall i | 0 <= i < |refs| :: |chunks[i]| == refs[i].size
  }

  lemma {:induction false} SameTotal(chunks: seq<Bytes>, refs: seq<ChunkRef>, i: nat)
    requires HasSizes(chunks, refs) && i <= |refs|
    ensures |Concat(chunks[..i])| == Offset(refs, i)
  {
    if i > 0 {
      SameTotal(chunks, refs, i - 1);
      assert chunks[..i][..i - 1] == chunks[..i - 1];
    }
  }

  // ---------------------------------------------------------------------------------------------
  // Chunks of a fixed size
  // ---------------------------------------------------------------------------------------------

  /** The bytes of the first `n` chunks. */
  lemma {:induction false} Slices(data: Bytes, refs: seq<ChunkRef>, n: nat) returns (slices: seq<Bytes>)
    requires n <= |refs| && Offset(refs, n) <= |data|
    ensures |slices| == n
    ensures forall i | 0 <= i < n :: |slices[i]| == refs[i].size
    ensures Concat(slices) == data[..Offset(refs, n)]
  {
    if n == 0 {
      return [];
    }
    var from, to := Offset(refs, n - 1), Offset(refs, n);
    var before := Slices(data, refs, n - 1);
    ConcatAppend(before, data[from..to]);
    NextSlice(data, from, to);
    slices := before + [data[from..to]];
  }

  lemma NextSlice(data: Bytes, from: nat, to: nat)
    requires from <= to <= |data|
    ensures data[..from] + data[from..to] == data[..to]
  {
  }

  lemma FullSlices(n: nat, chunks: seq<Bytes>, rest: Bytes)
    requires n > 0 && (forall i | 0 <= i < |chunks| :: |chunks[i]| == n) && |rest| < n
    ensures Scan(FixedSizeChunkers.FullAt(n), START, Concat(chunks) + rest) == ScanState(chunks, rest)
  {
    var cut := FixedSizeChunkers.FullAt(n);
    forall i | 0 <= i < |chunks|
      ensures CutExactly(cut, chunks[i])
    {
    }
    SplitUnique(cut, START, chunks, rest);
    assert [] + chunks == chunks;
  }

  lemma SplitOfFull(n: nat, slices: seq<Bytes>)
    requires n > 0 && slices != [] && (forall i | 0 <= i < |slices| - 1 :: |slices[i]| == n)
    requires 0 < |slices[|slices| - 1]| <= n
    ensures Split(FixedSizeChunkers.FullAt(n), Concat(slices)) == slices
  {
    hide Scan;
    var full, rest := slices[..|slices| - 1], slices[|slices| - 1];
    if |rest| == n {
      FullSlices(n, slices, []);
      assert Concat(slices) + [] == Concat(slices);
    } else {
      FullSlices(n, full, rest);
      assert Concat(slices) == Concat(full) + rest;
      assert full + [rest] == slices;
    }
  }

  lemma SplitOfSlices(n: nat, d: Descriptor, data: Bytes)
    requires n > 0 && |data| == TotalSize(d.chunks) && ShapeMatches(FixedChunks(n), d)
    ensures HasSizes(Split(FixedSizeChunkers.FullAt(n), data), d.chunks)
  {
    hide Split;
    if d.chunks == [] {
      EmptySplit(FixedSizeChunkers.FullAt(n));
    } else {
      var slices := Slices(data, d.chunks, |d.chunks|);
      SplitOfFull(n, slices);
      assert Concat(slices) == data;
    }
  }

  lemma EmptySplit(cut: CutRule)
    ensures Split(cut, []) == []
  {
  }

  /** For a fixed chunk size: the sizes of any input of the object's length. */
  lemma FixedShapeMeans(n: nat, d: Descriptor, data: Bytes)
    requires n > 0 && |data| == TotalSize(d.chunks)
    ensures ShapeMatches(FixedChunks(n), d) <==>
              d.strategy.FixedSize? && HasSizes(Split(FixedSizeChunkers.FullAt(n), data), d.chunks)
  {
    if ShapeMatches(FixedChunks(n), d) {
      SplitOfSlices(n, d, data);
    }
    var someGear: FastCdc.GearTable := seq(256, _ => 0);
    PushPlan.SplitSizes(someGear, FixedChunks(n), data);
  }

  // ---------------------------------------------------------------------------------------------
  // Chunks cut by content
  // ---------------------------------------------------------------------------------------------

  // With the table that holds 2 for the byte 1, and 1 for every other byte, a chunk ends at each byte 1.

  const MARKING_GEAR: GearTable := seq(256, byte => if byte == 1 then 2 else 1)

  function Zeros(n: nat): (zeros: Bytes)
    ensures |zeros| == n
  {
    seq(n, _ => 0)
  }

  lemma {:induction false} SumOfZeros(n: nat)
    ensures GearSum(MARKING_GEAR, Zeros(n)) == Pow2(n) - 1
  {
    if n > 0 {
      SumOfZeros(n - 1);
      assert Zeros(n)[1..] == Zeros(n - 1);
    }
  }

  lemma SumOfMarked(n: nat)
    ensures GearSum(MARKING_GEAR, Zeros(n) + [1]) == Pow2(n + 1)
  {
    var mark: Bytes := [1];
    SumOfZeros(n);
    GearSumConcat(MARKING_GEAR, Zeros(n), mark);
    assert mark[1..] == [] && Pow2(0) == 1 && Pow2(1) == 2;
  }

  lemma PowersDivide(n: nat, m: nat)
    requires m <= n
    ensures Pow2(n) % Pow2(m) == 0
    ensures 1 <= m ==> (Pow2(n) - 1) % Pow2(m) != 0
  {
    Pow2Add(m, n - m);
    RemainderUnique(Pow2(n), Pow2(n - m), 0, Pow2(m));
    if 1 <= m {
      assert Pow2(m) >= 2;
      MulDistributes(Pow2(m), Pow2(n - m), 1);
      RemainderUnique(Pow2(n) - 1, Pow2(n - m) - 1, Pow2(m) - 1, Pow2(m));
    }
  }

  lemma ZerosAreUncut(p: FastCdcParameters, k: nat, n: nat)
    requires 6 <= k <= 23 && n >= 64
    ensures !EndsInZeros(p, MARKING_GEAR, k, Zeros(n))
    ensures EndsInZeros(p, MARKING_GEAR, k, Zeros(n - 1) + [1])
  {
    SumOfZeros(n);
    SumOfMarked(n - 1);
    PowersDivide(n, k + 1);
    PowersDivide(n, k - 1);
  }

  lemma MarkedIsCut(p: FastCdcParameters, k: nat, n: nat)
    requires 6 <= k <= 23 && 64 <= p.min <= n <= p.max
    ensures FirstCut(p, MARKING_GEAR, k, Zeros(n - 1) + [1])
  {
    hide EndsInZeros;
    var chunk := Zeros(n - 1) + [1];
    ZerosAreUncut(p, k, n);
    forall i | p.min <= i < n
      ensures !EndsInZeros(p, MARKING_GEAR, k, chunk[..i])
    {
      assert chunk[..i] == Zeros(i);
      ZerosAreUncut(p, k, i);
    }
  }

  lemma ZerosAreRest(p: FastCdcParameters, k: nat, n: nat)
    requires 6 <= k <= 23 && 64 <= p.min && n < p.max
    ensures NoCutYet(p, MARKING_GEAR, k, Zeros(n))
  {
    hide EndsInZeros;
    forall i | p.min <= i <= n
      ensures !EndsInZeros(p, MARKING_GEAR, k, Zeros(n)[..i])
    {
      assert Zeros(n)[..i] == Zeros(i);
      ZerosAreUncut(p, k, i);
    }
  }

  /** A chunk of each of the sizes, with a mark at its end. */
  function MarkedChunks(refs: seq<ChunkRef>): (chunks: seq<Bytes>)
    requires forall i | 0 <= i < |refs| :: refs[i].size > 0
    ensures |chunks| == |refs|
    ensures forall i | 0 <= i < |refs| :: chunks[i] == Zeros(refs[i].size - 1) + [1]
  {
    seq(|refs|, i requires 0 <= i < |refs| => Zeros(refs[i].size - 1) + [1])
  }

  lemma MarkedDivision(p: FastCdcParameters, refs: seq<ChunkRef>, rest: nat)
    requires ValidParameters(p) && (forall i | 0 <= i < |refs| :: p.min <= refs[i].size <= p.max) && rest < p.max
    ensures p.min > 0
    ensures var chunks := MarkedChunks(refs);
            Scan(Cut(p, MARKING_GEAR), START, Concat(chunks) + Zeros(rest)) == ScanState(chunks, Zeros(rest))
  {
    hide Cut, FirstCut, NoCutYet, PowerOfTwo;
    ParametersMean(p);
    var k: nat :| Pow2(k) == p.avg;
    var chunks := MarkedChunks(refs);
    forall i | 0 <= i < |chunks|
      ensures FirstCut(p, MARKING_GEAR, k, chunks[i])
    {
      MarkedIsCut(p, k, refs[i].size);
    }
    ZerosAreRest(p, k, rest);
    FastCdcDivision(p, MARKING_GEAR, k, Concat(chunks) + Zeros(rest), chunks, Zeros(rest));
  }

  lemma InputOfShape(p: FastCdcParameters, d: Descriptor) returns (data: Bytes)
    requires ValidParameters(p) && ShapeMatches(CdcChunks(p), d) && d.chunks != []
    ensures HasSizes(Split(Cut(p, MARKING_GEAR), data), d.chunks)
  {
    hide Cut, PowerOfTwo, Scan;
    var n := |d.chunks| - 1;
    var final := d.chunks[n].size;
    if final == p.max {
      var chunks := MarkedChunks(d.chunks);
      MarkedDivision(p, d.chunks, 0);
      data := Concat(chunks) + Zeros(0);
    } else {
      var chunks := MarkedChunks(d.chunks[..n]);
      MarkedDivision(p, d.chunks[..n], final);
      data := Concat(chunks) + Zeros(final);
    }
  }

  /** For FastCDC: the sizes of some input, with some gear table. */
  lemma CdcShapeMeans(p: FastCdcParameters, d: Descriptor)
    requires ValidParameters(p) && d.chunks != []
    ensures ShapeMatches(CdcChunks(p), d) <==>
              && d.strategy == ObjectLayouts.FastCdc(p)
              && exists gear: GearTable, data: Bytes :: HasSizes(Split(Cut(p, gear), data), d.chunks)
  {
    if ShapeMatches(CdcChunks(p), d) {
      var data := InputOfShape(p, d);
    }
    forall gear: GearTable, data: Bytes
      ensures SizesFit(p, Split(Cut(p, gear), data))
    {
      PushPlan.SplitSizes(gear, CdcChunks(p), data);
    }
  }

  ghost predicate SizesFit(p: FastCdcParameters, chunks: seq<Bytes>) {
    forall i | 0 <= i < |chunks| :: 0 < |chunks[i]| <= p.max && (i < |chunks| - 1 ==> p.min <= |chunks[i]|)
  }

  // ---------------------------------------------------------------------------------------------
  // Finalization
  // ---------------------------------------------------------------------------------------------

  /** Some input is split into chunks of these sizes by the chunker that the session asks for. */
  ghost predicate Producible(chunking: SessionChunking, d: Descriptor) {
    && d.strategy == StrategyOf(chunking)
    && exists gear: GearTable, data: Bytes :: HasSizes(Split(PushPlan.RuleOf(chunking, gear), data), d.chunks)
  }

  /** The size checks let through exactly what the session's chunker could have produced, but for an empty
      layout the FastCDC parameters are not compared. */
  lemma ShapeMeans(chunking: SessionChunking, d: Descriptor)
    requires PushPlan.ValidChunking(chunking)
    ensures ShapeMatches(chunking, d) <==>
              Producible(chunking, d) || (d.chunks == [] && chunking.CdcChunks? && d.strategy.FastCdc?)
  {
    hide ShapeMatches, HasSizes, Split, FastCdc.Cut, ValidParameters;
    match chunking {
      case FixedChunks(n) => FixedIsProducible(n, d);
      case CdcChunks(p) =>
        if d.chunks == [] {
          EmptyShape(p, d);
        } else {
          CdcShapeMeans(p, d);
          assert forall gear :: PushPlan.RuleOf(chunking, gear) == Cut(p, gear);
        }
    }
  }

  lemma EmptyShape(p: FastCdcParameters, d: Descriptor)
    requires d.chunks == []
    ensures ShapeMatches(CdcChunks(p), d) <==> d.strategy.FastCdc?
  {
  }

  lemma FixedIsProducible(n: nat, d: Descriptor)
    requires n > 0
    ensures ShapeMatches(FixedChunks(n), d) <==> Producible(FixedChunks(n), d)
  {
    hide ShapeMatches;
    if ShapeMatches(FixedChunks(n), d) {
      FixedShapeMeans(n, d, Zeros(TotalSize(d.chunks)));
      var rule := PushPlan.RuleOf(FixedChunks(n), MARKING_GEAR);
      assert HasSizes(Split(rule, Zeros(TotalSize(d.chunks))), d.chunks);
    }
    if Producible(FixedChunks(n), d) {
      var gear: GearTable, data: Bytes :| HasSizes(Split(PushPlan.RuleOf(FixedChunks(n), gear), data), d.chunks);
      SplitLength(FixedSizeChunkers.FullAt(n), data, d.chunks);
      FixedShapeMeans(n, d, data);
    }
  }

  lemma SplitLength(cut: CutRule, data: Bytes, refs: seq<ChunkRef>)
    requires HasSizes(Split(cut, data), refs)
    ensures |data| == TotalSize(refs)
  {
    var chunks := Split(cut, data);
    SplitPartitions(cut, data);
    SameTotal(chunks, refs, |refs|);
    assert chunks[..|refs|] == chunks;
  }

  /** An open session refuses a descriptor as an invalid argument if and only if its chunker could not have
      produced it. */
  lemma RefusedShapes(db: Db, sessionId: SessionId, d: Descriptor, now: real)
    requires sessionId in db.sessions && db.sessions[sessionId].state.Open?
    requires PushPlan.ValidChunking(db.sessions[sessionId].chunking)
    requires db.hashing.versionId(KeyOf(db.sessions[sessionId], d)) !in db.retired
    ensures var chunking := db.sessions[sessionId].chunking;
            FinalizeUpload(db, sessionId, d, now).result == Err(InvalidArgument) <==>
              !Producible(chunking, d) && !(d.chunks == [] && chunking.CdcChunks? && d.strategy.FastCdc?)
  {
    hide Producible;
    ShapeMeans(db.sessions[sessionId].chunking, d);
    RefusalIsNoArgument(db, db.sessions[sessionId], d, Ordering.Enumeration(ChunkIds(d)));
  }

  lemma {:induction false} RefusalIsNoArgument(db: Db, s: UploadSession, d: Descriptor, ids: seq<ChunkId>)
    ensures FirstRefusal(db, s, d, ids) != Some(InvalidArgument)
  {
    if ids != [] {
      RefusalIsNoArgument(db, s, d, ids[1..]);
    }
  }
}
