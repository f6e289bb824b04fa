/** The FastCDC chunker (src/chunking/fastcdc_chunker.cpp). `std::uint64_t` arithmetic is written
    out modulo 2^64, and a test `(hash & (2^k - 1)) == 0` as `hash % 2^k == 0`. */
module FastCdc {
  import opened Arithmetic
  import opened Common
  import opened ObjectLayouts
  import opened Chunking

  const WORD := 0x1_0000_0000_0000_0000
  type Hash = h: nat | h < WORD
  type GearTable = table: seq<Hash> | |table| == 256 witness seq(256, _ => 0)

  const MINIMUM_ALLOWED := 64
  const MAXIMUM_ALLOWED := 8 * 1024 * 1024

  predicate PowerOfTwo(n: nat) {
    n == 1 || (n > 0 && n % 2 == 0 && PowerOfTwo(n / 2))
  }

  /** The number of trailing zero bits. */
  function CountTrailingZeros(n: nat): nat {
    if n == 0 || n % 2 == 1 then 0 else 1 + CountTrailingZeros(n / 2)
  }

  predicate ValidParameters(p: FastCdcParameters) {
    && MINIMUM_ALLOWED <= p.min <= p.avg <= p.max <= MAXIMUM_ALLOWED
    && PowerOfTwo(p.avg)
  }

  /** `compute_mask_s` and `compute_mask_l` keep one bit more and one bit less than log2(avg). */
  function MaskBits(p: FastCdcParameters, size: nat): nat {
    var bits := CountTrailingZeros(p.avg);
    if size < p.avg then bits + 1 else if bits == 0 then 0 else bits - 1
  }

  /** One step of the rolling hash: `(hash << 1) + table[byte]`. */
  function Roll(gear: GearTable, hash: Hash, byte: Byte): Hash {
    (2 * hash + gear[byte]) % WORD
  }

  function GearHash(gear: GearTable, buffer: Bytes): Hash {
    if buffer == [] then 0 else Roll(gear, GearHash(gear, buffer[..|buffer| - 1]), buffer[|buffer| - 1])
  }

  /** `(hash & (2^bits - 1)) == 0` */
  predicate LowBitsClear(hash: Hash, bits: nat) {
    hash % Pow2(bits) == 0
  }

  predicate Decide(p: FastCdcParameters, size: nat, hash: Hash) {
    && size >= p.min
    && (size >= p.max || LowBitsClear(hash, MaskBits(p, size)))
  }

  function Cut(p: FastCdcParameters, gear: GearTable): CutRule {
    buffer => Decide(p, |buffer|, GearHash(gear, buffer))
  }

  // ---------------------------------------------------------------------------------------------
  // The gear hash
  // ---------------------------------------------------------------------------------------------

  /** Each byte's table value, shifted by its distance from the end. */
  function GearSum(gear: GearTable, buffer: Bytes): nat {
    if buffer == [] then 0 else gear[buffer[0]] * Pow2(|buffer| - 1) + GearSum(gear, buffer[1..])
  }

  lemma {:induction false} GearSumConcat(gear: GearTable, a: Bytes, b: Bytes)
    ensures GearSum(gear, a + b) == GearSum(gear, a) * Pow2(|b|) + GearSum(gear, b)
  {
    if a == [] {
      assert a + b == b;
    } else {
      GearSumConcat(gear, a[1..], b);
      assert (a + b)[1..] == a[1..] + b;
      Pow2Add(|a| - 1, |b|);
      FactorOut(gear[a[0]], Pow2(|a| - 1), Pow2(|b|), GearSum(gear, a[1..]));
    }
  }

  lemma FactorOut(g: int, p: int, q: int, rest: int)
    ensures g * (p * q) + rest * q == (g * p + rest) * q
  {
    MulAssociates(g, p, q);
    MulDistributes(q, g * p, rest);
  }

  /** The rolling hash is the sum of the table values shifted by their distance, modulo 2^64. */
  lemma {:induction false} GearHashIsSum(gear: GearTable, buffer: Bytes)
    ensures GearHash(gear, buffer) == GearSum(gear, buffer) % WORD
  {
    if buffer != [] {
      var front, last := buffer[..|buffer| - 1], buffer[|buffer| - 1];
      GearHashIsSum(gear, front);
      GearSumConcat(gear, front, [last]);
      assert front + [last] == buffer;
      assert GearSum(gear, [last]) == gear[last] by {
        assert [last][1..] == [];
        assert Pow2(0) == 1;
      }
      assert Pow2(1) == 2 by {
        assert Pow2(0) == 1;
      }
      RollModulo(GearSum(gear, front), gear[last]);
    }
  }

  lemma RollModulo(sum: nat, t: nat)
    ensures (2 * (sum % WORD) + t) % WORD == (sum * 2 + t) % WORD
  {
    var q, r := sum / WORD, sum % WORD;
    assert sum * 2 + t == (2 * r + t) + WORD * (2 * q);
    RemainderPlusMultiple(2 * r + t, 2 * q, WORD);
  }

  /** The lowest bits of the 64-bit hash are those of the unbounded sum. */
  lemma LowBitsOfHash(gear: GearTable, buffer: Bytes, bits: nat)
    requires bits <= 64
    ensures GearHash(gear, buffer) % Pow2(bits) == GearSum(gear, buffer) % Pow2(bits)
  {
    GearHashIsSum(gear, buffer);
    Pow2Add(bits, 64 - bits);
    WordIsPow2();
    RemainderOfRemainder(GearSum(gear, buffer), Pow2(bits), Pow2(64 - bits));
  }

  lemma WordIsPow2()
    ensures Pow2(64) == WORD
  {
    assert Pow2(8) == 256;
    Pow2Add(8, 8);
    Pow2Add(16, 16);
    Pow2Add(32, 32);
  }

  /** Locality of the hash: its lowest k bits depend on the last k bytes alone. */
  lemma LowBitsAreLocal(gear: GearTable, a: Bytes, b: Bytes, window: Bytes, bits: nat)
    requires bits <= 64 && bits <= |window|
    ensures GearHash(gear, a + window) % Pow2(bits) == GearHash(gear, b + window) % Pow2(bits)
  {
    LowBitsOfHash(gear, a + window, bits);
    LowBitsOfHash(gear, b + window, bits);
    DistantBytesVanish(gear, a, window, bits);
    DistantBytesVanish(gear, b, window, bits);
  }

  lemma DistantBytesVanish(gear: GearTable, a: Bytes, window: Bytes, bits: nat)
    requires bits <= |window|
    ensures GearSum(gear, a + window) % Pow2(bits) == GearSum(gear, window) % Pow2(bits)
  {
    GearSumConcat(gear, a, window);
    Pow2Add(bits, |window| - bits);
    RemainderPlusScaled(GearSum(gear, window), GearSum(gear, a), Pow2(bits), Pow2(|window| - bits));
  }

  lemma RemainderPlusScaled(x: nat, k: nat, d: nat, e: nat)
    requires d > 0
    ensures (k * (d * e) + x) % d == x % d
  {
    MulAssociates(k, d, e);
    MulAssociates(d, k, e);
    RemainderPlusMultiple(x, k * e, d);
  }

  // ---------------------------------------------------------------------------------------------
  // Cut decisions
  // ---------------------------------------------------------------------------------------------

  lemma {:induction false} TrailingZerosBound(n: nat, k: nat)
    requires 0 < n < Pow2(k)
    ensures CountTrailingZeros(n) < k
  {
    if k > 0 && n % 2 == 0 {
      TrailingZerosBound(n / 2, k - 1);
    }
  }

  /** With valid parameters a mask never has more than 24 bits. */
  lemma MaskBitsBound(p: FastCdcParameters, size: nat)
    requires ValidParameters(p)
    ensures MaskBits(p, size) <= 24
  {
    Pow2Add(8, 8);
    Pow2Add(16, 8);
    assert Pow2(8) == 256;
    TrailingZerosBound(p.avg, 24);
  }

  /** The locality theorem: a cut decision depends only on the number of buffered bytes and on the
      last log2(avg) + 1 of them, all of which are in the buffer. */
  lemma CutDecisionIsLocal(p: FastCdcParameters, gear: GearTable, a: Bytes, b: Bytes, window: Bytes)
    requires ValidParameters(p)
    requires |a| == |b| && |window| >= CountTrailingZeros(p.avg) + 1
    ensures Cut(p, gear)(a + window) == Cut(p, gear)(b + window)
    ensures |a + window| >= p.min ==> |a + window| >= CountTrailingZeros(p.avg) + 1
  {
    var bits := MaskBits(p, |a + window|);
    MaskBitsBound(p, |a + window|);
    MaskBitsBound(p, 0);
    LowBitsAreLocal(gear, a, b, window, bits);
  }

  /** In the range where the large mask applies, even the number of buffered bytes does not matter. */
  lemma CutIgnoresHistory(p: FastCdcParameters, gear: GearTable, a: Bytes, b: Bytes, window: Bytes)
    requires ValidParameters(p)
    requires p.avg <= |a + window| < p.max && p.avg <= |b + window| < p.max
    requires |window| >= CountTrailingZeros(p.avg) - 1
    ensures Cut(p, gear)(a + window) == Cut(p, gear)(b + window)
  {
    var bits := MaskBits(p, |a + window|);
    MaskBitsBound(p, |a + window|);
    LowBitsAreLocal(gear, a, b, window, bits);
  }

  /** Both buffers have reached the average size, stay below the maximum size while `data` is read,
      and agree on their last log2(avg) - 1 bytes. */
  ghost predicate SharedWindow(p: FastCdcParameters, a: Bytes, b: Bytes, window: Bytes, data: Bytes) {
    && p.avg <= |a| + |window| && p.avg <= |b| + |window|
    && |a| + |window| + |data| < p.max && |b| + |window| + |data| < p.max
    && |window| >= CountTrailingZeros(p.avg) - 1
  }

  /** Re-synchronization after a local edit: once two chunkers share a window, they emit their next
      chunk at the same byte of `data`, if at all, ... */
  lemma {:induction false} CutTogether(p: FastCdcParameters, gear: GearTable, a: Bytes, b: Bytes, window: Bytes,
                                       data: Bytes)
    requires ValidParameters(p) && SharedWindow(p, a, b, window, data)
    requires Scan(Cut(p, gear), ScanState([], a + window), data).chunks == []
    ensures Scan(Cut(p, gear), ScanState([], a + window), data) == ScanState([], a + (window + data))
    ensures Scan(Cut(p, gear), ScanState([], b + window), data) == ScanState([], b + (window + data))
  {
    forall n | 0 < n <= |data|
      ensures Cut(p, gear)(a + (window + data[..n])) == Cut(p, gear)(b + (window + data[..n]))
    {
      CutIgnoresHistory(p, gear, a, b, window + data[..n]);
    }
    SameDecisions(Cut(p, gear), a, b, window, data);
  }

  lemma {:induction false} SameDecisions(cut: CutRule, a: Bytes, b: Bytes, window: Bytes, data: Bytes)
    requires forall n | 0 < n <= |data| :: cut(a + (window + data[..n])) == cut(b + (window + data[..n]))
    requires Scan(cut, ScanState([], a + window), data).chunks == []
    ensures Scan(cut, ScanState([], a + window), data) == ScanState([], a + (window + data))
    ensures Scan(cut, ScanState([], b + window), data) == ScanState([], b + (window + data))
  {
    if data == [] {
      assert window + [] == window;
    } else {
      var front, last := data[..|data| - 1], data[|data| - 1];
      assert forall n | 0 < n <= |front| :: front[..n] == data[..n];
      SameDecisions(cut, a, b, window, front);
      assert data[..|data|] == data;
      assert a + (window + front) + [last] == a + (window + data);
      assert b + (window + front) + [last] == b + (window + data);
    }
  }

  /** ... and from there on every chunk is the same. */
  lemma ResynchronizesAfterEdit(p: FastCdcParameters, gear: GearTable, a: Bytes, b: Bytes, window: Bytes,
                                data: Bytes, byte: Byte, later: Bytes)
    requires ValidParameters(p) && SharedWindow(p, a, b, window, data + [byte])
    requires Scan(Cut(p, gear), ScanState([], a + window), data).chunks == []
    requires Scan(Cut(p, gear), ScanState([], a + window), data + [byte]).chunks != []
    ensures var cut := Cut(p, gear);
            var rest := Scan(cut, START, later);
            var read := window + data + [byte];
            && Scan(cut, ScanState([], a + window), data + [byte] + later) == ScanState([a + read] + rest.chunks, rest.buffer)
            && Scan(cut, ScanState([], b + window), data + [byte] + later) == ScanState([b + read] + rest.chunks, rest.buffer)
  {
    var cut := Cut(p, gear);
    var read := window + data + [byte];
    CutTogether(p, gear, a, b, window, data);
    CutIgnoresHistory(p, gear, a, b, read);
    CutNow(cut, a, window, data, byte, later);
    CutNow(cut, b, window, data, byte, later);
  }

  lemma CutNow(cut: CutRule, a: Bytes, window: Bytes, data: Bytes, byte: Byte, later: Bytes)
    requires Scan(cut, ScanState([], a + window), data) == ScanState([], a + (window + data))
    ensures var read := window + data + [byte];
            var rest := Scan(cut, START, later);
            if cut(a + read) then
              Scan(cut, ScanState([], a + window), data + [byte] + later) == ScanState([a + read] + rest.chunks, rest.buffer)
            else Scan(cut, ScanState([], a + window), data + [byte]).chunks == []
  {
    var start := ScanState([], a + window);
    var read := window + data + [byte];
    assert a + (window + data) + [byte] == a + read;
    assert [] + [a + read] == [a + read];
    ScanConcat(cut, start, data, [byte]);
    ScanByte(cut, Scan(cut, start, data), byte);
    ScanConcat(cut, start, data + [byte], later);
    ScanFrom(cut, ScanState([a + read], []), later);
  }

  /** Size bounds: every chunk emitted by `update` lies between min and max, the rest is shorter
      than max. */
  lemma ChunkSizeBounds(p: FastCdcParameters, gear: GearTable, data: Bytes)
    requires ValidParameters(p)
    ensures var after := Scan(Cut(p, gear), START, data);
            && (forall i | 0 <= i < |after.chunks| :: p.min <= |after.chunks[i]| <= p.max)
            && |after.buffer| < p.max
  {
    var cut := Cut(p, gear);
    var after := Scan(cut, START, data);
    ChunksWereCut(cut, START, data);
    forall i | 0 <= i < |after.chunks|
      ensures p.min <= |after.chunks[i]| <= p.max
    {
      var chunk := after.chunks[i];
      assert CutExactly(cut, chunk);
      if |chunk| > 1 {
        assert !cut(chunk[..|chunk| - 1]);
      }
    }
    if after.buffer != [] {
      assert !cut(after.buffer[..|after.buffer|]);
    }
  }

  // ---------------------------------------------------------------------------------------------
  // The chunks, in terms of the unbounded sum
  // ---------------------------------------------------------------------------------------------

  lemma {:induction false} LogOfPowerOfTwo(n: nat)
    ensures PowerOfTwo(n) <==> exists k: nat :: Pow2(k) == n
    ensures forall k: nat | Pow2(k) == n :: CountTrailingZeros(n) == k
  {
    assert Pow2(0) == 1;
    if n > 1 && n % 2 == 0 {
      LogOfPowerOfTwo(n / 2);
      if PowerOfTwo(n / 2) {
        var k: nat :| Pow2(k) == n / 2;
        assert Pow2(k + 1) == n;
      }
    }
    forall k: nat | Pow2(k) == n
      ensures PowerOfTwo(n) && CountTrailingZeros(n) == k
    {
      if k > 0 {
        assert Pow2(k - 1) == n / 2;
      }
    }
  }

  /** The parameters that the constructor accepts. */
  lemma ParametersMean(p: FastCdcParameters)
    ensures ValidParameters(p) <==>
              64 <= p.min <= p.avg <= p.max <= 8388608 && exists k: nat :: Pow2(k) == p.avg
    ensures ValidParameters(p) ==> forall k: nat | Pow2(k) == p.avg :: 6 <= k <= 23
  {
    LogOfPowerOfTwo(p.avg);
    assert Pow2(6) == 64;
    Pow2Add(12, 12);
    assert Pow2(12) == 4096;
    if ValidParameters(p) {
      forall k: nat | Pow2(k) == p.avg
        ensures 6 <= k <= 23
      {
        Pow2Grows(k, 6);
        Pow2Grows(24, k);
      }
    }
  }

  lemma {:induction false} Pow2Grows(m: nat, n: nat)
    ensures m < n ==> Pow2(m) < Pow2(n)
    ensures m <= n ==> Pow2(m) <= Pow2(n)
  {
    if m < n {
      Pow2Grows(m, n - 1);
    }
  }

  /** The table values of the bytes, shifted and added up, end in zeros: one more than log2 of the average
      size as long as the buffer is shorter than that size, one less from then on. */
  ghost predicate EndsInZeros(p: FastCdcParameters, gear: GearTable, k: nat, buffer: Bytes)
    requires k >= 1
  {
    GearSum(gear, buffer) % (if |buffer| < p.avg then Pow2(k + 1) else Pow2(k - 1)) == 0
  }

  /** A chunk ends at the first byte, from the minimum size on, where the sum ends in zeros, and at the maximum
      size at the latest. */
  ghost predicate FirstCut(p: FastCdcParameters, gear: GearTable, k: nat, chunk: Bytes)
    requires k >= 1
  {
    && p.min <= |chunk| <= p.max
    && (|chunk| == p.max || EndsInZeros(p, gear, k, chunk))
    && forall n | p.min <= n < |chunk| :: !EndsInZeros(p, gear, k, chunk[..n])
  }

  ghost predicate NoCutYet(p: FastCdcParameters, gear: GearTable, k: nat, rest: Bytes)
    requires k >= 1
  {
    |rest| < p.max && forall n | p.min <= n <= |rest| :: !EndsInZeros(p, gear, k, rest[..n])
  }

  lemma CutMeans(p: FastCdcParameters, gear: GearTable, k: nat, buffer: Bytes)
    requires ValidParameters(p) && Pow2(k) == p.avg
    ensures 6 <= k <= 23
    ensures Cut(p, gear)(buffer) <==> |buffer| >= p.min && (|buffer| >= p.max || EndsInZeros(p, gear, k, buffer))
  {
    hide PowerOfTwo;
    ParametersMean(p);
    LogOfPowerOfTwo(p.avg);
    LowBitsOfHash(gear, buffer, k + 1);
    LowBitsOfHash(gear, buffer, k - 1);
  }

  lemma ExactCutsMean(p: FastCdcParameters, gear: GearTable, k: nat, chunk: Bytes)
    requires ValidParameters(p) && Pow2(k) == p.avg && k >= 1
    ensures CutExactly(Cut(p, gear), chunk) <==> FirstCut(p, gear, k, chunk)
    ensures Uncut(Cut(p, gear), chunk) <==> NoCutYet(p, gear, k, chunk)
  {
    hide EndsInZeros, Cut, PowerOfTwo;
    forall n | 0 <= n <= |chunk|
      ensures Cut(p, gear)(chunk[..n]) <==> n >= p.min && (n >= p.max || EndsInZeros(p, gear, k, chunk[..n]))
    {
      CutMeans(p, gear, k, chunk[..n]);
    }
    assert chunk[..|chunk|] == chunk;
    ExactCutMeans(p, gear, k, chunk);
    UncutMeans(p, gear, k, chunk);
  }

  lemma ExactCutMeans(p: FastCdcParameters, gear: GearTable, k: nat, chunk: Bytes)
    requires 0 < p.min <= p.max && k >= 1
    requires forall n | 0 <= n <= |chunk| ::
               Cut(p, gear)(chunk[..n]) <==> n >= p.min && (n >= p.max || EndsInZeros(p, gear, k, chunk[..n]))
    ensures CutExactly(Cut(p, gear), chunk) <==> FirstCut(p, gear, k, chunk)
  {
    hide EndsInZeros, Cut;
    assert chunk[..|chunk|] == chunk;
    var longest := chunk[..if |chunk| < p.max then |chunk| else p.max];
    assert |longest| < |chunk| && CutExactly(Cut(p, gear), chunk) ==> !Cut(p, gear)(longest);
  }

  lemma UncutMeans(p: FastCdcParameters, gear: GearTable, k: nat, rest: Bytes)
    requires 0 < p.min <= p.max && k >= 1
    requires forall n | 0 <= n <= |rest| ::
               Cut(p, gear)(rest[..n]) <==> n >= p.min && (n >= p.max || EndsInZeros(p, gear, k, rest[..n]))
    ensures Uncut(Cut(p, gear), rest) <==> NoCutYet(p, gear, k, rest)
  {
    hide EndsInZeros, Cut;
    var longest := rest[..if |rest| < p.max then |rest| else p.max];
    assert longest != [] && Uncut(Cut(p, gear), rest) ==> !Cut(p, gear)(longest);
  }

  /** What FastCDC computes: the one division of the input in which every chunk ends at its first cut and the
      rest has none. */
  lemma FastCdcDivision(p: FastCdcParameters, gear: GearTable, k: nat, data: Bytes, chunks: seq<Bytes>, rest: Bytes)
    requires ValidParameters(p) && Pow2(k) == p.avg
    ensures k >= 1
    ensures Scan(Cut(p, gear), START, data) == ScanState(chunks, rest) <==>
              && Concat(chunks) + rest == data
              && (forall i | 0 <= i < |chunks| :: FirstCut(p, gear, k, chunks[i]))
              && NoCutYet(p, gear, k, rest)
  {
    hide Cut, FirstCut, NoCutYet, PowerOfTwo, CutExactly, Uncut, Scan;
    var cut := Cut(p, gear);
    ParametersMean(p);
    forall b: Bytes
      ensures CutExactly(cut, b) <==> FirstCut(p, gear, k, b)
      ensures Uncut(cut, b) <==> NoCutYet(p, gear, k, b)
    {
      ExactCutsMean(p, gear, k, b);
    }
    if Scan(cut, START, data) == ScanState(chunks, rest) {
      NothingIsUncut(cut);
      ChunksWereCut(cut, START, data);
      ScanPartitions(cut, START, data);
      assert Concat([]) + [] + data == data;
    }
    if Concat(chunks) + rest == data && (forall i | 0 <= i < |chunks| :: CutExactly(cut, chunks[i])) && Uncut(cut, rest) {
      SplitUnique(cut, START, chunks, rest);
      assert [] + chunks == chunks;
    }
  }

  lemma NothingIsUncut(cut: CutRule)
    ensures Uncut(cut, [])
  {
  }
}
