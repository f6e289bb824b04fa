/** The building blocks of the canonical descriptors: big-endian integers, hexadecimal IDs, UUIDs,
    strings (helpers in src/metadata/object_layout_descriptor.cpp, artifact_model.cpp and
    manifest_model.cpp), and how a sequence of pieces is read back from its concatenation. */
module Encoding {
  import opened Common
  import opened Arithmetic
  import Chunking

  // ---------------------------------------------------------------------------------------------
  // Big-endian integers
  // ---------------------------------------------------------------------------------------------

  function BigEndian(value: nat, width: nat): (bytes: Bytes)
    ensures |bytes| == width
  {
    if width == 0 then [] else BigEndian(value / 256, width - 1) + [value % 256]
  }

  lemma {:induction false} BigEndianInjective(a: nat, b: nat, width: nat)
    requires a < Pow2(8 * width) && b < Pow2(8 * width)
    requires BigEndian(a, width) == BigEndian(b, width)
    ensures a == b
  {
    if width > 0 {
      var x, y := BigEndian(a / 256, width - 1), BigEndian(b / 256, width - 1);
      assert x == (x + [a % 256])[..width - 1] == (y + [b % 256])[..width - 1] == y;
      assert a % 256 == BigEndian(a, width)[width - 1] == BigEndian(b, width)[width - 1] == b % 256;
      Pow2Add(8, 8 * (width - 1));
      assert Pow2(8) == 256;
      BigEndianInjective(a / 256, b / 256, width - 1);
    }
  }

  /** The number that the bytes write, most significant byte first. */
  function Number(bytes: Bytes): nat {
    if bytes == [] then 0 else 256 * Number(bytes[..|bytes| - 1]) + bytes[|bytes| - 1]
  }

  lemma {:induction false} NumberOfBigEndian(value: nat, width: nat)
    requires value < Pow2(8 * width)
    ensures Number(BigEndian(value, width)) == value
  {
    if width > 0 {
      Pow2Add(8, 8 * (width - 1));
      assert Pow2(8) == 256;
      NumberOfBigEndian(value / 256, width - 1);
    }
  }

  lemma {:induction false} NumberFromFront(byte: Byte, rest: Bytes)
    ensures Number([byte] + rest) == byte * Pow2(8 * |rest|) + Number(rest)
    ensures Number(rest) < Pow2(8 * |rest|)
  {
    var s: Bytes := [byte] + rest;
    if rest == [] {
      assert Pow2(0) == 1;
      assert s[..0] == [];
    } else {
      var n := |rest| - 1;
      NumberFromFront(byte, rest[..n]);
      assert s[..|s| - 1] == [byte] + rest[..n];
      Pow2Add(8, 8 * n);
      assert Pow2(8) == 256;
      ShiftByte(byte, Pow2(8 * n), Number(rest[..n]), rest[n]);
    }
  }

  lemma ShiftByte(high: nat, power: nat, number: nat, low: Byte)
    ensures 256 * (high * power + number) + low == high * (256 * power) + (256 * number + low)
  {
    MulAssociates(high, 256, power);
  }

  /** The byte that `(value >> shift) & 0xFF` picks. */
  lemma {:induction false} BigEndianAt(value: nat, width: nat, i: nat)
    requires i < width
    ensures BigEndian(value, width)[i] == (value / Pow2(8 * (width - 1 - i))) % 256
  {
    if i < width - 1 {
      BigEndianAt(value / 256, width - 1, i);
      Pow2Add(8, 8 * (width - 2 - i));
      assert Pow2(8) == 256;
      DivideTwice(value, 256, Pow2(8 * (width - 2 - i)));
    }
  }

  lemma DivideTwice(value: nat, a: nat, b: nat)
    requires a > 0 && b > 0
    ensures a * b > 0 && value / a / b == value / (a * b)
  {
    MulAtLeast(a, b);
    NestedQuotient(value, a, b, value / a, value % a, value / a / b, value / a % b);
  }

  lemma NestedQuotient(value: nat, a: nat, b: nat, q: nat, r: nat, q': nat, r': nat)
    requires a > 0 && b > 0 && a * b > 0
    requires value == a * q + r && r < a && q == b * q' + r' && r' < b
    ensures value / (a * b) == q'
  {
    Regroup(value, a, b, q', r', r);
    MulDistributes(a, b, r');
    MulAtLeast(a, b - r');
    DivisionUnique(value, q', a * r' + r, a * b);
  }

  lemma Regroup(value: nat, a: nat, b: nat, q: nat, s: nat, r: nat)
    requires value == a * (b * q + s) + r
    ensures value == (a * b) * q + (a * s + r)
  {
    MulDistributes(a, b * q, s);
    MulAssociates(a, b, q);
  }

  lemma DivisionUnique(x: nat, q: nat, r: nat, d: nat)
    requires d > 0 && x == d * q + r && r < d
    ensures x / d == q
  {
    RemainderUnique(x, q, r, d);
    MulDistributes(d, x / d, q);
    if x / d > q {
      MulAtLeast(d, x / d - q);
    } else if x / d < q {
      MulDistributes(d, q, x / d);
      MulAtLeast(d, q - x / d);
    }
  }

  /** The byte-by-byte loop of the `append_uint…_big_endian` helpers. */
  method AppendBigEndian(output: Bytes, value: nat, width: nat) returns (longer: Bytes)
    ensures longer == output + BigEndian(value, width)
  {
    longer := output;
    for index := 0 to width
      invariant longer == output + BigEndian(value, width)[..index]
    {
      var shift := 8 * (width - 1 - index);
      BigEndianAt(value, width, index);
      longer := longer + [(value / Pow2(shift)) % 256];
      assert BigEndian(value, width)[..index + 1] == BigEndian(value, width)[..index] + [BigEndian(value, width)[index]];
    }
  }

  // ---------------------------------------------------------------------------------------------
  // Hexadecimal IDs
  // ---------------------------------------------------------------------------------------------

  function HexBytes(s: string): (bytes: Bytes)
    requires AllHex(s) && |s| % 2 == 0
    ensures |bytes| == |s| / 2
  {
    if s == [] then [] else HexBytes(s[..|s| - 2]) + [16 * HexDigit(s[|s| - 2]) + HexDigit(s[|s| - 1])]
  }

  lemma {:induction false} HexBytesAt(s: string, i: nat)
    requires AllHex(s) && |s| % 2 == 0 && 2 * i < |s|
    ensures HexBytes(s)[i] == 16 * HexDigit(s[2 * i]) + HexDigit(s[2 * i + 1])
    decreases |s|
  {
    if 2 * i < |s| - 2 {
      HexBytesAt(s[..|s| - 2], i);
    }
  }

  lemma NibblePair(a: char, b: char, c: char, d: char)
    requires IsLowerHex(a) && IsLowerHex(b) && IsLowerHex(c) && IsLowerHex(d)
    requires 16 * HexDigit(a) + HexDigit(b) == 16 * HexDigit(c) + HexDigit(d)
    ensures a == c && b == d
  {
    assert HexDigit(a) == HexDigit(c) && HexDigit(b) == HexDigit(d);
  }

  lemma LastByteAgrees(x: Bytes, y: Bytes, a: Byte, b: Byte)
    requires x + [a] == y + [b]
    ensures x == y && a == b
  {
    assert x == (x + [a])[..|x + [a]| - 1];
    assert y == (y + [b])[..|y + [b]| - 1];
    assert (x + [a])[|x|] == a && (y + [b])[|y|] == b;
  }

  lemma SplitPair(a: string)
    requires |a| >= 2
    ensures a == a[..|a| - 2] + [a[|a| - 2], a[|a| - 1]]
  {
  }

  lemma {:induction false} HexBytesInjective(a: string, b: string)
    requires AllHex(a) && AllHex(b) && |a| == |b| && |a| % 2 == 0
    requires HexBytes(a) == HexBytes(b)
    ensures a == b
  {
    if a != [] {
      var n := |a| - 2;
      LastByteAgrees(HexBytes(a[..n]), HexBytes(b[..n]), 16 * HexDigit(a[n]) + HexDigit(a[n + 1]), 16 * HexDigit(b[n]) + HexDigit(b[n + 1]));
      NibblePair(a[n], a[n + 1], b[n], b[n + 1]);
      HexBytesInjective(a[..n], b[..n]);
      SplitPair(a);
      SplitPair(b);
    }
  }

  method AppendHex(output: Bytes, id: string) returns (longer: Bytes)
    requires AllHex(id) && |id| % 2 == 0
    ensures longer == output + HexBytes(id)
  {
    longer := output;
    var index := 0;
    assert id[..0] == [];
    while index < |id|
      invariant 0 <= index <= |id| && index % 2 == 0
      invariant longer == output + HexBytes(id[..index])
    {
      var high := HexDigit(id[index]);
      var low := HexDigit(id[index + 1]);
      assert id[..index + 2][..index] == id[..index];
      longer := longer + [16 * high + low];
      index := index + 2;
    }
    assert id[..index] == id;
  }

  // ---------------------------------------------------------------------------------------------
  // UUIDs and strings
  // ---------------------------------------------------------------------------------------------

  predicate IsHyphenPosition(i: int) {
    i == 8 || i == 13 || i == 18 || i == 23
  }

  /** UUIDs of version 7 in lower case, as section 5.7 of RFC 9562 lays them out. */
  predicate IsUuid(s: string) {
    && |s| == 36
    && (forall i | 0 <= i < 36 :: if IsHyphenPosition(i) then s[i] == '-' else IsLowerHex(s[i]))
    && s[14] == '7'
    && s[19] in "89ab"
  }

  function WithoutHyphens(s: string): string {
    if s == [] then [] else WithoutHyphens(s[..|s| - 1]) + if s[|s| - 1] == '-' then [] else [s[|s| - 1]]
  }

  lemma {:induction false} WithoutHyphensAppend(a: string, b: string)
    requires forall i | 0 <= i < |b| :: b[i] != '-'
    ensures WithoutHyphens(a + b) == WithoutHyphens(a) + b
  {
    if b == [] {
      assert a + b == a;
    } else {
      WithoutHyphensAppend(a, b[..|b| - 1]);
      assert (a + b)[..|a + b| - 1] == a + b[..|b| - 1];
    }
  }

  /** One group of digits and the hyphen before it. */
  lemma NextGroup(s: string, i: nat, j: nat)
    requires i < j <= |s| && s[i] == '-' && forall k | i < k < j :: s[k] != '-'
    ensures WithoutHyphens(s[..j]) == WithoutHyphens(s[..i]) + s[i + 1..j]
  {
    assert s[..i + 1][..i] == s[..i];
    WithoutHyphensAppend(s[..i + 1], s[i + 1..j]);
    assert s[..j] == s[..i + 1] + s[i + 1..j];
  }

  lemma CompactUuid(s: string)
    requires IsUuid(s)
    ensures WithoutHyphens(s) == s[..8] + s[9..13] + s[14..18] + s[19..23] + s[24..36]
  {
    FirstGroup(s);
    NextGroup(s, 8, 13);
    NextGroup(s, 13, 18);
    NextGroup(s, 18, 23);
    NextGroup(s, 23, 36);
    assert s[..36] == s;
  }

  lemma FirstGroup(s: string)
    requires IsUuid(s)
    ensures WithoutHyphens(s[..8]) == s[..8]
  {
    WithoutHyphensAppend("", s[..8]);
    assert "" + s[..8] == s[..8];
  }

  lemma CompactUuidIsHex(s: string)
    requires IsUuid(s)
    ensures |WithoutHyphens(s)| == 32 && AllHex(WithoutHyphens(s))
  {
    CompactUuid(s);
    assert AllHex(s[..8]) && AllHex(s[9..13]) && AllHex(s[14..18]) && AllHex(s[19..23]) && AllHex(s[24..36]);
  }

  lemma CompactUuidInjective(a: string, b: string)
    requires IsUuid(a) && IsUuid(b) && WithoutHyphens(a) == WithoutHyphens(b)
    ensures a == b
  {
    CompactUuid(a);
    CompactUuid(b);
    CompactUuidIsHex(a);
    var c := WithoutHyphens(a);
    forall i | 0 <= i < 36
      ensures a[i] == b[i]
    {
      var position := if i < 9 then i else if i < 14 then i - 1 else if i < 19 then i - 2 else if i < 24 then i - 3 else i - 4;
      assert !IsHyphenPosition(i) ==> a[i] == c[position] == b[i];
    }
  }

  /** Strings are bytes. */
  predicate IsByteString(s: string) {
    forall i | 0 <= i < |s| :: s[i] as int < 256
  }

  function StringBytes(s: string): (bytes: Bytes)
    requires IsByteString(s)
    ensures |bytes| == |s|
    ensures forall i | 0 <= i < |s| :: bytes[i] == s[i] as int
  {
    seq(|s|, i requires 0 <= i < |s| => s[i] as int)
  }

  lemma StringBytesInjective(a: string, b: string)
    requires IsByteString(a) && IsByteString(b) && StringBytes(a) == StringBytes(b)
    ensures a == b
  {
    forall i | 0 <= i < |a|
      ensures a[i] == b[i]
    {
      assert StringBytes(a)[i] == StringBytes(b)[i];
    }
  }

  // ---------------------------------------------------------------------------------------------
  // Pieces
  // ---------------------------------------------------------------------------------------------

  lemma {:induction false} ConcatSplit(a: seq<Bytes>, b: seq<Bytes>)
    ensures Chunking.Concat(a + b) == Chunking.Concat(a) + Chunking.Concat(b)
  {
    if b == [] {
      assert a + b == a;
    } else {
      ConcatSplit(a, b[..|b| - 1]);
      assert (a + b)[..|a + b| - 1] == a + b[..|b| - 1];
    }
  }

  /** Pieces are read from the front: once the first `n` pieces agree, so does the next one, if its
      width is known. */
  lemma NextPiece(p: seq<Bytes>, q: seq<Bytes>, n: nat)
    requires Chunking.Concat(p) == Chunking.Concat(q)
    requires n < |p| && n < |q| && p[..n] == q[..n] && |p[n]| == |q[n]|
    ensures p[n] == q[n] && p[..n + 1] == q[..n + 1]
  {
    PieceAt(p, n);
    PieceAt(q, n);
    LongerPrefix(p, q, n);
  }

  lemma LongerPrefix(p: seq<Bytes>, q: seq<Bytes>, n: nat)
    requires n < |p| && n < |q| && p[..n] == q[..n] && p[n] == q[n]
    ensures p[..n + 1] == q[..n + 1]
  {
    forall i | 0 <= i < n
      ensures p[i] == q[i]
    {
      assert p[..n][i] == q[..n][i];
    }
  }

  lemma PieceAt(p: seq<Bytes>, n: nat)
    requires n < |p|
    ensures var start := |Chunking.Concat(p[..n])|;
            start + |p[n]| <= |Chunking.Concat(p)| && Chunking.Concat(p)[start..start + |p[n]|] == p[n]
  {
    ConcatSplit(p[..n], p[n..]);
    assert p == p[..n] + p[n..];
    ConcatSplit([p[n]], p[n + 1..]);
    assert p[n..] == [p[n]] + p[n + 1..];
    var one: seq<Bytes> := [p[n]];
    assert one[..0] == [];
    assert Chunking.Concat([p[n]]) == p[n];
  }

  /** The same for several pieces of known widths. */
  lemma {:induction false} NextPieces(p: seq<Bytes>, q: seq<Bytes>, m: nat, n: nat)
    requires Chunking.Concat(p) == Chunking.Concat(q)
    requires m <= n <= |p| && n <= |q| && p[..m] == q[..m] && forall i | m <= i < n :: |p[i]| == |q[i]|
    ensures p[..n] == q[..n]
    decreases n - m
  {
    if m < n {
      NextPiece(p, q, m);
      NextPieces(p, q, m + 1, n);
    }
  }
}
