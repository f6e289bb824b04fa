/** Powers of two and remainders. */
module Arithmetic {

  function Pow2(n: nat): (r: nat)
    ensures r > 0
  {
    if n == 0 then 1 else 2 * Pow2(n - 1)
  }

  lemma {:induction false} Pow2Add(m: nat, n: nat)
    ensures Pow2(m + n) == Pow2(m) * Pow2(n)
  {
    if m > 0 {
      Pow2Add(m - 1, n);
      MulAssociates(2, Pow2(m - 1), Pow2(n));
    }
  }

  lemma MulAssociates(a: int, b: int, c: int)
    ensures (a * b) * c == a * (b * c)
  {
  }

  lemma MulDistributes(a: int, b: int, c: int)
    ensures a * (b + c) == a * b + a * c
    ensures a * (b - c) == a * b - a * c
    ensures (b + c) * a == b * a + c * a
  {
  }

  lemma MulAtLeast(d: nat, k: int)
    requires k >= 1
    ensures d * k >= d
  {
    MulDistributes(d, k - 1, 1);
  }

  lemma RemainderUnique(x: int, q: int, r: int, d: nat)
    requires d > 0 && x == d * q + r && 0 <= r < d
    ensures x % d == r
  {
    var q', r' := x / d, x % d;
    QuotientUnique(q, r, q', r', d);
  }

  lemma QuotientUnique(q: int, r: int, q': int, r': int, d: nat)
    requires 0 <= r < d && 0 <= r' < d && d * q + r == d * q' + r'
    ensures r == r'
  {
    MulDistributes(d, q, q');
    if q > q' {
      MulAtLeast(d, q - q');
    } else if q < q' {
      MulDistributes(d, q', q);
      MulAtLeast(d, q' - q);
    }
  }

  /** Adding a multiple of the divisor does not change the remainder. */
  lemma RemainderPlusMultiple(x: int, k: int, d: nat)
    requires d > 0
    ensures (x + d * k) % d == x % d
  {
    var q, r := x / d, x % d;
    MulDistributes(d, q, k);
    RemainderUnique(x + d * k, q + k, r, d);
  }

  /** Reducing modulo a multiple of `d` first does not change the remainder modulo `d`. */
  lemma RemainderOfRemainder(x: nat, d: nat, e: nat)
    requires d > 0 && e > 0 && d * e > 0
    ensures (x % (d * e)) % d == x % d
  {
    var q := x / (d * e);
    assert x == (d * e) * q + x % (d * e);
    MulAssociates(d, e, q);
    RemainderPlusMultiple(x % (d * e), e * q, d);
  }
}
