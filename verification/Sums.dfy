/** Sums over sequences. */
module Sums {

  function Sum<T>(weight: T -> nat, s: seq<T>): nat {
    if s == [] then 0 else Sum(weight, s[..|s| - 1]) + weight(s[|s| - 1])
  }

  /** Replacing one element changes the sum by the difference. */
  lemma {:induction false} SumAfterUpdate<T>(weight: T -> nat, s: seq<T>, i: nat, x: T)
    requires i < |s|
    ensures Sum(weight, s[i := x]) == Sum(weight, s) - weight(s[i]) + weight(x)
  {
    var last := |s| - 1;
    if i < last {
      SumAfterUpdate(weight, s[..last], i, x);
      assert s[i := x][..last] == s[..last][i := x];
    } else {
      assert s[i := x][..last] == s[..last];
    }
  }

  lemma {:induction false} SumConcat<T>(weight: T -> nat, a: seq<T>, b: seq<T>)
    ensures Sum(weight, a + b) == Sum(weight, a) + Sum(weight, b)
  {
    if b == [] {
      assert a + b == a;
    } else {
      SumConcat(weight, a, b[..|b| - 1]);
      assert (a + b)[..|a + b| - 1] == a + b[..|b| - 1];
    }
  }

  lemma SumFirst<T>(weight: T -> nat, s: seq<T>)
    requires s != []
    ensures Sum(weight, s) == weight(s[0]) + Sum(weight, s[1..])
  {
    SumConcat(weight, [s[0]], s[1..]);
    assert [s[0]] + s[1..] == s;
    assert [s[0]][..0] == [];
  }

  lemma {:induction false} SumOfEqual<T>(weight: T -> nat, s: seq<T>, n: nat)
    requires forall i | 0 <= i < |s| :: weight(s[i]) == n
    ensures Sum(weight, s) == |s| * n
  {
    if s != [] {
      SumOfEqual(weight, s[..|s| - 1], n);
    }
  }
}
