/** Strict total orders, and the one ascending enumeration of a finite set. Node placement,
    lifecycle ranking, chunk inventories and map serialization all sort distinct keys, so
    what they compute is fixed by the set of keys and the order alone. */
module Ordering {

  ghost predicate StrictOrder<T(!new)>(lt: (T, T) -> bool) {
    && (forall x :: !lt(x, x))
    && (forall x, y, z :: lt(x, y) && lt(y, z) ==> lt(x, z))
  }

  ghost predicate TotalOn<T>(lt: (T, T) -> bool, keys: set<T>) {
    forall x, y | x in keys && y in keys :: x == y || lt(x, y) || lt(y, x)
  }

  ghost predicate StrictTotal<T(!new)>(lt: (T, T) -> bool) {
    && StrictOrder(lt)
    && (forall x, y :: x == y || lt(x, y) || lt(y, x))
  }

  ghost predicate Ascending<T>(lt: (T, T) -> bool, s: seq<T>) {
    forall i, j | 0 <= i < j < |s| :: lt(s[i], s[j])
  }

  function Elements<T>(s: seq<T>): set<T> {
    set x | x in s
  }

  /** `s` lists exactly the elements of `keys`, each once, in order. */
  ghost predicate Enumerates<T>(lt: (T, T) -> bool, s: seq<T>, keys: set<T>) {
    Ascending(lt, s) && Elements(s) == keys
  }

  lemma NoElements<T>(s: seq<T>)
    ensures Elements(s) == {} <==> s == []
  {
    if s != [] {
      assert s[0] in Elements(s);
    }
  }

  lemma {:induction false} EnumerationUnique<T(!new)>(lt: (T, T) -> bool, s: seq<T>, t: seq<T>)
    requires StrictOrder(lt)
    requires Ascending(lt, s) && Ascending(lt, t) && Elements(s) == Elements(t)
    ensures s == t
  {
    NoElements(s);
    NoElements(t);
    if s != [] {
      assert s[0] in Elements(t);
      assert t[0] in Elements(s);
      var i :| 0 <= i < |t| && t[i] == s[0];
      var j :| 0 <= j < |s| && s[j] == t[0];
      assert s[0] == t[0];
      forall x
        ensures x in s[1..] <==> x in t[1..]
      {
        assert x in Elements(s) <==> x in Elements(t);
        if x in s[1..] {
          var k :| 1 <= k < |s| && s[k] == x;
          assert lt(s[0], x);
        }
        if x in t[1..] {
          var k :| 1 <= k < |t| && t[k] == x;
          assert lt(t[0], x);
        }
      }
      assert Elements(s[1..]) == Elements(t[1..]);
      EnumerationUnique(lt, s[1..], t[1..]);
    }
  }

  lemma EnumerationSize<T>(lt: (T, T) -> bool, s: seq<T>, keys: set<T>)
    requires forall x :: !lt(x, x)
    requires Enumerates(lt, s, keys)
    ensures |s| == |keys|
  {
    if s == [] {
    } else {
      var last := s[|s| - 1];
      var rest := s[..|s| - 1];
      assert last !in rest;
      assert keys == Elements(rest) + {last};
      EnumerationSize(lt, rest, Elements(rest));
    }
  }

  /** The position at which `x` has to be inserted. */
  function InsertionPoint<T>(lt: (T, T) -> bool, s: seq<T>, x: T): (i: nat)
    ensures i <= |s|
    ensures forall j | 0 <= j < i :: lt(s[j], x)
    ensures i < |s| ==> !lt(s[i], x)
  {
    if s == [] || !lt(s[0], x) then 0 else 1 + InsertionPoint(lt, s[1..], x)
  }

  function Insert<T>(lt: (T, T) -> bool, s: seq<T>, x: T): (r: seq<T>)
    ensures |r| == |s| + 1
  {
    var i := InsertionPoint(lt, s, x);
    s[..i] + [x] + s[i..]
  }

  function Sorted<T>(lt: (T, T) -> bool, s: seq<T>): (r: seq<T>)
    ensures |r| == |s|
  {
    if s == [] then [] else Insert(lt, Sorted(lt, s[..|s| - 1]), s[|s| - 1])
  }

  lemma InsertAscending<T(!new)>(lt: (T, T) -> bool, s: seq<T>, x: T)
    requires StrictOrder(lt) && TotalOn(lt, Elements(s) + {x}) && Ascending(lt, s) && x !in s
    ensures Enumerates(lt, Insert(lt, s, x), Elements(s) + {x})
  {
    var i := InsertionPoint(lt, s, x);
    if i < |s| {
      assert s[i] in Elements(s);
      assert lt(x, s[i]);
      AscendingAbove(lt, s, x, i);
    }
    InsertedAt(lt, s, x, i);
  }

  lemma InsertedAt<T>(lt: (T, T) -> bool, s: seq<T>, x: T, i: nat)
    requires Ascending(lt, s) && i <= |s|
    requires forall j | 0 <= j < i :: lt(s[j], x)
    requires forall j | i <= j < |s| :: lt(x, s[j])
    ensures Enumerates(lt, s[..i] + [x] + s[i..], Elements(s) + {x})
  {
    var r := s[..i] + [x] + s[i..];
    assert forall j | 0 <= j < |r| :: r[j] == if j < i then s[j] else if j == i then x else s[j - 1];
    assert s == s[..i] + s[i..];
  }

  lemma AscendingAbove<T(!new)>(lt: (T, T) -> bool, s: seq<T>, x: T, i: nat)
    requires StrictOrder(lt) && Ascending(lt, s) && i < |s| && lt(x, s[i])
    ensures forall j | i <= j < |s| :: lt(x, s[j])
  {
  }

  /** Sorting distinct keys yields the enumeration of their set. */
  lemma {:induction false} SortedEnumerates<T(!new)>(lt: (T, T) -> bool, s: seq<T>)
    requires StrictOrder(lt) && TotalOn(lt, Elements(s))
    requires forall i, j | 0 <= i < j < |s| :: s[i] != s[j]
    ensures Enumerates(lt, Sorted(lt, s), Elements(s))
  {
    if s == [] {
    } else {
      var rest := s[..|s| - 1];
      assert Elements(s) == Elements(rest) + {s[|s| - 1]};
      SortedEnumerates(lt, rest);
      assert s[|s| - 1] !in rest;
      assert s[|s| - 1] !in Elements(Sorted(lt, rest));
      InsertAscending(lt, Sorted(lt, rest), s[|s| - 1]);
    }
  }

  lemma {:induction false} EnumerationExists<T(!new)>(lt: (T, T) -> bool, keys: set<T>)
    requires StrictOrder(lt) && TotalOn(lt, keys)
    ensures exists s :: Enumerates(lt, s, keys)
  {
    if keys == {} {
      assert Enumerates(lt, [], keys);
    } else {
      var x :| x in keys;
      var rest := keys - {x};
      EnumerationExists(lt, rest);
      var s :| Enumerates(lt, s, rest);
      assert x !in s by {
        assert x !in Elements(s);
      }
      InsertAscending(lt, s, x);
      assert rest + {x} == keys;
    }
  }

  /** What `ORDER BY` returns for a set of keys. */
  ghost function Enumeration(keys: set<string>): (s: seq<string>)
    ensures Enumerates(LexLess, s, keys)
  {
    LexStrictTotal();
    EnumerationExists(LexLess, keys);
    var s :| Enumerates(LexLess, s, keys);
    s
  }

  /** The elements of a set, in whatever order they come. */
  method Listed(keys: set<string>) returns (s: seq<string>)
    ensures Elements(s) == keys
    ensures forall i, j | 0 <= i < j < |s| :: s[i] != s[j]
  {
    s := [];
    var remaining := keys;
    while remaining != {}
      invariant remaining <= keys
      invariant forall key :: key in s <==> key in keys && key !in remaining
      invariant forall i, j | 0 <= i < j < |s| :: s[i] != s[j]
      decreases |remaining|
    {
      var key :| key in remaining;
      s := s + [key];
      remaining := remaining - {key};
    }
  }

  method SortKeys(keys: set<string>) returns (sorted: seq<string>)
    ensures sorted == Enumeration(keys)
  {
    var listed := Listed(keys);
    LexStrictTotal();
    SortedEnumerates(LexLess, listed);
    sorted := Sorted(LexLess, listed);
    EnumerationUnique(LexLess, sorted, Enumeration(keys));
  }

  /** Removing `x`, if present. */
  function Without<T(==)>(s: seq<T>, x: T): seq<T> {
    if s == [] then []
    else if s[0] == x then Without(s[1..], x)
    else [s[0]] + Without(s[1..], x)
  }

  lemma {:induction false} WithoutEnumerates<T(!new)>(lt: (T, T) -> bool, s: seq<T>, x: T)
    requires forall y :: !lt(y, y)
    requires Ascending(lt, s)
    ensures Enumerates(lt, Without(s, x), Elements(s) - {x})
  {
    if s == [] {
    } else {
      WithoutEnumerates(lt, s[1..], x);
      var w := Without(s[1..], x);
      assert Elements(s) == {s[0]} + Elements(s[1..]);
      forall k | 0 <= k < |w|
        ensures lt(s[0], w[k])
      {
        assert w[k] in Elements(w);
        var j :| 1 <= j < |s| && s[j] == w[k];
      }
      if s[0] == x {
        assert x !in s[1..];
      } else {
        assert Elements([s[0]] + w) == {s[0]} + Elements(w);
      }
    }
  }

  lemma {:induction false} WithoutAbsent<T>(s: seq<T>, x: T)
    requires x !in s
    ensures Without(s, x) == s
  {
    if s != [] {
      WithoutAbsent(s[1..], x);
    }
  }

  lemma {:induction false} WithoutPresent<T>(lt: (T, T) -> bool, s: seq<T>, i: nat)
    requires forall y :: !lt(y, y)
    requires Ascending(lt, s) && i < |s|
    ensures Without(s, s[i]) == s[..i] + s[i + 1..]
  {
    if i == 0 {
      assert s[0] !in s[1..];
      WithoutAbsent(s[1..], s[0]);
    } else {
      assert lt(s[0], s[i]);
      WithoutPresent(lt, s[1..], i - 1);
      assert s[1..][..i - 1] == s[..i][1..];
    }
  }

  lemma {:induction false} SubsetSize<T>(a: set<T>, b: set<T>)
    requires a <= b
    ensures |a| <= |b|
  {
    if x :| x in a {
      SubsetSize(a - {x}, b - {x});
    }
  }

  /** The byte-wise order of `std::string`. */
  predicate LexLess(a: string, b: string) {
    b != [] && (a == [] || a[0] < b[0] || (a[0] == b[0] && LexLess(a[1..], b[1..])))
  }

  lemma {:induction false} LexTransitive(a: string, b: string, c: string)
    requires LexLess(a, b) && LexLess(b, c)
    ensures LexLess(a, c)
  {
    if a != [] && a[0] == b[0] && b[0] == c[0] {
      LexTransitive(a[1..], b[1..], c[1..]);
    }
  }

  lemma {:induction false} LexTotal(a: string, b: string)
    ensures !LexLess(a, a)
    ensures a == b || LexLess(a, b) || LexLess(b, a)
  {
    if a != [] {
      LexTotal(a[1..], if b == [] then b else b[1..]);
      if b != [] && a[0] == b[0] && a[1..] == b[1..] {
        assert a == [a[0]] + a[1..] == b;
      }
    }
  }

  lemma LexStrictTotal()
    ensures StrictTotal(LexLess)
  {
    forall a, b
      ensures !LexLess(a, a) && (a == b || LexLess(a, b) || LexLess(b, a))
    {
      LexTotal(a, b);
    }
    forall a, b, c | LexLess(a, b) && LexLess(b, c)
      ensures LexLess(a, c)
    {
      LexTransitive(a, b, c);
    }
  }
}
