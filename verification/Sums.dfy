/** Sums over rows: what SQL's SUM and Python's sum() compute, and how sums regroup. */
module Sums {

  /** SUM(f) over the rows of s; 0 on no rows, as `agg["x"] or Decimal("0")` yields. */
  function Sum<T>(s: seq<T>, f: T -> int): int {
    if s == [] then 0 else f(s[0]) + Sum(s[1..], f)
  }

  lemma {:induction false} SumConcat<T>(a: seq<T>, b: seq<T>, f: T -> int)
    ensures Sum(a + b, f) == Sum(a, f) + Sum(b, f)
  {
    if a == [] {
      assert a + b == b;
    } else {
      assert (a + b)[1..] == a[1..] + b;
      SumConcat(a[1..], b, f);
    }
  }

  lemma SumStep<T>(s: seq<T>, f: T -> int)
    requires s != []
    ensures Sum(s, f) == f(s[0]) + Sum(s[1..], f)
  {
  }

  lemma SumOne<T>(x: T, f: T -> int)
    ensures Sum([x], f) == f(x)
  {
    assert Sum([x][1..], f) == 0;
  }

  lemma SumSnoc<T>(s: seq<T>, x: T, f: T -> int)
    ensures Sum(s + [x], f) == Sum(s, f) + f(x)
  {
    SumConcat(s, [x], f);
    SumOne(x, f);
  }

  lemma SumTwo<T>(x: T, y: T, f: T -> int)
    ensures Sum([x, y], f) == f(x) + f(y)
  {
    assert [x, y] == [x] + [y];
    SumSnoc([x], y, f);
    SumOne(x, f);
  }

  lemma SumTake<T>(s: seq<T>, i: nat, f: T -> int)
    requires i < |s|
    ensures Sum(s[..i + 1], f) == Sum(s[..i], f) + f(s[i])
  {
    assert s[..i + 1] == s[..i] + [s[i]];
    SumSnoc(s[..i], s[i], f);
  }

  lemma SumUpdate<T>(s: seq<T>, i: nat, x: T, f: T -> int)
    requires i < |s|
    ensures Sum(s[i := x], f) == Sum(s, f) - f(s[i]) + f(x)
  {
    assert s == s[..i] + [s[i]] + s[i + 1..];
    assert s[i := x] == s[..i] + [x] + s[i + 1..];
    SumConcat(s[..i] + [s[i]], s[i + 1..], f);
    SumConcat(s[..i] + [x], s[i + 1..], f);
    SumSnoc(s[..i], s[i], f);
    SumSnoc(s[..i], x, f);
  }

  lemma {:induction false} SumAdd<T>(s: seq<T>, f: T -> int, g: T -> int, h: T -> int)
    requires forall x :: x in s ==> f(x) == g(x) + h(x)
    ensures Sum(s, f) == Sum(s, g) + Sum(s, h)
  {
    if s != [] {
      SumAdd(s[1..], f, g, h);
    }
  }

  lemma {:induction false} SumSame<T>(s: seq<T>, f: T -> int, g: T -> int)
    requires forall x :: x in s ==> f(x) == g(x)
    ensures Sum(s, f) == Sum(s, g)
  {
    if s != [] {
      SumSame(s[1..], f, g);
    }
  }

  lemma {:induction false} SumScaled<T>(s: seq<T>, f: T -> int, g: T -> int, sign: int)
    requires sign == 1 || sign == -1
    requires forall x :: x in s ==> f(x) == sign * g(x)
    ensures Sum(s, f) == sign * Sum(s, g)
  {
    if s != [] {
      SumScaled(s[1..], f, g, sign);
    }
  }

  lemma {:induction false} SumVia<A, B>(s: seq<A>, t: seq<B>, f: A -> int, g: B -> int)
    requires |s| == |t| && forall i :: 0 <= i < |s| ==> f(s[i]) == g(t[i])
    ensures Sum(s, f) == Sum(t, g)
  {
    if s != [] {
      SumVia(s[1..], t[1..], f, g);
    }
  }

  lemma {:induction false} SumZero<T>(s: seq<T>, f: T -> int)
    requires forall x :: x in s ==> f(x) == 0
    ensures Sum(s, f) == 0
  {
    if s != [] {
      SumZero(s[1..], f);
    }
  }

  /** A sum of non-negative terms is at least each of them, so it is 0 exactly when all are. */
  lemma {:induction false} SumNonNegative<T>(s: seq<T>, f: T -> int)
    requires forall x :: x in s ==> f(x) >= 0
    ensures Sum(s, f) >= 0
    ensures forall x :: x in s ==> f(x) <= Sum(s, f)
  {
    if s != [] {
      SumNonNegative(s[1..], f);
    }
  }

  lemma {:induction false} SumMonotone<T>(s: seq<T>, f: T -> int, g: T -> int)
    requires forall x :: x in s ==> f(x) <= g(x)
    ensures Sum(s, f) <= Sum(s, g)
  {
    if s != [] {
      SumMonotone(s[1..], f, g);
    }
  }

  /** Where x stands in s, and what is left without it. */
  lemma TakeOut<T>(s: seq<T>, x: T) returns (i: nat)
    requires x in multiset(s)
    ensures i < |s| && s == s[..i] + [x] + s[i + 1..]
    ensures multiset(s[..i] + s[i + 1..]) == multiset(s) - multiset{x}
  {
    i :| 0 <= i < |s| && s[i] == x;
    assert s == s[..i] + [x] + s[i + 1..];
  }

  /** The order of the rows does not matter. */
  lemma {:induction false} SumPermutation<T>(a: seq<T>, b: seq<T>, f: T -> int)
    requires multiset(a) == multiset(b)
    ensures Sum(a, f) == Sum(b, f)
  {
    if a == [] {
      assert |multiset(b)| == 0;
    } else {
      var x := a[0];
      assert a == [x] + a[1..];
      var i := TakeOut(b, x);
      SumPermutation(a[1..], b[..i] + b[i + 1..], f);
      SumConcat(b[..i] + [x], b[i + 1..], f);
      SumSnoc(b[..i], x, f);
      SumConcat(b[..i], b[i + 1..], f);
    }
  }

  ghost predicate Distinct<T>(s: seq<T>) {
    forall i, j :: 0 <= i < j < |s| ==> s[i] != s[j]
  }

  function KeyIf<T, K(==)>(key: T -> K, k: K, f: T -> int): T -> int {
    x => if key(x) == k then f(x) else 0
  }

  /** The part of the sum that rows with key k contribute: one row of a GROUP BY. */
  function GroupSum<T, K(==)>(s: seq<T>, key: T -> K, k: K, f: T -> int): int {
    Sum(s, KeyIf(key, k, f))
  }

  function GroupOf<T, K(==)>(s: seq<T>, key: T -> K, f: T -> int): K -> int {
    k => GroupSum(s, key, k, f)
  }

  /** GROUP BY conserves: the groups' sums add up to the ungrouped sum of the rows whose key is listed. */
  lemma {:induction false} SumByGroup<T, K>(s: seq<T>, key: T -> K, keys: seq<K>, f: T -> int, g: T -> int)
    requires Distinct(keys)
    requires forall x :: x in s ==> g(x) == if key(x) in keys then f(x) else 0
    ensures Sum(keys, GroupOf(s, key, f)) == Sum(s, g)
  {
    if s == [] {
      SumZero(keys, GroupOf(s, key, f));
    } else {
      var x := s[0];
      var head := k => if key(x) == k then f(x) else 0;
      SumAdd(keys, GroupOf(s, key, f), head, GroupOf(s[1..], key, f));
      SumOneKey(keys, key(x), f(x), head);
      SumByGroup(s[1..], key, keys, f, g);
    }
  }

  lemma {:induction false} SumOneKey<K>(keys: seq<K>, k: K, v: int, head: K -> int)
    requires Distinct(keys)
    requires forall j :: j in keys ==> head(j) == if j == k then v else 0
    ensures Sum(keys, head) == if k in keys then v else 0
  {
    if keys != [] {
      if keys[0] == k {
        assert k !in keys[1..];
        SumZero(keys[1..], head);
      } else {
        SumOneKey(keys[1..], k, v, head);
      }
    }
  }
}
