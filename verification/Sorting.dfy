/** Python's stable sort and the ORDER BY of the queries, as a function of the rows. */
module Sorting {
  import opened Sums

  ghost predicate TotalPreorder<T(!new)>(le: (T, T) -> bool) {
    && (forall x, y :: le(x, y) || le(y, x))
    && (forall x, y, z :: le(x, y) && le(y, z) ==> le(x, z))
  }

  ghost predicate SortedBy<T>(s: seq<T>, le: (T, T) -> bool) {
    forall i, j :: 0 <= i < j < |s| ==> le(s[i], s[j])
  }

  function Filter<T>(s: seq<T>, keep: T -> bool): seq<T> {
    if s == [] then [] else (if keep(s[0]) then [s[0]] else []) + Filter(s[1..], keep)
  }

  function Insert<T>(x: T, s: seq<T>, le: (T, T) -> bool): seq<T> {
    if s == [] || le(x, s[0]) then [x] + s else [s[0]] + Insert(x, s[1..], le)
  }

  function Sort<T>(s: seq<T>, le: (T, T) -> bool): seq<T> {
    if s == [] then [] else Insert(s[0], Sort(s[1..], le), le)
  }

  lemma {:induction false} InsertPermutes<T>(x: T, s: seq<T>, le: (T, T) -> bool)
    ensures multiset(Insert(x, s, le)) == multiset{x} + multiset(s)
  {
    if !(s == [] || le(x, s[0])) {
      InsertPermutes(x, s[1..], le);
      assert s == [s[0]] + s[1..];
    }
  }

  /** Sorting loses and invents no row. */
  lemma {:induction false} SortPermutes<T>(s: seq<T>, le: (T, T) -> bool)
    ensures multiset(Sort(s, le)) == multiset(s)
    ensures |Sort(s, le)| == |s|
    ensures forall x :: x in Sort(s, le) <==> x in s
  {
    if s != [] {
      SortPermutes(s[1..], le);
      InsertPermutes(s[0], Sort(s[1..], le), le);
      assert s == [s[0]] + s[1..];
      assert multiset(Sort(s, le)) == multiset(s);
    }
    assert |multiset(Sort(s, le))| == |multiset(s)|;
    forall x
      ensures x in Sort(s, le) <==> x in s
    {
      assert x in multiset(Sort(s, le)) <==> x in multiset(s);
    }
  }

  lemma {:induction false} InsertSorted<T(!new)>(x: T, s: seq<T>, le: (T, T) -> bool)
    requires TotalPreorder(le) && SortedBy(s, le)
    ensures SortedBy(Insert(x, s, le), le)
  {
    if s == [] {
    } else if le(x, s[0]) {
      var r := [x] + s;
      forall i, j | 0 <= i < j < |r|
        ensures le(r[i], r[j])
      {
        if i == 0 && j > 1 {
          assert le(s[0], s[j - 1]);
        }
      }
    } else {
      InsertSorted(x, s[1..], le);
      InsertPermutes(x, s[1..], le);
      var t := Insert(x, s[1..], le);
      forall j | 0 <= j < |t|
        ensures le(s[0], t[j])
      {
        assert t[j] in multiset(t);
        assert t[j] == x || t[j] in s[1..];
      }
    }
  }

  lemma {:induction false} SortSorts<T(!new)>(s: seq<T>, le: (T, T) -> bool)
    requires TotalPreorder(le)
    ensures SortedBy(Sort(s, le), le)
  {
    if s != [] {
      SortSorts(s[1..], le);
      InsertSorted(s[0], Sort(s[1..], le), le);
    }
  }

  lemma FilterCons<T>(x: T, s: seq<T>, keep: T -> bool)
    ensures Filter([x] + s, keep) == if keep(x) then [x] + Filter(s, keep) else Filter(s, keep)
  {
    assert ([x] + s)[1..] == s;
  }

  lemma FilterStep<T>(s: seq<T>, keep: T -> bool)
    requires s != []
    ensures Filter(s, keep) == if keep(s[0]) then [s[0]] + Filter(s[1..], keep) else Filter(s[1..], keep)
  {
  }

  lemma SortStep<T>(x: T, s: seq<T>, le: (T, T) -> bool)
    ensures Sort([x] + s, le) == Insert(x, Sort(s, le), le)
  {
    assert ([x] + s)[1..] == s;
  }

  lemma InsertStep<T>(x: T, y: T, s: seq<T>, le: (T, T) -> bool)
    ensures Insert(x, [y] + s, le) == if le(x, y) then [x, y] + s else [y] + Insert(x, s, le)
  {
    assert ([y] + s)[1..] == s;
    assert [x] + ([y] + s) == [x, y] + s;
  }

  lemma {:induction false} InsertStable<T>(x: T, s: seq<T>, le: (T, T) -> bool, tie: T -> bool)
    requires forall y :: y in s && tie(x) && tie(y) ==> le(x, y)
    ensures Filter(Insert(x, s, le), tie) == if tie(x) then [x] + Filter(s, tie) else Filter(s, tie)
  {
    if s == [] || le(x, s[0]) {
      FilterCons(x, s, tie);
    } else {
      InsertStable(x, s[1..], le, tie);
      FilterCons(s[0], Insert(x, s[1..], le), tie);
      assert !tie(x) || !tie(s[0]);
    }
  }

  /** Stability: rows that tie with each other keep the order they had before the sort. */
  lemma {:induction false} SortStable<T>(s: seq<T>, le: (T, T) -> bool, tie: T -> bool)
    requires forall x, y :: x in s && y in s && tie(x) && tie(y) ==> le(x, y)
    ensures Filter(Sort(s, le), tie) == Filter(s, tie)
  {
    if s != [] {
      SortStable(s[1..], le, tie);
      SortPermutes(s[1..], le);
      forall y | y in Sort(s[1..], le) && tie(s[0]) && tie(y)
        ensures le(s[0], y)
      {
        assert y in multiset(Sort(s[1..], le));
        assert y in s[1..];
      }
      InsertStable(s[0], Sort(s[1..], le), le, tie);
    }
  }

  lemma {:induction false} FilterIn<T>(s: seq<T>, keep: T -> bool)
    ensures forall x :: x in Filter(s, keep) <==> x in s && keep(x)
  {
    if s != [] {
      FilterIn(s[1..], keep);
      assert s == [s[0]] + s[1..];
    }
  }

  lemma FilterNone<T>(keep: T -> bool)
    ensures Filter([], keep) == []
  {
  }

  lemma Reassociate<T>(x: T, a: seq<T>, b: seq<T>)
    ensures [x] + (a + b) == [x] + a + b
  {
  }

  lemma {:induction false} FilterConcat<T>(x: seq<T>, y: seq<T>, keep: T -> bool)
    ensures Filter(x + y, keep) == Filter(x, keep) + Filter(y, keep)
  {
    hide Filter;
    if x == [] {
      assert x + y == y;
      FilterNone(keep);
    } else {
      var first, rest := x[0], x[1..];
      FilterConcat(rest, y, keep);
      assert x == [first] + rest;
      Reassociate(first, rest, y);
      FilterCons(first, rest + y, keep);
      FilterCons(first, rest, keep);
      Reassociate(first, Filter(rest, keep), Filter(y, keep));
    }
  }

  lemma {:induction false} FilterTwice<T>(s: seq<T>, one: T -> bool, two: T -> bool, both: T -> bool)
    requires forall x :: x in s ==> (both(x) <==> one(x) && two(x))
    ensures Filter(Filter(s, one), two) == Filter(s, both)
  {
    if s != [] {
      FilterTwice(s[1..], one, two, both);
      FilterStep(s, one);
      FilterStep(s, both);
      FilterCons(s[0], Filter(s[1..], one), two);
    }
  }

  lemma {:induction false} InsertFilter<T(!new)>(x: T, s: seq<T>, le: (T, T) -> bool, keep: T -> bool)
    requires TotalPreorder(le) && SortedBy(s, le)
    ensures Filter(Insert(x, s, le), keep) == if keep(x) then Insert(x, Filter(s, keep), le) else Filter(s, keep)
  {
    if s == [] || le(x, s[0]) {
      FilterCons(x, s, keep);
      FilterIn(s, keep);
      if Filter(s, keep) != [] {
        assert Filter(s, keep)[0] in s;
      }
    } else {
      InsertFilter(x, s[1..], le, keep);
      FilterCons(s[0], Insert(x, s[1..], le), keep);
      FilterStep(s, keep);
      InsertStep(x, s[0], Filter(s[1..], keep), le);
    }
  }

  /** Filtering a sorted table is sorting the filtered one. */
  lemma {:induction false} SortFilter<T(!new)>(s: seq<T>, le: (T, T) -> bool, keep: T -> bool)
    requires TotalPreorder(le)
    ensures Filter(Sort(s, le), keep) == Sort(Filter(s, keep), le)
  {
    if s != [] {
      SortFilter(s[1..], le, keep);
      SortSorts(s[1..], le);
      InsertFilter(s[0], Sort(s[1..], le), le, keep);
      FilterStep(s, keep);
      SortStep(s[0], Filter(s[1..], keep), le);
    }
  }

  /** SELECT DISTINCT: one copy of each value. */
  function Dedup<T(==)>(s: seq<T>): seq<T> {
    if s == [] then [] else if s[0] in s[1..] then Dedup(s[1..]) else [s[0]] + Dedup(s[1..])
  }

  lemma {:induction false} DedupDistinct<T>(s: seq<T>)
    ensures forall x :: x in Dedup(s) <==> x in s
    ensures forall x :: multiset(Dedup(s))[x] <= 1
  {
    if s != [] {
      DedupDistinct(s[1..]);
      assert s == [s[0]] + s[1..];
      assert s[0] !in s[1..] ==> s[0] !in multiset(Dedup(s[1..]));
    }
  }

  lemma SingleMeansDistinct<T>(s: seq<T>)
    requires forall x :: multiset(s)[x] <= 1
    ensures Distinct(s)
  {
    forall i, j | 0 <= i < j < |s|
      ensures s[i] != s[j]
    {
      assert s == s[..i] + [s[i]] + s[i + 1..j] + [s[j]] + s[j + 1..];
      assert multiset(s) == multiset(s[..i]) + multiset{s[i]} + multiset(s[i + 1..j]) + multiset{s[j]}
             + multiset(s[j + 1..]);
      assert multiset(s)[s[i]] <= 1;
    }
  }

  /** Sorting the distinct values of s gives each of them once. */
  lemma SortedDistinct<T>(s: seq<T>, le: (T, T) -> bool)
    ensures Distinct(Sort(Dedup(s), le))
    ensures forall x :: x in Sort(Dedup(s), le) <==> x in s
  {
    DedupDistinct(s);
    SortPermutes(Dedup(s), le);
    SingleMeansDistinct(Sort(Dedup(s), le));
    forall x
      ensures x in Sort(Dedup(s), le) <==> x in s
    {
      assert x in Sort(Dedup(s), le) <==> x in Dedup(s);
    }
  }

  /** Code-point order of strings, as Python compares them. */
  predicate StringLe(a: string, b: string) {
    a == [] || (b != [] && (a[0] < b[0] || (a[0] == b[0] && StringLe(a[1..], b[1..]))))
  }

  lemma {:induction false} StringLeTotal(a: string, b: string)
    ensures StringLe(a, b) || StringLe(b, a)
  {
    if a != [] && b != [] {
      StringLeTotal(a[1..], b[1..]);
    }
  }

  lemma {:induction false} StringLeTransitive(a: string, b: string, c: string)
    requires StringLe(a, b) && StringLe(b, c)
    ensures StringLe(a, c)
  {
    if a != [] && a[0] == b[0] && b[0] == c[0] {
      StringLeTransitive(a[1..], b[1..], c[1..]);
    }
  }

  /** One string is a prefix of the other, or at the first place they differ its character is the smaller. */
  lemma {:induction false} StringLeIff(a: string, b: string)
    ensures StringLe(a, b) <==>
            a <= b || exists k :: 0 <= k < |a| && k < |b| && a[..k] == b[..k] && a[k] < b[k]
  {
    if a != [] && b != [] {
      StringLeIff(a[1..], b[1..]);
      if a[0] == b[0] {
        assert a == [a[0]] + a[1..] && b == [b[0]] + b[1..];
        if k :| 0 <= k < |a[1..]| && k < |b[1..]| && a[1..][..k] == b[1..][..k] && a[1..][k] < b[1..][k] {
          assert a[..k + 1] == [a[0]] + a[1..][..k] && b[..k + 1] == [b[0]] + b[1..][..k];
          assert a[k + 1] < b[k + 1];
        }
        if k :| 0 <= k < |a| && k < |b| && a[..k] == b[..k] && a[k] < b[k] {
          assert a[..k][1..] == a[1..][..k - 1] && b[..k][1..] == b[1..][..k - 1];
          assert a[1..][k - 1] < b[1..][k - 1];
        }
      } else if a[0] < b[0] {
        assert a[..0] == b[..0];
      } else {
        assert forall k :: 0 < k <= |a| && k <= |b| ==> a[..k][0] != b[..k][0];
      }
    }
  }

  lemma StringLeOrder()
    ensures TotalPreorder(StringLe)
  {
    forall a, b
      ensures StringLe(a, b) || StringLe(b, a)
    {
      StringLeTotal(a, b);
    }
    forall a, b, c | StringLe(a, b) && StringLe(b, c)
      ensures StringLe(a, c)
    {
      StringLeTransitive(a, b, c);
    }
  }
}
