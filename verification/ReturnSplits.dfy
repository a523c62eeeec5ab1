/** How much more a sale line returned in parts can refund than the line cost. */
module ReturnSplits {
  import opened Rounding
  import opened SaleArithmetic
  import opened Sums
  import opened ValueObjects

  /** Parts that together return the whole line. */
  ghost predicate Splits(parts: seq<Line>, l: Line) {
    PartsOf(parts, l) && Returned(parts) == l.quantity
  }

  function At(l: Line, q: int): Line { l.(quantity := q) }

  /** The most that splits of q units refund when the first part returns at most x of them. */
  function Most(l: Line, q: nat, x: nat): int
    requires x <= q && (q > 0 ==> x > 0)
    decreases q, x
  {
    if q == 0 then 0
    else
      var here := At(l, x).Total() + Most(l, q - x, q - x);
      if x == 1 then here
      else
        var smaller := Most(l, q, x - 1);
        if here >= smaller then here else smaller
  }

  function MostRefund(l: Line): int
    requires l.quantity > 0
  {
    Most(l, l.quantity, l.quantity)
  }

  lemma {:induction false} FirstPart(l: Line, q: nat, x: nat, y: nat)
    requires 1 <= x <= y <= q
    ensures At(l, x).Total() + Most(l, q - x, q - x) <= Most(l, q, y)
    decreases y
  {
    hide Line.Total;
    if x < y {
      FirstPart(l, q, x, y - 1);
    }
  }

  lemma {:induction false} SplitBounded(parts: seq<Line>, l: Line)
    requires PartsOf(parts, l)
    ensures Returned(parts) >= |parts| && Refund(parts) <= Most(l, Returned(parts), Returned(parts))
  {
    hide Line.Total, Most;
    if parts == [] {
      MostOfNothing(l);
    } else {
      var first := parts[0];
      assert first in parts && first == At(l, first.quantity);
      SplitBounded(parts[1..], l);
      FirstPart(l, Returned(parts), first.quantity, Returned(parts));
    }
  }

  lemma MostOfNothing(l: Line)
    ensures Most(l, 0, 0) == 0
  {
  }

  lemma OneMore(l: Line, x: nat, rest: seq<Line>)
    requires l.Valid() && PartsOf(rest, l) && x > 0
    ensures var parts := [At(l, x)] + rest;
      PartsOf(parts, l) && Returned(parts) == x + Returned(rest) && Refund(parts) == At(l, x).Total() + Refund(rest)
  {
    hide Line.Total;
    SumConcat([At(l, x)], rest, (r: Line) => r.Total());
    SumConcat([At(l, x)], rest, (r: Line) => r.quantity);
    SumOne(At(l, x), (r: Line) => r.Total());
    SumOne(At(l, x), (r: Line) => r.quantity);
  }

  lemma {:induction false} SplitAttained(l: Line, q: nat, x: nat) returns (parts: seq<Line>)
    requires l.Valid() && x <= q && (q > 0 ==> x > 0)
    ensures PartsOf(parts, l) && Returned(parts) == q && Refund(parts) == Most(l, q, x)
    decreases q, x
  {
    hide Line.Total;
    if q == 0 {
      parts := [];
    } else if x > 1 && Most(l, q, x) == Most(l, q, x - 1) {
      parts := SplitAttained(l, q, x - 1);
    } else {
      var rest := SplitAttained(l, q - x, q - x);
      parts := [At(l, x)] + rest;
      OneMore(l, x, rest);
    }
  }

  /** MostRefund is the greatest refund over all splits of the line, at any discount and tax. */
  lemma MostRefundIsGreatest(l: Line)
    requires l.Valid()
    ensures forall parts :: Splits(parts, l) ==> Refund(parts) <= MostRefund(l)
    ensures exists parts :: Splits(parts, l) && Refund(parts) == MostRefund(l)
  {
    hide Line.Total, Most;
    forall parts | Splits(parts, l)
      ensures Refund(parts) <= MostRefund(l)
    {
      SplitBounded(parts, l);
    }
    var best := SplitAttained(l, l.quantity, l.quantity);
    assert Splits(best, l);
  }

  /** Some split refunds more than the line cost exactly when MostRefund exceeds its total. */
  lemma OverRefundIff(l: Line)
    requires l.Valid()
    ensures (exists parts :: Splits(parts, l) && Refund(parts) > l.Total()) <==> MostRefund(l) > l.Total()
  {
    hide Line.Total, MostRefund, Splits;
    MostRefundIsGreatest(l);
  }

  // ----- lines without discount and tax ----------------------------------------

  predicate Plain(l: Line) { l.discountPercent == 0.0 && l.taxRatePercent == 0.0 }

  /** x / 10000 to the nearest unit, halves up. */
  function Units(x: nat): nat { (x + 5000) / 10000 }

  /** The part of the price below one whole unit per unit of quantity. */
  function Odd(l: Line): (m: nat)
    requires l.unitPrice.amount >= 0
    ensures m < 10000
  {
    l.unitPrice.amount % 10000
  }

  /** The least quantity whose odd price rounds up to a unit. */
  function Threshold(m: nat): (t: nat)
    requires 0 < m < 10000
    ensures t > 0 && (t - 1) * m < 5000 <= t * m
  {
    var t := (5000 + m - 1) / m;
    assert t * m <= 5000 + m - 1 < t * m + m;
    t
  }

  lemma UnitsRound(x: nat)
    ensures RoundHalfUp(x as real / 10000.0) == Units(x)
  {
    var r := x as real / 10000.0;
    assert r + 0.5 == (x + 5000) as real / 10000.0;
    var n := Units(x);
    assert 10000 * n <= x + 5000 < 10000 * n + 10000;
    assert n as real <= r + 0.5 < n as real + 1.0;
  }

  lemma PlainTotal(l: Line, q: nat)
    requires l.Valid() && Plain(l)
    ensures At(l, q).Total() == l.unitPrice.amount / 10000 * q + Units(Odd(l) * q)
  {
    var p, a, m := l.unitPrice.amount, l.unitPrice.amount / 10000, Odd(l);
    assert p as real * (q as real / 10000.0) == (p * q) as real / 10000.0;
    UnitsRound(p * q);
    Multiply(a, m, q);
  }

  lemma Multiply(a: nat, m: nat, q: nat)
    ensures (10000 * a + m) * q == 10000 * (a * q) + m * q
  {
  }

  /** A part's odd price rounds up at most once per threshold quantity. */
  lemma UnitsBounded(m: nat, q: nat, t: nat, k: nat)
    requires 0 < m < 10000 && t == Threshold(m) && k == Units(m * q)
    ensures k * t <= q
  {
    assert 10000 * k <= m * q + 5000;
    if k * t > q && k > 0 {
      if t == 1 {
        SmallProduct(m, q);
        assert false;
      } else {
        LongPart(m, q, t, k);
        assert false;
      }
    }
  }

  lemma SmallProduct(m: nat, q: nat)
    requires m < 10000
    ensures m * q <= 9999 * q
  {
  }

  lemma LongPart(m: nat, q: nat, t: nat, k: nat)
    requires (t - 1) * m < 5000 && t >= 2 && k > 0 && 10000 * k <= m * q + 5000
    ensures k * t <= q
  {
    if q <= k * t - 1 {
      var u := (t - 1) * m;
      Grows(1, t - 1, m);
      Grows(q, k * t - 1, m);
      Regroup(m, k, t);
      Grows(u, 4999, k);
      Grows(m, 4999, k - 1);
    }
  }

  lemma Grows(x: nat, y: nat, z: nat)
    requires x <= y
    ensures x * z <= y * z
  {
  }

  lemma Regroup(m: nat, k: nat, t: nat)
    ensures (k * t - 1) * m == ((t - 1) * m) * k + m * (k - 1)
  {
    assert (k * t) * m == (t * m) * k;
  }

  lemma Steps(x: int, y: int, t: nat)
    ensures x > y ==> x * t >= y * t + t
  {
    var k := x - y - 1;
    assert x * t == (y + 1 + k) * t == y * t + t + k * t;
    assert k >= 0 ==> k * t >= 0;
  }

  lemma QuotientBounds(q: nat, t: nat)
    requires t > 0
    ensures q / t * t <= q < q / t * t + t
  {
  }

  lemma Quotient(x: int, t: nat, q: nat)
    requires t > 0 && x * t <= q
    ensures x <= q / t
  {
    QuotientBounds(q, t);
    Steps(x, q / t, t);
  }

  lemma QuotientIs(n: nat, t: nat, q: nat)
    requires n * t <= q < n * t + t
    ensures q / t == n
  {
    QuotientBounds(q, t);
    Steps(q / t, n, t);
    Steps(n, q / t, t);
  }

  lemma {:induction false} PlainSplitBounded(parts: seq<Line>, l: Line)
    requires l.Valid() && Plain(l) && Odd(l) > 0 && PartsOf(parts, l)
    ensures (Refund(parts) - l.unitPrice.amount / 10000 * Returned(parts)) * Threshold(Odd(l)) <= Returned(parts)
  {
    hide Line.Total, Threshold, Odd;
    if parts != [] {
      var a, m, q, rest := l.unitPrice.amount / 10000, Odd(l), parts[0].quantity, Returned(parts[1..]);
      assert parts[0] in parts && parts[0] == At(l, q);
      PlainSplitBounded(parts[1..], l);
      PlainTotal(l, q);
      UnitsBounded(m, q, Threshold(m), Units(m * q));
      Distributes(a, q, rest);
      Distributes(Threshold(m), Units(m * q), Refund(parts[1..]) - a * rest);
    }
  }

  lemma Distributes(x: int, y: int, z: int)
    ensures x * (y + z) == x * y + x * z
    ensures (y + z) * x == y * x + z * x
  {
  }

  /** Parts of the threshold quantity, the last one taking what is left over. */
  lemma {:induction false} ThresholdSplit(l: Line, q: nat) returns (parts: seq<Line>)
    requires l.Valid() && Plain(l) && Odd(l) > 0 && q > 0
    ensures PartsOf(parts, l) && Returned(parts) == q
    ensures Refund(parts) >= l.unitPrice.amount / 10000 * q + q / Threshold(Odd(l))
    decreases q
  {
    hide Line.Total, Threshold, PartsOf, Returned, Refund;
    var t := Threshold(Odd(l));
    if q < 2 * t {
      parts := [At(l, q)] + [];
      NoParts(l);
      OneMore(l, q, []);
      WholePart(l, q);
    } else {
      var rest := ThresholdSplit(l, q - t);
      parts := [At(l, t)] + rest;
      OneMore(l, t, rest);
      WholePart(l, t);
      Distributes(l.unitPrice.amount / 10000, t, q - t);
      OneQuotientMore(q, t);
    }
  }

  lemma NoParts(l: Line)
    ensures PartsOf([], l) && Returned([]) == 0 && Refund([]) == 0
  {
  }

  lemma OneQuotientMore(q: nat, t: nat)
    requires 0 < t <= q
    ensures q / t == (q - t) / t + 1
  {
    var d := (q - t) / t;
    QuotientBounds(q - t, t);
    assert (d + 1) * t == d * t + t;
    QuotientIs(d + 1, t, q);
  }

  /** A part shorter than two thresholds is worth its whole-unit price, and a unit more from the threshold on. */
  lemma WholePart(l: Line, q: nat)
    requires l.Valid() && Plain(l) && Odd(l) > 0 && q < 2 * Threshold(Odd(l))
    ensures At(l, q).Total() >= l.unitPrice.amount / 10000 * q + q / Threshold(Odd(l))
  {
    hide Line.Total, Threshold;
    var t := Threshold(Odd(l));
    PlainTotal(l, q);
    if q < t {
      QuotientIs(0, t, q);
    } else {
      QuotientIs(1, t, q);
      Grows(t, q, Odd(l));
      assert Units(Odd(l) * q) >= 1;
    }
  }

  lemma {:induction false} EvenSplit(parts: seq<Line>, l: Line)
    requires l.Valid() && Plain(l) && Odd(l) == 0 && PartsOf(parts, l)
    ensures Refund(parts) == l.unitPrice.amount / 10000 * Returned(parts)
  {
    hide Line.Total, Odd;
    if parts != [] {
      var q := parts[0].quantity;
      assert parts[0] in parts && parts[0] == At(l, q);
      EvenSplit(parts[1..], l);
      PlainTotal(l, q);
      Distributes(l.unitPrice.amount / 10000, q, Returned(parts[1..]));
    }
  }

  /** Without discount and tax the most a line can be split into is its whole-unit price plus one unit per
      threshold quantity; so a split over-refunds exactly when that exceeds the odd price rounded once. */
  lemma PlainOverRefundIff(l: Line)
    requires l.Valid() && Plain(l)
    ensures MostRefund(l)
         == l.unitPrice.amount / 10000 * l.quantity + if Odd(l) == 0 then 0 else l.quantity / Threshold(Odd(l))
    ensures (exists parts :: Splits(parts, l) && Refund(parts) > l.Total()) <==>
            Odd(l) != 0 && l.quantity / Threshold(Odd(l)) > Units(Odd(l) * l.quantity)
  {
    hide Line.Total, MostRefund, Threshold, Odd;
    var a, q := l.unitPrice.amount / 10000, l.quantity;
    MostRefundIsGreatest(l);
    OverRefundIff(l);
    PlainTotal(l, q);
    assert At(l, q) == l;
    var best: seq<Line> :| Splits(best, l) && Refund(best) == MostRefund(l);
    if Odd(l) == 0 {
      EvenSplit(best, l);
    } else {
      PlainSplitBounded(best, l);
      Quotient(MostRefund(l) - a * q, Threshold(Odd(l)), q);
      var parts := ThresholdSplit(l, q);
      assert Splits(parts, l);
    }
  }

  // ----- parts free of rounding --------------------------------------------------

  /** Subtotal, discount and tax come out without rounding. */
  predicate Unrounded(l: Line) {
    && l.Subtotal() as real == Product(l.unitPrice.amount as real, l.quantity as real / 10000.0)
    && l.Discount() as real == Product(l.Subtotal() as real, l.discountPercent / 100.0)
    && l.Tax() as real == Product(l.AfterDiscount() as real, l.taxRatePercent / 100.0)
  }

  function Subtotals(parts: seq<Line>): int { Sum(parts, (r: Line) => r.Subtotal()) }

  function Discounts(parts: seq<Line>): int { Sum(parts, (r: Line) => r.Discount()) }

  function Taxes(parts: seq<Line>): int { Sum(parts, (r: Line) => r.Tax()) }

  lemma {:induction false} UnroundedSums(parts: seq<Line>, l: Line)
    requires PartsOf(parts, l) && forall r :: r in parts ==> Unrounded(r)
    ensures Subtotals(parts) as real == Product(l.unitPrice.amount as real / 10000.0, Returned(parts) as real)
    ensures Discounts(parts) as real == Product(l.discountPercent / 100.0, Subtotals(parts) as real)
    ensures Taxes(parts) as real == Product(l.taxRatePercent / 100.0, (Subtotals(parts) - Discounts(parts)) as real)
    ensures Refund(parts) == Subtotals(parts) - Discounts(parts) + Taxes(parts)
  {
    hide Product, Line.Subtotal, Line.Discount, Line.Tax;
    var p, d, t := l.unitPrice.amount as real / 10000.0, l.discountPercent / 100.0, l.taxRatePercent / 100.0;
    if parts == [] {
      ProductZero(p);
      ProductZero(d);
      ProductZero(t);
    } else {
      var first, rest := parts[0], parts[1..];
      assert first in parts;
      UnroundedSums(rest, l);
      PerUnit(l.unitPrice.amount, first.quantity);
      Swap(first.Subtotal() as real, d);
      Swap(first.AfterDiscount() as real, t);
      ProductAdds(p, first.quantity, Returned(rest));
      ProductAdds(d, first.Subtotal(), Subtotals(rest));
      ProductAdds(t, first.AfterDiscount(), Subtotals(rest) - Discounts(rest));
    }
  }

  lemma PerUnit(price: int, q: int)
    ensures Product(price as real, q as real / 10000.0) == Product(price as real / 10000.0, q as real)
  {
  }

  lemma Swap(x: real, y: real)
    ensures Product(x, y) == Product(y, x)
  {
  }

  lemma ExactTimes(units: int, f: real, n: int)
    requires Product(units as real, f) == n as real
    ensures Times(units, f) == n
  {
    RoundExact(n);
  }

  lemma ExactPercentage(units: int, percent: real, n: int)
    requires Product(percent / 100.0, units as real) == n as real
    ensures Product(units as real, percent / 100.0) == n as real
    ensures (if percent == 0.0 then 0 else Times(units, percent / 100.0)) == n
  {
    Swap(units as real, percent / 100.0);
    ExactTimes(units, percent / 100.0, n);
  }

  /** Parts free of rounding refund together exactly what the line cost, which is itself free of rounding. */
  lemma UnroundedSplitIsExact(parts: seq<Line>, l: Line)
    requires l.Valid() && Splits(parts, l) && forall r :: r in parts ==> Unrounded(r)
    ensures Unrounded(l) && Refund(parts) == l.Total()
  {
    hide Product, Times, Subtotals, Discounts, Taxes, Refund;
    var sub, disc := Subtotals(parts), Discounts(parts);
    UnroundedSums(parts, l);
    PerUnit(l.unitPrice.amount, l.quantity);
    ExactTimes(l.unitPrice.amount, l.quantity as real / 10000.0, sub);
    ExactPercentage(sub, l.discountPercent, disc);
    ExactPercentage(sub - disc, l.taxRatePercent, Taxes(parts));
  }
}
