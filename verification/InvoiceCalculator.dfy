/** CalculateSalesInvoiceTotals: one pass over the lines, each step quantized to four places. */
module InvoiceCalculator {
  import opened Rounding
  import opened Sums

  datatype LineSpec = LineSpec(quantity: real, unitPrice: real, discountAmount: real, taxRate: real)

  datatype LineResult = LineResult(subtotal: int, discount: int, taxable: int, tax: int, total: int)

  datatype Totals = Totals(subtotal: int, discountTotal: int, taxTotal: int, grandTotal: int, lines: seq<LineResult>)

  /** A stored amount, as the Decimal it stands for. */
  function Value(units: int): real { units as real / 10000.0 }

  /** `_q`: quantize to 0.0001. */
  function Q(value: real): int { RoundHalfUp(value * 10000.0) }

  lemma QuantizeStored(units: int)
    ensures Q(Value(units)) == units
  {
    RoundExact(units);
  }

  function Max(x: int, y: int): int { if x >= y then x else y }

  /** The tax on a taxable amount, before it is quantized. */
  function TaxOn(taxable: int, rate: real): real {
    Value(taxable) * Value(Q(rate)) / 100.0
  }

  function Price(l: LineSpec): LineResult {
    var subtotal := Q(Product(Value(Q(l.quantity)), Value(Q(l.unitPrice))));
    var discount := Q(l.discountAmount);
    var taxable := Q(Value(Max(subtotal - discount, 0)));
    var tax := Q(TaxOn(taxable, l.taxRate));
    LineResult(subtotal, discount, taxable, tax, Q(Value(taxable + tax)))
  }

  /** How far a discount overshoots its line; the taxable amount is floored at zero there. */
  function Excess(l: LineSpec): int {
    Max(Price(l).discount - Price(l).subtotal, 0)
  }

  function Subtotals(lines: seq<LineSpec>): int { Sum(lines, (l: LineSpec) => Price(l).subtotal) }

  function Discounts(lines: seq<LineSpec>): int { Sum(lines, (l: LineSpec) => Price(l).discount) }

  function Taxes(lines: seq<LineSpec>): int { Sum(lines, (l: LineSpec) => Price(l).tax) }

  function LineTotals(lines: seq<LineSpec>): int { Sum(lines, (l: LineSpec) => Price(l).total) }

  function Excesses(lines: seq<LineSpec>): int { Sum(lines, (l: LineSpec) => Excess(l)) }

  // ----- what a line costs, from its inputs ----------------------------------------

  /** A value that quantizing to 0.0001 leaves alone. */
  ghost predicate FourPlaces(x: real) { exists units :: x == Value(units) }

  ghost predicate Stored(l: LineSpec) {
    FourPlaces(l.quantity) && FourPlaces(l.unitPrice) && FourPlaces(l.discountAmount) && FourPlaces(l.taxRate)
  }

  lemma StoredValue(x: real)
    requires FourPlaces(x)
    ensures Value(Q(x)) == x
  {
    var units :| x == Value(units);
    QuantizeStored(units);
  }

  lemma QuantizeNear(v: real)
    ensures Within(Value(Q(v)) - v, 0.00005)
  {
    RoundNear(v * 10000.0);
  }

  /** A stored line: its subtotal is quantity times price, its taxable amount what the discount leaves of it or 0,
      its tax the rate's percentage of that, each to within half of 0.0001, and its total taxable plus tax. */
  lemma LineFromInputs(l: LineSpec)
    requires Stored(l)
    ensures var r := Price(l);
      && Within(Value(r.subtotal) - l.quantity * l.unitPrice, 0.00005)
      && Value(r.discount) == l.discountAmount
      && Value(r.taxable)
         == (if l.discountAmount <= Value(r.subtotal) then Value(r.subtotal) - l.discountAmount else 0.0)
      && Within(Value(r.tax) - Value(r.taxable) * l.taxRate / 100.0, 0.00005)
      && r.total == r.taxable + r.tax
  {
    hide Q, Value, FourPlaces, TaxOn;
    var r := Price(l);
    StoredValue(l.quantity);
    StoredValue(l.unitPrice);
    StoredValue(l.discountAmount);
    StoredValue(l.taxRate);
    SubtotalNear(l);
    QuantizeStored(Max(r.subtotal - r.discount, 0));
    QuantizeNear(TaxOn(r.taxable, l.taxRate));
    QuantizeStored(r.taxable + r.tax);
    TaxOnStored(r.taxable, l.taxRate);
    ValueLess(r.subtotal, r.discount);
  }

  lemma SubtotalNear(l: LineSpec)
    requires FourPlaces(l.quantity) && FourPlaces(l.unitPrice)
    ensures Within(Value(Price(l).subtotal) - Product(l.quantity, l.unitPrice), 0.00005)
  {
    hide Q, Value, FourPlaces, TaxOn, Product;
    var x, y := Value(Q(l.quantity)), Value(Q(l.unitPrice));
    StoredValue(l.quantity);
    StoredValue(l.unitPrice);
    ProductNear(x, y, l.quantity, l.unitPrice);
  }

  lemma ProductNear(x: real, y: real, v: real, w: real)
    requires x == v && y == w
    ensures Within(Value(Q(Product(x, y))) - Product(v, w), 0.00005)
  {
    QuantizeNear(Product(x, y));
    hide Q, Value;
  }

  lemma TaxOnStored(taxable: int, rate: real)
    requires FourPlaces(rate)
    ensures TaxOn(taxable, rate) == Value(taxable) * rate / 100.0
  {
    hide Q;
    StoredValue(rate);
  }

  lemma ValueLess(x: int, y: int)
    ensures Value(x - y) == Value(x) - Value(y) && Value(0) == 0.0 && (y <= x <==> Value(y) <= Value(x))
  {
  }

  /** What a line comes to before any rounding. */
  function Unrounded(l: LineSpec): real {
    (l.quantity * l.unitPrice - l.discountAmount) * (1.0 + l.taxRate / 100.0)
  }

  /** How far rounding can move it: half of 0.0001 in the subtotal, the tax on that, and half of it in the tax. */
  function Slack(l: LineSpec): real {
    0.00005 * (2.0 + Abs(l.taxRate / 100.0))
  }

  function UnroundedTotal(lines: seq<LineSpec>): real {
    if lines == [] then 0.0 else Unrounded(lines[0]) + UnroundedTotal(lines[1..])
  }

  function TotalSlack(lines: seq<LineSpec>): real {
    if lines == [] then 0.0 else Slack(lines[0]) + TotalSlack(lines[1..])
  }

  lemma ScaleWithin(x: real, f: real, bound: real)
    requires Within(x, bound) && bound >= 0.0
    ensures Within(Product(f, x), bound * Abs(f))
  {
    var size := Abs(f);
    assert (bound - x) * size >= 0.0 && (bound + x) * size >= 0.0;
    assert (bound - x) * size == bound * size - x * size && (bound + x) * size == bound * size + x * size;
    assert f * x == x * size || f * x == -(x * size);
  }

  lemma SlackIs(sub: real, exact: real, tax: real, d: real, f: real)
    requires Within(sub - exact, 0.00005) && Within(tax - Product(sub - d, f), 0.00005)
    ensures Within(sub - d + tax - Product(exact - d, 1.0 + f), 0.00005 * (2.0 + Abs(f)))
  {
    hide Product, Abs;
    ScaleWithin(sub - exact, f, 0.00005);
    RateSplits(sub, exact, d, f);
  }

  lemma RateSplits(sub: real, exact: real, d: real, f: real)
    ensures Product(exact - d, 1.0 + f) == exact - d + Product(sub - d, f) - Product(f, sub - exact)
  {
  }

  /** A line whose discount fits adds what it comes to, up to its slack. */
  lemma LineNear(l: LineSpec)
    requires Stored(l) && Price(l).discount <= Price(l).subtotal
    ensures Within(Value(Price(l).subtotal - Price(l).discount + Price(l).tax) - Unrounded(l), Slack(l))
  {
    hide Price, FourPlaces, Product, Value;
    var r := Price(l);
    LineFromInputs(l);
    ValueLess(r.subtotal, r.discount);
    ValueLess(r.subtotal - r.discount, -r.tax);
    ValueLess(0, r.tax);
    Percentage(Value(r.taxable), l.taxRate);
    SlackIs(Value(r.subtotal), l.quantity * l.unitPrice, Value(r.tax), l.discountAmount, l.taxRate / 100.0);
    UnroundedIs(l);
  }

  lemma Percentage(x: real, rate: real)
    ensures x * rate / 100.0 == Product(x, rate / 100.0)
  {
  }

  lemma UnroundedIs(l: LineSpec)
    ensures Unrounded(l) == Product(l.quantity * l.unitPrice - l.discountAmount, 1.0 + l.taxRate / 100.0)
  {
  }

  /** Every line is stored with four decimals and its discount fits it. */
  ghost predicate AllFit(lines: seq<LineSpec>) {
    forall l :: l in lines ==> Stored(l) && Price(l).discount <= Price(l).subtotal
  }

  /** So does the invoice, for any number of lines. */
  lemma {:induction false} GrandTotalNear(lines: seq<LineSpec>)
    requires AllFit(lines)
    ensures Within(Value(Subtotals(lines) - Discounts(lines) + Taxes(lines)) - UnroundedTotal(lines), TotalSlack(lines))
  {
    hide Price, Unrounded, Slack, Stored;
    if lines != [] {
      LineNear(lines[0]);
      GrandTotalNear(lines[1..]);
    }
  }

  lemma NearWhenFit(lines: seq<LineSpec>)
    ensures AllFit(lines) ==>
              Within(Value(Subtotals(lines) - Discounts(lines) + Taxes(lines)) - UnroundedTotal(lines),
                     TotalSlack(lines))
  {
    hide Price, UnroundedTotal, TotalSlack;
    if AllFit(lines) {
      GrandTotalNear(lines);
    }
  }

  method Calculate(lines: seq<LineSpec>) returns (t: Totals)
    ensures t.subtotal == Subtotals(lines) && t.discountTotal == Discounts(lines) && t.taxTotal == Taxes(lines)
    ensures t.grandTotal == t.subtotal - t.discountTotal + t.taxTotal
    ensures t.grandTotal == LineTotals(lines) - Excesses(lines)
    ensures |t.lines| == |lines| && forall i :: 0 <= i < |lines| ==> t.lines[i] == Price(lines[i])
    ensures AllFit(lines) ==>
              Within(Value(t.grandTotal) - UnroundedTotal(lines), TotalSlack(lines))
  {
    hide Price, AllFit, UnroundedTotal, TotalSlack, Within;
    NearWhenFit(lines);
    if lines == [] {
      return Totals(0, 0, 0, 0, []);
    }
    var results: seq<LineResult> := [];
    var subtotal, discountTotal, taxTotal := 0, 0, 0;
    for i := 0 to |lines|
      invariant subtotal == Subtotals(lines[..i]) && discountTotal == Discounts(lines[..i])
                && taxTotal == Taxes(lines[..i])
      invariant |results| == i && forall j :: 0 <= j < i ==> results[j] == Price(lines[j])
    {
      SumTake(lines, i, (l: LineSpec) => Price(l).subtotal);
      SumTake(lines, i, (l: LineSpec) => Price(l).discount);
      SumTake(lines, i, (l: LineSpec) => Price(l).tax);
      var r := Price(lines[i]);
      results := results + [r];
      subtotal := subtotal + r.subtotal;
      discountTotal := discountTotal + r.discount;
      taxTotal := taxTotal + r.tax;
    }
    assert lines[..|lines|] == lines;
    QuantizeStored(subtotal);
    QuantizeStored(discountTotal);
    QuantizeStored(taxTotal);
    QuantizeStored(subtotal - discountTotal + taxTotal);
    TotalsMinusExcess(lines);
    t := Totals(Q(Value(subtotal)), Q(Value(discountTotal)), Q(Value(taxTotal)),
                Q(Value(subtotal - discountTotal + taxTotal)), results);
  }

  lemma LineTotalIs(l: LineSpec)
    ensures Price(l).total == Price(l).subtotal - Price(l).discount + Price(l).tax + Excess(l)
  {
    hide Q, Value;
    var r := Price(l);
    QuantizeStored(Max(r.subtotal - r.discount, 0));
    QuantizeStored(r.taxable + r.tax);
  }

  lemma {:induction false} TotalsMinusExcess(lines: seq<LineSpec>)
    ensures Subtotals(lines) - Discounts(lines) + Taxes(lines) == LineTotals(lines) - Excesses(lines)
  {
    hide Price, Excess;
    if lines != [] {
      LineTotalIs(lines[0]);
      TotalsMinusExcess(lines[1..]);
    }
  }

  /** The invoice total is the sum of its line totals exactly when every discount fits its line. */
  lemma GrandTotalIsLineTotalsIff(lines: seq<LineSpec>)
    ensures Subtotals(lines) - Discounts(lines) + Taxes(lines) == LineTotals(lines)
        <==> forall l :: l in lines ==> Price(l).discount <= Price(l).subtotal
  {
    hide Price;
    TotalsMinusExcess(lines);
    SumNonNegative(lines, (l: LineSpec) => Excess(l));
    if forall l :: l in lines ==> Price(l).discount <= Price(l).subtotal {
      SumZero(lines, (l: LineSpec) => Excess(l));
    }
  }

  /** A flat discount of 2 on a line worth 1: the line shows 0, the invoice total is -1. */
  lemma DiscountCanOvershoot()
    ensures var l := LineSpec(1.0, 1.0, 2.0, 0.0);
      Price(l).total == 0 && Subtotals([l]) - Discounts([l]) + Taxes([l]) == -10000
  {
    var l := LineSpec(1.0, 1.0, 2.0, 0.0);
    hide Q, Value;
    StoredUnits(1.0, 10000);
    StoredUnits(2.0, 20000);
    StoredUnits(0.0, 0);
    OvershootTotals(l);
  }

  lemma StoredUnits(value: real, units: int)
    requires value * 10000.0 == units as real
    ensures Q(value) == units && Value(units) == value
  {
    RoundExact(units);
  }

  lemma OvershootTotals(l: LineSpec)
    ensures Subtotals([l]) - Discounts([l]) + Taxes([l]) == Price(l).subtotal - Price(l).discount + Price(l).tax
  {
    hide Price;
    SumOne(l, (l: LineSpec) => Price(l).subtotal);
    SumOne(l, (l: LineSpec) => Price(l).discount);
    SumOne(l, (l: LineSpec) => Price(l).tax);
  }

  /** Totals do not depend on the order of the lines. */
  lemma OrderIndependent(a: seq<LineSpec>, b: seq<LineSpec>)
    requires multiset(a) == multiset(b)
    ensures Subtotals(a) == Subtotals(b) && Discounts(a) == Discounts(b) && Taxes(a) == Taxes(b)
  {
    SumPermutation(a, b, (l: LineSpec) => Price(l).subtotal);
    SumPermutation(a, b, (l: LineSpec) => Price(l).discount);
    SumPermutation(a, b, (l: LineSpec) => Price(l).tax);
  }

  /** A line's tax before it is quantized. */
  function UnroundedTax(l: LineSpec): real {
    TaxOn(Price(l).taxable, l.taxRate)
  }

  function UnroundedTaxes(lines: seq<LineSpec>): real {
    if lines == [] then 0.0 else UnroundedTax(lines[0]) + UnroundedTaxes(lines[1..])
  }

  lemma TaxIs(l: LineSpec)
    ensures Price(l).tax == Q(UnroundedTax(l))
  {
    hide TaxOn;
  }

  /** Line-by-line rounding moves the tax total by at most half of 0.0001 per line. */
  lemma {:induction false} TaxTotalNear(lines: seq<LineSpec>)
    ensures Within(Value(Taxes(lines)) - UnroundedTaxes(lines), 0.00005 * |lines| as real)
  {
    hide Price, Q, UnroundedTax;
    if lines != [] {
      TaxIs(lines[0]);
      QuantizeNear(UnroundedTax(lines[0]));
      TaxTotalNear(lines[1..]);
    }
  }
}
