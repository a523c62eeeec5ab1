/** Line and document amounts of sales, quotations and sale returns, each step rounded. */
module SaleArithmetic {
  import opened Results
  import opened Rounding
  import opened ValueObjects
  import opened Sums

  /** The fields SaleLineSpec and SaleReturnLineSpec price a line from; quantity in units of 0.0001. */
  datatype Line = Line(quantity: int, unitPrice: Money, discountPercent: real, taxRatePercent: real) {
    /** What both line constructors demand. */
    predicate Valid() {
      && quantity > 0
      && unitPrice.amount >= 0
      && 0.0 <= discountPercent <= 100.0
      && 0.0 <= taxRatePercent <= 100.0
    }

    function Subtotal(): int {
      Times(unitPrice.amount, quantity as real / 10000.0)
    }

    function Discount(): int {
      if discountPercent == 0.0 then 0 else Times(Subtotal(), discountPercent / 100.0)
    }

    function AfterDiscount(): int { Subtotal() - Discount() }

    function Tax(): int {
      if taxRatePercent == 0.0 then 0 else Times(AfterDiscount(), taxRatePercent / 100.0)
    }

    function Total(): int { AfterDiscount() + Tax() }
  }

  lemma SubtotalSign(l: Line)
    requires l.quantity >= 0 && l.unitPrice.amount >= 0
    ensures l.Subtotal() >= 0
  {
    var p, q := l.unitPrice.amount as real, l.quantity as real / 10000.0;
    assert p * q >= 0.0;
    RoundMonotone(0.0, p * q);
    RoundExact(0);
  }

  /** Rounding never makes a discount exceed its line, nor a tax exceed the amount it is charged on. */
  lemma LineAmountsInRange(l: Line)
    requires l.Valid()
    ensures 0 <= l.Discount() <= l.Subtotal()
    ensures 0 <= l.Tax() <= l.AfterDiscount()
    ensures l.AfterDiscount() <= l.Total() <= 2 * l.Subtotal()
  {
    SubtotalSign(l);
    TimesFraction(l.Subtotal(), l.discountPercent / 100.0);
    TimesFraction(l.AfterDiscount(), l.taxRatePercent / 100.0);
  }

  // ----- sale drafts ---------------------------------------------------------

  datatype SaleError = EmptySale | SaleCurrencyMismatch | NegativeCharge | DiscountTooLarge

  datatype Draft = Draft(lines: seq<Line>, orderDiscount: Money, shipping: Money)

  datatype Totals = Totals(totalQuantity: int, linesSubtotal: int, linesDiscount: int, linesTax: int,
                           orderDiscount: int, shipping: int, grandTotal: int) {
    function NetRevenue(): int { linesSubtotal - linesDiscount - orderDiscount + shipping }
  }

  function NewDraft(lines: seq<Line>, orderDiscount: Money, shipping: Money): Result<Draft, SaleError> {
    if lines == [] then Err(EmptySale)
    else if !(orderDiscount.currency == shipping.currency
              && forall l :: l in lines ==> l.unitPrice.currency == shipping.currency)
    then Err(SaleCurrencyMismatch)
    else if orderDiscount.amount < 0 || shipping.amount < 0 then Err(NegativeCharge)
    else if orderDiscount.amount > Sum(lines, (l: Line) => l.AfterDiscount()) then Err(DiscountTooLarge)
    else Ok(Draft(lines, orderDiscount, shipping))
  }

  /** A draft is accepted exactly with a line, one currency, charges that are not negative and an order discount no
      larger than what the line discounts leave. */
  lemma DraftAcceptedIff(lines: seq<Line>, orderDiscount: Money, shipping: Money)
    ensures NewDraft(lines, orderDiscount, shipping).Ok? <==>
            && |lines| >= 1 && orderDiscount.amount >= 0 && shipping.amount >= 0
            && orderDiscount.currency == shipping.currency
            && (forall i :: 0 <= i < |lines| ==> lines[i].unitPrice.currency == shipping.currency)
            && Sum(lines, (l: Line) => l.Subtotal()) - Sum(lines, (l: Line) => l.Discount()) >= orderDiscount.amount
  {
    hide Line.Subtotal, Line.Discount, Line.Tax;
    ColumnSums(lines);
    assert (forall i :: 0 <= i < |lines| ==> lines[i].unitPrice.currency == shipping.currency)
      <==> (forall l :: l in lines ==> l.unitPrice.currency == shipping.currency);
  }

  function ComputeTotals(d: Draft): Totals {
    var subtotal := Sum(d.lines, (l: Line) => l.Subtotal());
    var discount := Sum(d.lines, (l: Line) => l.Discount());
    var tax := Sum(d.lines, (l: Line) => l.Tax());
    Totals(Sum(d.lines, (l: Line) => l.quantity), subtotal, discount, tax, d.orderDiscount.amount, d.shipping.amount,
           subtotal - discount - d.orderDiscount.amount + tax + d.shipping.amount)
  }

  /** sale_quotation.py's grand_total: the line totals added up as Money. */
  function QuotationGrandTotal(lines: seq<Line>): int {
    Sum(lines, (l: Line) => l.Total())
  }

  lemma {:induction false} ColumnSums(lines: seq<Line>)
    ensures Sum(lines, (l: Line) => l.Subtotal()) - Sum(lines, (l: Line) => l.Discount())
         == Sum(lines, (l: Line) => l.AfterDiscount())
    ensures Sum(lines, (l: Line) => l.AfterDiscount()) + Sum(lines, (l: Line) => l.Tax())
         == Sum(lines, (l: Line) => l.Total())
  {
    if lines != [] {
      ColumnSums(lines[1..]);
    }
  }

  /** Every accepted draft: three ways to reach the grand total agree, and it covers its tax and shipping. */
  lemma DraftTotalsAgree(lines: seq<Line>, orderDiscount: Money, shipping: Money)
    requires forall l :: l in lines ==> l.Valid()
    requires NewDraft(lines, orderDiscount, shipping).Ok?
    ensures var t := ComputeTotals(NewDraft(lines, orderDiscount, shipping).value);
      && t.totalQuantity == Returned(lines)
      && t.grandTotal == t.NetRevenue() + t.linesTax
      && t.grandTotal == QuotationGrandTotal(lines) - orderDiscount.amount + shipping.amount
      && t.grandTotal >= t.linesTax + t.shipping >= 0
      && 0 <= t.linesDiscount <= t.linesSubtotal
      && 0 <= t.linesTax <= t.linesSubtotal - t.linesDiscount
  {
    ColumnSums(lines);
    forall l | l in lines
      ensures 0 <= l.Discount() <= l.Subtotal() && 0 <= l.Tax() <= l.AfterDiscount()
    {
      LineAmountsInRange(l);
    }
    SumNonNegative(lines, (l: Line) => l.Discount());
    SumNonNegative(lines, (l: Line) => l.Tax());
    SumMonotone(lines, (l: Line) => l.Discount(), (l: Line) => l.Subtotal());
    SumMonotone(lines, (l: Line) => l.Tax(), (l: Line) => l.AfterDiscount());
  }

  /** A quotation and the sale of the same lines without order discount or shipping cost the same. */
  lemma QuotationMatchesSale(lines: seq<Line>, c: Currency)
    requires lines != []
    requires forall l :: l in lines ==> l.Valid() && l.unitPrice.currency == c
    ensures var d := NewDraft(lines, Money(0, c), Money(0, c));
      d.Ok? && ComputeTotals(d.value).grandTotal == QuotationGrandTotal(lines)
  {
    forall l | l in lines
      ensures l.AfterDiscount() >= 0
    {
      LineAmountsInRange(l);
    }
    SumNonNegative(lines, (l: Line) => l.AfterDiscount());
    ColumnSums(lines);
  }

  // ----- sale returns --------------------------------------------------------

  /** refund_total: the loop over the return's lines, less the restocking fee. */
  method RefundTotal(lines: seq<Line>, restockingFee: Option<int>) returns (total: int)
    ensures total == Sum(lines, (l: Line) => l.Total()) - if restockingFee.Some? then restockingFee.value else 0
  {
    total := 0;
    for i := 0 to |lines|
      invariant total == Sum(lines[..i], (l: Line) => l.Total())
    {
      SumTake(lines, i, (l: Line) => l.Total());
      total := total + lines[i].Total();
    }
    assert lines[..|lines|] == lines;
    if restockingFee.Some? {
      total := total - restockingFee.value;
    }
  }

  /** The unrounded price of one unit of quantity, discount and tax included. */
  function Rate(l: Line): real {
    l.unitPrice.amount as real / 10000.0 * (1.0 - l.discountPercent / 100.0) * (1.0 + l.taxRatePercent / 100.0)
  }

  ghost predicate NearRate(l: Line, rate: real) {
    Within(l.Total() as real - Product(rate, l.quantity as real), 2.5)
  }

  lemma ShrinkProduct(f: real, x: real, bound: real)
    requires 0.0 <= f <= 1.0 && Within(x, bound)
    ensures Within(Product(f, x), bound)
  {
    Shrink(f, x, bound);
  }

  lemma KeepDistributes(s: real, sub: real, d: real)
    ensures Product(1.0 - d, sub - s) == sub - Product(sub, d) - Product(s, 1.0 - d)
  {
  }

  lemma AddDistributes(after: real, a: real, t: real)
    ensures Product(t, after - a) == Product(after, t) + a - Product(a, 1.0 + t)
  {
  }

  /** Subtotal, discount and tax each within half a unit: the total is within two and a half of the exact one. */
  lemma ThreeRoundings(s: real, sub: real, d: real, disc: real, t: real, tax: real)
    requires 0.0 <= d <= 1.0 && 0.0 <= t <= 1.0
    requires Within(sub - s, 0.5) && Within(disc - Product(sub, d), 0.5) && Within(tax - Product(sub - disc, t), 0.5)
    ensures Within(sub - disc + tax - Product(Product(s, 1.0 - d), 1.0 + t), 2.5)
  {
    hide Product;
    var after, a := sub - disc, Product(s, 1.0 - d);
    ShrinkProduct(1.0 - d, sub - s, 0.5);
    KeepDistributes(s, sub, d);
    assert Within(after - a, 1.0);
    ShrinkProduct(t, after - a, 1.0);
    AddDistributes(after, a, t);
  }

  lemma SubtotalNear(l: Line)
    ensures Within(l.Subtotal() as real - Product(l.unitPrice.amount as real, l.quantity as real / 10000.0), 0.5)
  {
    RoundNear(l.unitPrice.amount as real * (l.quantity as real / 10000.0));
  }

  lemma DiscountNear(l: Line)
    ensures Within(l.Discount() as real - Product(l.Subtotal() as real, l.discountPercent / 100.0), 0.5)
  {
    RoundNear(l.Subtotal() as real * (l.discountPercent / 100.0));
  }

  lemma TaxNear(l: Line)
    ensures Within(l.Tax() as real - Product(l.AfterDiscount() as real, l.taxRatePercent / 100.0), 0.5)
  {
    RoundNear(l.AfterDiscount() as real * (l.taxRatePercent / 100.0));
  }

  /** The unrounded total of a line, in units. */
  function Exact(p: real, q: real, d: real, t: real): real {
    Product(Product(Product(p, q / 10000.0), 1.0 - d), 1.0 + t)
  }

  lemma ExactIsRate(l: Line)
    ensures Exact(l.unitPrice.amount as real, l.quantity as real, l.discountPercent / 100.0, l.taxRatePercent / 100.0)
         == Product(Rate(l), l.quantity as real)
  {
    var p, q := l.unitPrice.amount as real, l.quantity as real;
    var x, y := 1.0 - l.discountPercent / 100.0, 1.0 + l.taxRatePercent / 100.0;
    var u := p / 10000.0;
    assert p * (q / 10000.0) == u * q;
    assert u * x * y * q == u * q * x * y;
  }

  lemma TotalNearExact(l: Line)
    requires l.Valid()
    ensures Within(l.Total() as real
                   - Exact(l.unitPrice.amount as real, l.quantity as real, l.discountPercent / 100.0,
                           l.taxRatePercent / 100.0), 2.5)
  {
    hide Times, Product;
    var sub, disc, after := l.Subtotal() as real, l.Discount() as real, l.AfterDiscount() as real;
    assert after == sub - disc;
    SubtotalNear(l);
    DiscountNear(l);
    TaxNear(l);
    ThreeRoundings(Product(l.unitPrice.amount as real, l.quantity as real / 10000.0), sub,
                   l.discountPercent / 100.0, disc, l.taxRatePercent / 100.0, l.Tax() as real);
  }

  /** Three roundings move a line's total by at most two and a half units from the unrounded price. */
  lemma TotalNearRate(l: Line)
    requires l.Valid()
    ensures NearRate(l, Rate(l))
  {
    hide Times, Rate, Exact, Product;
    TotalNearExact(l);
    ExactIsRate(l);
  }

  // ----- the columns of a sale, from its inputs ------------------------------------

  /** Prices times quantities, unrounded. */
  function Prices(lines: seq<Line>): real {
    if lines == [] then 0.0
    else Product(lines[0].unitPrice.amount as real, lines[0].quantity as real / 10000.0) + Prices(lines[1..])
  }

  /** The discount percentages of the line subtotals, unrounded. */
  function DiscountShares(lines: seq<Line>): real {
    if lines == [] then 0.0
    else Product(lines[0].Subtotal() as real, lines[0].discountPercent / 100.0) + DiscountShares(lines[1..])
  }

  /** The tax rates of the discounted amounts, unrounded. */
  function TaxShares(lines: seq<Line>): real {
    if lines == [] then 0.0
    else
      Product((lines[0].Subtotal() - lines[0].Discount()) as real, lines[0].taxRatePercent / 100.0)
      + TaxShares(lines[1..])
  }

  lemma {:induction false} ColumnsNear(lines: seq<Line>)
    ensures Within(Sum(lines, (l: Line) => l.Subtotal()) as real - Prices(lines), 0.5 * |lines| as real)
    ensures Within(Sum(lines, (l: Line) => l.Discount()) as real - DiscountShares(lines), 0.5 * |lines| as real)
    ensures Within(Sum(lines, (l: Line) => l.Tax()) as real - TaxShares(lines), 0.5 * |lines| as real)
  {
    hide Times, Product;
    if lines != [] {
      hide Line.Subtotal, Line.Discount, Line.Tax;
      SubtotalNear(lines[0]);
      DiscountNear(lines[0]);
      TaxNear(lines[0]);
      ColumnsNear(lines[1..]);
    }
  }

  /** Each column of the totals is within half a unit per line of what prices, percentages and rates give; order
      discount and shipping are the draft's, and the grand total is subtotal less discounts plus tax and shipping. */
  lemma TotalsFromInputs(d: Draft)
    ensures var t, n := ComputeTotals(d), |d.lines| as real;
      && Within(t.linesSubtotal as real - Prices(d.lines), 0.5 * n)
      && Within(t.linesDiscount as real - DiscountShares(d.lines), 0.5 * n)
      && Within(t.linesTax as real - TaxShares(d.lines), 0.5 * n)
      && t.orderDiscount == d.orderDiscount.amount && t.shipping == d.shipping.amount
      && t.grandTotal == t.linesSubtotal - t.linesDiscount - d.orderDiscount.amount + t.linesTax + d.shipping.amount
  {
    ColumnsNear(d.lines);
    hide Within, Prices, DiscountShares, TaxShares;
  }

  // ----- returns in parts ----------------------------------------------------------

  /** Lines that return parts of l, at l's price, discount and tax. */
  ghost predicate PartsOf(parts: seq<Line>, l: Line) {
    forall r :: r in parts ==>
      r.Valid() && r.unitPrice == l.unitPrice && r.discountPercent == l.discountPercent
          && r.taxRatePercent == l.taxRatePercent
  }

  function Refund(parts: seq<Line>): int { Sum(parts, (r: Line) => r.Total()) }

  function Returned(parts: seq<Line>): int { Sum(parts, (r: Line) => r.quantity) }

  lemma {:induction false} PartsNearRate(parts: seq<Line>, rate: real)
    requires forall r :: r in parts ==> NearRate(r, rate)
    ensures Within(Refund(parts) as real - Product(rate, Returned(parts) as real), 2.5 * |parts| as real)
  {
    hide Times, Product;
    if parts == [] {
      ProductZero(rate);
    } else {
      PartsNearRate(parts[1..], rate);
      assert NearRate(parts[0], rate);
      AddNear(parts[0].Total(), Refund(parts[1..]), rate, parts[0].quantity, Returned(parts[1..]), |parts| - 1);
    }
  }

  lemma AddNear(x: int, y: int, rate: real, q: int, qs: int, k: int)
    requires Within(x as real - Product(rate, q as real), 2.5)
    requires Within(y as real - Product(rate, qs as real), 2.5 * k as real)
    ensures Within((x + y) as real - Product(rate, (q + qs) as real), 2.5 * (k + 1) as real)
  {
    hide Product;
    ProductAdds(rate, q, qs);
  }

  /** Returning a line in k parts refunds within 2.5 (k + 1) units of the line's total, and exactly it when k = 1. */
  lemma ReturnInParts(parts: seq<Line>, l: Line)
    requires l.Valid() && PartsOf(parts, l)
    requires Returned(parts) == l.quantity
    ensures 2 * (Refund(parts) - l.Total()) <= 5 * (|parts| + 1)
    ensures 2 * (l.Total() - Refund(parts)) <= 5 * (|parts| + 1)
    ensures |parts| == 1 ==> Refund(parts) == l.Total()
  {
    hide Times, Rate, Product;
    forall r | r in parts
      ensures NearRate(r, Rate(l))
    {
      TotalNearRate(r);
      SameRate(r, l);
    }
    PartsNearRate(parts, Rate(l));
    TotalNearRate(l);
    Apart(Refund(parts), l.Total(), Product(Rate(l), l.quantity as real), |parts|);
    if |parts| == 1 {
      assert parts[0] in parts && Returned(parts[1..]) == 0 && Refund(parts[1..]) == 0;
      assert parts[0] == l;
    }
  }

  lemma SameRate(r: Line, l: Line)
    requires r.unitPrice == l.unitPrice && r.discountPercent == l.discountPercent
             && r.taxRatePercent == l.taxRatePercent
    ensures Rate(r) == Rate(l)
  {
  }

  lemma Apart(x: int, y: int, e: real, k: int)
    requires Within(x as real - e, 2.5 * k as real) && Within(y as real - e, 2.5)
    ensures 2 * (x - y) <= 5 * (k + 1) && 2 * (y - x) <= 5 * (k + 1)
  {
  }

  /** Splitting a return can refund more than was paid: a price of 0.0001 taken back half by half refunds it twice. */
  lemma SplitReturnCanOverRefund()
    ensures var c := Currency("SAR", 2);
      var sold, half := Line(10000, Money(1, c), 0.0, 0.0), Line(5000, Money(1, c), 0.0, 0.0);
      sold.Valid() && PartsOf([half, half], sold) && Returned([half, half]) == sold.quantity
      && Refund([half, half]) == 2 && sold.Total() == 1
  {
    var c := Currency("SAR", 2);
    var half := Line(5000, Money(1, c), 0.0, 0.0);
    assert half.Subtotal() == 1;
    assert half.Total() == 1;
    assert Line(10000, Money(1, c), 0.0, 0.0).Subtotal() == 1;
    assert [half, half] == [half] + [half];
    SumConcat([half], [half], (r: Line) => r.Total());
    SumConcat([half], [half], (r: Line) => r.quantity);
    SumOne(half, (r: Line) => r.Total());
    SumOne(half, (r: Line) => r.quantity);
  }

  lemma TimesMonotone(m: int, n: int, f: real)
    requires m <= n && f >= 0.0
    ensures Times(m, f) <= Times(n, f)
  {
    assert m as real * f <= n as real * f;
    RoundMonotone(m as real * f, n as real * f);
  }

  lemma FactorMonotone(units: int, f: real, g: real)
    requires units >= 0 && f <= g
    ensures Times(units, f) <= Times(units, g)
  {
    assert units as real * f <= units as real * g;
    RoundMonotone(units as real * f, units as real * g);
  }

  /** What is left of an amount after a rounded fraction is taken off grows with the amount. */
  lemma {:induction false} KeptMonotone(m: int, n: int, f: real)
    requires 0 <= m <= n && 0.0 <= f <= 1.0
    ensures m - Times(m, f) <= n - Times(n, f)
    decreases n - m
  {
    if m < n {
      KeptStep(m, f);
      KeptMonotone(m + 1, n, f);
    }
  }

  lemma KeptStep(m: int, f: real)
    requires 0 <= m && 0.0 <= f <= 1.0
    ensures Times(m + 1, f) <= Times(m, f) + 1
  {
    var u := m as real;
    assert u * f >= 0.0;
    assert (m + 1) as real * f == u * f + f;
    RoundStep(u * f, u * f + f);
  }

  /** One partial return never refunds more than the whole line, nor a negative amount. */
  lemma PartialReturnBounded(part: Line, l: Line)
    requires l.Valid() && PartsOf([part], l) && part.quantity <= l.quantity
    ensures 0 <= part.Total() <= l.Total()
  {
    assert part in [part];
    LineAmountsInRange(part);
    LineAmountsInRange(l);
    FactorMonotone(l.unitPrice.amount, part.quantity as real / 10000.0, l.quantity as real / 10000.0);
    KeptMonotone(part.Subtotal(), l.Subtotal(), l.discountPercent / 100.0);
    TimesMonotone(part.AfterDiscount(), l.AfterDiscount(), l.taxRatePercent / 100.0);
  }
}
