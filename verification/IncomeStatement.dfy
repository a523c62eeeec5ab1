/** The income statement: mapped report lines against the account-type fallback. */
module IncomeStatement {
  import opened Ledger
  import opened Rounding
  import opened Sums
  import opened ValueObjects

  datatype ReportLine = ReportLine(section: string, caption: string, isSubtotal: bool, negate: bool, accounts: seq<int>)

  datatype Line = Line(section: string, caption: string, amount: int, isSubtotal: bool)

  datatype Statement = Statement(lines: seq<Line>, totalRevenue: int, totalExpenses: int, netIncome: int)

  // ----- fallback --------------------------------------------------------------

  /** Aggregation by account type, used when no report lines are mapped. */
  function Fallback(rows: seq<Row>, a: int, b: int): Statement {
    var revenue := -Net(rows, KindIn(Income, a, b));
    var expenses := Net(rows, KindIn(Expense, a, b));
    Statement([ Line("Revenue", "Total Revenue", revenue, true),
                Line("Expenses", "Total Expenses", expenses, true),
                Line("Net Income", "Net Income / (Loss)", revenue - expenses, true) ],
              revenue, expenses, revenue - expenses)
  }

  /** Credits less debits of the posted rows of a period on accounts of one type. */
  function Earned(rows: seq<Row>, kind: AccountType, a: int, b: int): int {
    Sum(rows, (r: Row) => if r.posted && a <= r.date <= b && r.account.kind == kind then r.credit - r.debit else 0)
  }

  lemma {:induction false} EarnedIs(rows: seq<Row>, kind: AccountType, a: int, b: int)
    ensures Earned(rows, kind, a, b) == -Net(rows, KindIn(kind, a, b))
  {
    if rows != [] {
      EarnedIs(rows[1..], kind, a, b);
      NetStep(rows, KindIn(kind, a, b));
      hide Net;
    }
  }

  /** The fallback shows what income accounts earned, what expense accounts cost, and the difference. */
  lemma FallbackFromRows(rows: seq<Row>, a: int, b: int)
    ensures var s := Fallback(rows, a, b);
      && s.totalRevenue == Earned(rows, Income, a, b)
      && s.totalExpenses == -Earned(rows, Expense, a, b)
      && s.netIncome == s.totalRevenue - s.totalExpenses
      && s.lines == [Line("Revenue", "Total Revenue", s.totalRevenue, true),
                     Line("Expenses", "Total Expenses", s.totalExpenses, true),
                     Line("Net Income", "Net Income / (Loss)", s.netIncome, true)]
  {
    EarnedIs(rows, Income, a, b);
    EarnedIs(rows, Expense, a, b);
  }

  // ----- mapped ----------------------------------------------------------------

  datatype Side = Revenue | Expenses | Neither

  const REVENUE_KW: seq<string> := ["revenue", "income", "sales", "turnover"]
  const EXPENSE_KW: seq<string> := ["expense", "cost", "opex", "operating", "depreciation", "amortis"]

  predicate Contains(s: string, word: string) {
    word <= s || (s != [] && Contains(s[1..], word))
  }

  function Lower(s: string): string {
    if s == [] then [] else [if 'A' <= s[0] <= 'Z' then (s[0] as int + 32) as char else s[0]] + Lower(s[1..])
  }

  /** The total a report line feeds: by the types of its accounts, or by its section's wording. */
  function SideOf(l: ReportLine, types: map<int, AccountType>): Side {
    if !l.isSubtotal && l.accounts != [] then
      if exists id :: id in l.accounts && id in types && types[id] == Income then Revenue
      else if exists id :: id in l.accounts && id in types && types[id] == Expense then Expenses
      else Neither
    else
      var section := Lower(l.section);
      if exists kw :: kw in REVENUE_KW && Contains(section, kw) then Revenue
      else if exists kw :: kw in EXPENSE_KW && Contains(section, kw) then Expenses
      else Neither
  }

  function MappedIn(accounts: seq<int>, a: int, b: int): Row -> bool {
    (r: Row) => r.account.id in accounts && r.posted && a <= r.date <= b
  }

  function LineNet(rows: seq<Row>, l: ReportLine, a: int, b: int): int {
    var net := Credits(rows, MappedIn(l.accounts, a, b)) - Debits(rows, MappedIn(l.accounts, a, b));
    if l.negate then -net else net
  }

  predicate Displayed(l: ReportLine) { l.accounts != [] || l.isSubtotal }

  function Display(rows: seq<Row>, report: seq<ReportLine>, a: int, b: int): seq<Line> {
    if report == [] then []
    else
      var l := report[|report| - 1];
      Display(rows, report[..|report| - 1], a, b)
      + if Displayed(l) then [Line(l.section, l.caption, LineNet(rows, l, a, b), l.isSubtotal)] else []
  }

  function SideTotal(rows: seq<Row>, report: seq<ReportLine>, types: map<int, AccountType>, a: int, b: int,
                     side: Side): int {
    Sum(report, OnSide(rows, types, a, b, side))
  }

  function OnSide(rows: seq<Row>, types: map<int, AccountType>, a: int, b: int, side: Side): ReportLine -> int {
    (l: ReportLine) => if SideOf(l, types) == side then LineNet(rows, l, a, b) else 0
  }

  /** `_income_statement_mapped` */
  method Mapped(rows: seq<Row>, report: seq<ReportLine>, types: map<int, AccountType>, a: int, b: int)
    returns (s: Statement)
    ensures s.totalRevenue == SideTotal(rows, report, types, a, b, Revenue)
    ensures s.totalExpenses == SideTotal(rows, report, types, a, b, Expenses)
    ensures s.netIncome == s.totalRevenue - s.totalExpenses
    ensures s.lines == Display(rows, report, a, b) + [Line("Net Income", "Net Income / (Loss)", s.netIncome, true)]
  {
    hide SideOf, LineNet;
    var linesOut: seq<Line> := [];
    var totalRevenue, totalExpenses := 0, 0;
    for i := 0 to |report|
      invariant linesOut == Display(rows, report[..i], a, b)
      invariant totalRevenue == SideTotal(rows, report[..i], types, a, b, Revenue)
      invariant totalExpenses == SideTotal(rows, report[..i], types, a, b, Expenses)
    {
      var l := report[i];
      assert report[..i + 1][..i] == report[..i];
      SumTake(report, i, OnSide(rows, types, a, b, Revenue));
      SumTake(report, i, OnSide(rows, types, a, b, Expenses));
      if l.accounts == [] && !l.isSubtotal {
        UnmappedIsZero(rows, l, a, b);
        continue;
      }
      var net := LineNet(rows, l, a, b);
      match SideOf(l, types) {
        case Revenue => totalRevenue := totalRevenue + net;
        case Expenses => totalExpenses := totalExpenses + net;
        case Neither =>
      }
      linesOut := linesOut + [Line(l.section, l.caption, net, l.isSubtotal)];
    }
    assert report[..|report|] == report;
    var netIncome := totalRevenue - totalExpenses;
    s := Statement(linesOut + [Line("Net Income", "Net Income / (Loss)", netIncome, true)], totalRevenue,
                   totalExpenses, netIncome);
  }

  /** A report line shows credits less debits of the posted rows of the period on its accounts, or, if it is
      negated, debits less credits. */
  lemma {:induction false} LineFromRows(rows: seq<Row>, l: ReportLine, a: int, b: int)
    ensures LineNet(rows, l, a, b) == Sum(rows, ShownIf(l, a, b))
  {
    if rows != [] {
      LineFromRows(rows[1..], l, a, b);
    }
  }

  function ShownIf(l: ReportLine, a: int, b: int): Row -> int {
    (r: Row) =>
      if !(r.posted && a <= r.date <= b && r.account.id in l.accounts) then 0
      else if l.negate then r.debit - r.credit
      else r.credit - r.debit
  }

  /** A line with accounts feeds revenue if one of them is an income account, else expenses if one is an expense
      account; without accounts, or as a subtotal, it goes by a word of its section, revenue words first. */
  lemma SideIs(l: ReportLine, types: map<int, AccountType>)
    ensures !l.isSubtotal && l.accounts != [] ==>
              (SideOf(l, types) == Revenue <==> exists id :: id in l.accounts && id in types && types[id] == Income)
    ensures !l.isSubtotal && l.accounts != [] && SideOf(l, types) != Revenue ==>
              (SideOf(l, types) == Expenses <==> exists id :: id in l.accounts && id in types && types[id] == Expense)
    ensures l.isSubtotal || l.accounts == [] ==>
              (SideOf(l, types) == Revenue <==> Mentions(l.section, ["revenue", "income", "sales", "turnover"]))
    ensures (l.isSubtotal || l.accounts == []) && SideOf(l, types) != Revenue ==>
              (SideOf(l, types) == Expenses <==>
                 Mentions(l.section, ["expense", "cost", "opex", "operating", "depreciation", "amortis"]))
  {
  }

  /** A text contains a word if it reads something, the word and something more. */
  lemma {:induction false} ContainsIff(s: string, word: string)
    ensures Contains(s, word) <==> exists before, after :: s == before + word + after
  {
    if word <= s {
      assert s == [] + word + s[|word|..];
    } else if s != [] {
      ContainsIff(s[1..], word);
      if Contains(s[1..], word) {
        var before, after :| s[1..] == before + word + after;
        assert s == ([s[0]] + before) + word + after;
      }
    }
    if before, after :| s == before + word + after {
      if before == [] {
        assert word <= s;
      } else {
        assert s[1..] == before[1..] + word + after;
      }
    }
  }

  /** Lower-casing moves 'A' to 'Z' onto 'a' to 'z' and leaves the rest alone. */
  lemma {:induction false} LowerAt(s: string)
    ensures |Lower(s)| == |s|
    ensures forall i :: 0 <= i < |s| ==>
              Lower(s)[i] as int == if 'A' <= s[i] <= 'Z' then s[i] as int - 'A' as int + 'a' as int else s[i] as int
  {
    if s != [] {
      LowerAt(s[1..]);
    }
  }

  predicate Mentions(section: string, words: seq<string>) {
    exists word :: word in words && Contains(Lower(section), word)
  }

  lemma UnmappedIsZero(rows: seq<Row>, l: ReportLine, a: int, b: int)
    requires l.accounts == []
    ensures LineNet(rows, l, a, b) == 0
  {
    NetNone(rows, MappedIn([], a, b));
  }

  // ----- both reports as weights on accounts -----------------------------------

  /** The period's credit-less-debit movements, each account's counted `weight` times. */
  function Weighted(rows: seq<Row>, weight: Account -> int, a: int, b: int): int {
    Sum(rows, WeightIn(weight, a, b))
  }

  function WeightIn(weight: Account -> int, a: int, b: int): Row -> int {
    (r: Row) => if r.posted && a <= r.date <= b then weight(r.account) * (r.credit - r.debit) else 0
  }

  /** How many times a line adds an account to a side: minus once if the line is negated. */
  function LineWeight(l: ReportLine, types: map<int, AccountType>, side: Side): Account -> int {
    (acct: Account) => if SideOf(l, types) == side && acct.id in l.accounts then (if l.negate then -1 else 1) else 0
  }

  function SideWeight(report: seq<ReportLine>, types: map<int, AccountType>, side: Side): Account -> int {
    (acct: Account) => if report == [] then 0
                       else LineWeight(report[0], types, side)(acct) + SideWeight(report[1..], types, side)(acct)
  }

  function KindWeight(kind: AccountType, unit: int): Account -> int {
    (acct: Account) => if acct.kind == kind then unit else 0
  }

  lemma {:induction false} LineNetWeighted(rows: seq<Row>, l: ReportLine, types: map<int, AccountType>, side: Side,
                                           a: int, b: int)
    ensures OnSide(rows, types, a, b, side)(l) == Weighted(rows, LineWeight(l, types, side), a, b)
  {
    hide SideOf;
    if rows != [] {
      LineNetWeighted(rows[1..], l, types, side, a, b);
    }
  }

  lemma {:induction false} SideTotalWeighted(rows: seq<Row>, report: seq<ReportLine>, types: map<int, AccountType>,
                                             side: Side, a: int, b: int)
    ensures SideTotal(rows, report, types, a, b, side) == Weighted(rows, SideWeight(report, types, side), a, b)
  {
    var all := WeightIn(SideWeight(report, types, side), a, b);
    if report == [] {
      SumZero(rows, all);
    } else {
      SideTotalWeighted(rows, report[1..], types, side, a, b);
      LineNetWeighted(rows, report[0], types, side, a, b);
      var one, rest := LineWeight(report[0], types, side), SideWeight(report[1..], types, side);
      forall r | r in rows
        ensures all(r) == WeightIn(one, a, b)(r) + WeightIn(rest, a, b)(r)
      {
        Distribute(one(r.account), rest(r.account), r.credit - r.debit);
      }
      SumAdd(rows, all, WeightIn(one, a, b), WeightIn(rest, a, b));
    }
  }

  lemma Distribute(x: int, y: int, z: int)
    ensures (x + y) * z == x * z + y * z
  {
  }

  lemma {:induction false} FallbackWeighted(rows: seq<Row>, a: int, b: int)
    ensures Fallback(rows, a, b).totalRevenue == Weighted(rows, KindWeight(Income, 1), a, b)
    ensures Fallback(rows, a, b).totalExpenses == Weighted(rows, KindWeight(Expense, -1), a, b)
  {
    if rows != [] {
      FallbackWeighted(rows[1..], a, b);
      NetStep(rows, KindIn(Income, a, b));
      NetStep(rows, KindIn(Expense, a, b));
      hide Net;
    }
  }

  // ----- when two weightings agree on all balanced books ------------------------

  ghost predicate OnChart(entries: seq<Entry>, chart: set<Account>) {
    forall r :: r in AllRows(entries) ==> r.account in chart
  }

  /** The weightings differ by the same amount on every account of the chart. */
  ghost predicate SameShift(v: Account -> int, w: Account -> int, chart: set<Account>) {
    forall x, y :: x in chart && y in chart ==> v(x) - w(x) == v(y) - w(y)
  }

  lemma {:induction false} ShiftedSum(rows: seq<Row>, v: Account -> int, w: Account -> int, shift: int, a: int, b: int)
    requires forall r :: r in rows ==> v(r.account) == w(r.account) + shift
    ensures Weighted(rows, v, a, b) == Weighted(rows, w, a, b) - shift * Net(rows, InPeriod(a, b))
  {
    if rows == [] {
    } else {
      ShiftedSum(rows[1..], v, w, shift, a, b);
      NetStep(rows, InPeriod(a, b));
      hide Net;
      var r := rows[0];
      Distribute(w(r.account), shift, r.credit - r.debit);
      Distribute(r.debit - r.credit, Net(rows[1..], InPeriod(a, b)), shift);
    }
  }

  lemma TwoLinesWeighted(x: Account, y: Account, weight: Account -> int, a: int, b: int)
    requires a <= b
    ensures Weighted(TwoLines(x, y, a, 1.0).rows, weight, a, b) == weight(y) - weight(x)
  {
    var rows := TwoLines(x, y, a, 1.0).rows;
    assert rows == [rows[0]] + [rows[1]];
    SumConcat([rows[0]], [rows[1]], WeightIn(weight, a, b));
    SumOne(rows[0], WeightIn(weight, a, b));
    SumOne(rows[1], WeightIn(weight, a, b));
  }

  ghost predicate AgreeOnBooks(v: Account -> int, w: Account -> int, chart: set<Account>, a: int, b: int) {
    forall entries :: Books(entries) && OnChart(entries, chart) ==>
      Weighted(AllRows(entries), v, a, b) == Weighted(AllRows(entries), w, a, b)
  }

  /** Two weightings of the accounts give equal totals on all balanced books over a chart exactly
      when they differ by one and the same shift on every account. */
  lemma AgreeIffSameShift(v: Account -> int, w: Account -> int, chart: set<Account>, a: int, b: int)
    requires a <= b
    ensures AgreeOnBooks(v, w, chart, a, b) <==> SameShift(v, w, chart)
  {
    if SameShift(v, w, chart) {
      forall entries | Books(entries) && OnChart(entries, chart)
        ensures Weighted(AllRows(entries), v, a, b) == Weighted(AllRows(entries), w, a, b)
      {
        var rows := AllRows(entries);
        if rows != [] {
          var first := rows[0].account;
          assert rows[0] in rows;
          ShiftedSum(rows, v, w, v(first) - w(first), a, b);
          FilteredBooksBalance(entries, InPeriod(a, b));
        }
      }
    }
    if AgreeOnBooks(v, w, chart, a, b) {
      forall x, y | x in chart && y in chart
        ensures v(x) - w(x) == v(y) - w(y)
      {
        TwoLinesBalanced(x, y, a, 1.0);
        TwoLinesWeighted(x, y, v, a, b);
        TwoLinesWeighted(x, y, w, a, b);
        assert OnChart([TwoLines(x, y, a, 1.0)], chart);
      }
    }
  }

  /** The mapped revenue and expenses equal the fallback's on all balanced books over a chart exactly when,
      on every account alike, the mapping counts it as often as its type says plus one common shift. */
  lemma MappedMatchesFallbackIff(report: seq<ReportLine>, types: map<int, AccountType>, chart: set<Account>, a: int,
                                 b: int)
    requires a <= b
    ensures (forall entries :: Books(entries) && OnChart(entries, chart) ==>
               SideTotal(AllRows(entries), report, types, a, b, Revenue)
               == Fallback(AllRows(entries), a, b).totalRevenue)
        <==> SameShift(SideWeight(report, types, Revenue), KindWeight(Income, 1), chart)
    ensures (forall entries :: Books(entries) && OnChart(entries, chart) ==>
               SideTotal(AllRows(entries), report, types, a, b, Expenses)
               == Fallback(AllRows(entries), a, b).totalExpenses)
        <==> SameShift(SideWeight(report, types, Expenses), KindWeight(Expense, -1), chart)
  {
    hide SideTotal, Fallback, SideWeight, KindWeight, SameShift, Weighted;
    AgreeIffSameShift(SideWeight(report, types, Revenue), KindWeight(Income, 1), chart, a, b);
    AgreeIffSameShift(SideWeight(report, types, Expenses), KindWeight(Expense, -1), chart, a, b);
    forall entries | Books(entries) && OnChart(entries, chart)
      ensures SideTotal(AllRows(entries), report, types, a, b, Revenue)
              == Weighted(AllRows(entries), SideWeight(report, types, Revenue), a, b)
      ensures SideTotal(AllRows(entries), report, types, a, b, Expenses)
              == Weighted(AllRows(entries), SideWeight(report, types, Expenses), a, b)
      ensures Fallback(AllRows(entries), a, b).totalRevenue == Weighted(AllRows(entries), KindWeight(Income, 1), a, b)
      ensures Fallback(AllRows(entries), a, b).totalExpenses
              == Weighted(AllRows(entries), KindWeight(Expense, -1), a, b)
    {
      SideTotalWeighted(AllRows(entries), report, types, Revenue, a, b);
      SideTotalWeighted(AllRows(entries), report, types, Expenses, a, b);
      FallbackWeighted(AllRows(entries), a, b);
    }
  }

  function Less(v: Account -> int, w: Account -> int): Account -> int {
    (acct: Account) => v(acct) - w(acct)
  }

  lemma WeightedLess(rows: seq<Row>, v: Account -> int, w: Account -> int, a: int, b: int)
    ensures Weighted(rows, Less(v, w), a, b) == Weighted(rows, v, a, b) - Weighted(rows, w, a, b)
  {
    forall r | r in rows
      ensures WeightIn(v, a, b)(r) == WeightIn(Less(v, w), a, b)(r) + WeightIn(w, a, b)(r)
    {
      Distribute(v(r.account) - w(r.account), w(r.account), r.credit - r.debit);
    }
    SumAdd(rows, WeightIn(v, a, b), WeightIn(Less(v, w), a, b), WeightIn(w, a, b));
  }

  /** Net income asks for less: it agrees on all balanced books exactly when the mapping's revenue less expense
      counts every account as its type does, up to one common shift. */
  lemma NetIncomeMatchesIff(report: seq<ReportLine>, types: map<int, AccountType>, chart: set<Account>, a: int, b: int)
    requires a <= b
    ensures (forall entries :: Books(entries) && OnChart(entries, chart) ==>
               SideTotal(AllRows(entries), report, types, a, b, Revenue)
               - SideTotal(AllRows(entries), report, types, a, b, Expenses)
               == Fallback(AllRows(entries), a, b).netIncome)
        <==> SameShift(Less(SideWeight(report, types, Revenue), SideWeight(report, types, Expenses)),
                       Less(KindWeight(Income, 1), KindWeight(Expense, -1)), chart)
  {
    hide SideTotal, SideWeight, KindWeight, SameShift, Weighted, Less, Net;
    var v, w := Less(SideWeight(report, types, Revenue), SideWeight(report, types, Expenses)),
                Less(KindWeight(Income, 1), KindWeight(Expense, -1));
    AgreeIffSameShift(v, w, chart, a, b);
    forall entries | Books(entries) && OnChart(entries, chart)
      ensures SideTotal(AllRows(entries), report, types, a, b, Revenue)
              - SideTotal(AllRows(entries), report, types, a, b, Expenses)
           == Weighted(AllRows(entries), v, a, b)
      ensures Fallback(AllRows(entries), a, b).netIncome == Weighted(AllRows(entries), w, a, b)
    {
      var rows := AllRows(entries);
      SideTotalWeighted(rows, report, types, Revenue, a, b);
      SideTotalWeighted(rows, report, types, Expenses, a, b);
      FallbackWeighted(rows, a, b);
      WeightedLess(rows, SideWeight(report, types, Revenue), SideWeight(report, types, Expenses), a, b);
      WeightedLess(rows, KindWeight(Income, 1), KindWeight(Expense, -1), a, b);
    }
  }

  // ----- the configuration the report is meant for -----------------------------

  /** The chart's account ids with the types the mapped report looks up. */
  ghost predicate TypesOf(chart: set<Account>, types: map<int, AccountType>) {
    forall acct :: acct in chart && acct.id in types ==> types[acct.id] == acct.kind
  }

  /** Each line holds accounts of one type, subtotals hold none, and exactly the expense lines are negated. */
  ghost predicate CleanLine(l: ReportLine, types: map<int, AccountType>) {
    && (forall x, y :: x in l.accounts && y in l.accounts && x in types && y in types ==> types[x] == types[y])
    && (forall x :: x in l.accounts ==> x in types)
    && (l.isSubtotal ==> l.accounts == [])
    && (forall x :: x in l.accounts ==> (l.negate <==> types[x] == Expense))
  }

  function LinesHolding(report: seq<ReportLine>, id: int): int {
    if report == [] then 0 else (if id in report[0].accounts then 1 else 0) + LinesHolding(report[1..], id)
  }

  ghost predicate CleanMapping(report: seq<ReportLine>, types: map<int, AccountType>, chart: set<Account>) {
    && TypesOf(chart, types)
    && (forall l :: l in report ==> CleanLine(l, types))
    && (forall acct :: acct in chart && (acct.kind == Income || acct.kind == Expense) ==>
          LinesHolding(report, acct.id) == 1)
  }

  lemma {:induction false} CleanWeights(report: seq<ReportLine>, types: map<int, AccountType>, chart: set<Account>,
                                        acct: Account)
    requires acct in chart && TypesOf(chart, types) && forall l :: l in report ==> CleanLine(l, types)
    ensures SideWeight(report, types, Revenue)(acct) == if acct.kind == Income then LinesHolding(report, acct.id) else 0
    ensures SideWeight(report, types, Expenses)(acct)
         == if acct.kind == Expense then -LinesHolding(report, acct.id) else 0
  {
    if report != [] {
      CleanWeights(report[1..], types, chart, acct);
      assert CleanLine(report[0], types);
    }
  }

  /** Every income and expense account on exactly one clean line: both reports give the same three totals. */
  lemma CleanMappingMatches(report: seq<ReportLine>, types: map<int, AccountType>, chart: set<Account>,
                            entries: seq<Entry>, a: int, b: int)
    requires CleanMapping(report, types, chart) && OnChart(entries, chart)
    ensures SideTotal(AllRows(entries), report, types, a, b, Revenue) == Fallback(AllRows(entries), a, b).totalRevenue
    ensures SideTotal(AllRows(entries), report, types, a, b, Expenses) == Fallback(AllRows(entries), a, b).totalExpenses
  {
    hide SideTotal, Fallback, SideWeight;
    var rows := AllRows(entries);
    SideTotalWeighted(rows, report, types, Revenue, a, b);
    SideTotalWeighted(rows, report, types, Expenses, a, b);
    FallbackWeighted(rows, a, b);
    forall r | r in rows
      ensures SideWeight(report, types, Revenue)(r.account) == KindWeight(Income, 1)(r.account)
      ensures SideWeight(report, types, Expenses)(r.account) == KindWeight(Expense, -1)(r.account)
    {
      CleanWeights(report, types, chart, r.account);
    }
    SumSame(rows, WeightIn(SideWeight(report, types, Revenue), a, b), WeightIn(KindWeight(Income, 1), a, b));
    SumSame(rows, WeightIn(SideWeight(report, types, Expenses), a, b), WeightIn(KindWeight(Expense, -1), a, b));
  }
}
