/** The prefix-based indirect cash-flow statement and when its sections explain the change in cash. */
module CashFlow {
  import opened Ledger
  import opened Rounding
  import opened Sums
  import opened ValueObjects

  datatype Statement = Statement(operating: int, investing: int, financing: int,
                                 netChange: int, openingCash: int, closingCash: int)

  function CodeIn(kind: AccountType, prefix: string, a: int, b: int): Row -> bool {
    (r: Row) => r.account.kind == kind && prefix <= r.account.code && r.posted && a <= r.date <= b
  }

  function CodeUpTo(kind: AccountType, prefix: string, d: int): Row -> bool {
    (r: Row) => r.account.kind == kind && prefix <= r.account.code && r.posted && r.date <= d
  }

  function CashFlowPrefix(rows: seq<Row>, a: int, b: int): Statement {
    var income := KindIn(Income, a, b);
    var expense := KindIn(Expense, a, b);
    var revenue := Credits(rows, income) - Debits(rows, income);
    var expenses := Debits(rows, expense) - Credits(rows, expense);
    var netIncome := revenue - expenses;
    var arAdj := -Net(rows, CodeIn(Asset, "12", a, b));
    var invAdj := -Net(rows, CodeIn(Asset, "13", a, b));
    var apAdj := -Net(rows, CodeIn(Liability, "21", a, b));
    var operating := netIncome + arAdj + invAdj + apAdj;
    var faChange := Net(rows, CodeIn(Asset, "15", a, b));
    var debtChange := Net(rows, CodeIn(Liability, "25", a, b));
    var equityChange := Net(rows, CodeIn(Equity, "3", a, b));
    var financing := (-debtChange) + (-equityChange);
    var opening := Net(rows, CodeUpTo(Asset, "11", a - 1));
    var closing := Net(rows, CodeUpTo(Asset, "11", b));
    Statement(operating, -faChange, financing, closing - opening, opening, closing)
  }

  /** Accounts that no section of the statement looks at. */
  predicate Unclassified(acct: Account) {
    match acct.kind
    case Asset => !("11" <= acct.code || "12" <= acct.code || "13" <= acct.code || "15" <= acct.code)
    case Liability => !("21" <= acct.code || "25" <= acct.code)
    case Equity => !("3" <= acct.code)
    case Income => false
    case Expense => false
  }

  function UnclassifiedIn(a: int, b: int): Row -> bool {
    (r: Row) => Unclassified(r.account) && r.posted && a <= r.date <= b
  }

  /** No code starts with two different two-character prefixes. */
  lemma OnePrefix(code: string)
    ensures "11" <= code ==> !("12" <= code || "13" <= code || "15" <= code)
    ensures "12" <= code ==> !("13" <= code || "15" <= code)
    ensures "13" <= code ==> !("15" <= code)
    ensures "21" <= code ==> !("25" <= code)
  {
    if |code| >= 2 {
      var c := code[1];
      assert "11" <= code ==> c == "11"[1];
      assert "12" <= code ==> c == "12"[1];
      assert "13" <= code ==> c == "13"[1];
      assert "15" <= code ==> c == "15"[1];
      assert "21" <= code ==> c == "21"[1];
      assert "25" <= code ==> c == "25"[1];
    }
  }

  /** Every row of the period falls under exactly one heading. */
  lemma {:induction false} PeriodByHeading(rows: seq<Row>, a: int, b: int)
    requires a <= b + 1
    ensures Net(rows, CodeUpTo(Asset, "11", b)) - Net(rows, CodeUpTo(Asset, "11", a - 1))
          + Net(rows, CodeIn(Asset, "12", a, b)) + Net(rows, CodeIn(Asset, "13", a, b))
          + Net(rows, CodeIn(Asset, "15", a, b))
          + Net(rows, CodeIn(Liability, "21", a, b)) + Net(rows, CodeIn(Liability, "25", a, b))
          + Net(rows, CodeIn(Equity, "3", a, b)) + Net(rows, KindIn(Income, a, b)) + Net(rows, KindIn(Expense, a, b))
          + Net(rows, UnclassifiedIn(a, b))
         == Net(rows, InPeriod(a, b))
  {
    if rows != [] {
      OnePrefix(rows[0].account.code);
      PeriodByHeading(rows[1..], a, b);
      NetStep(rows, CodeUpTo(Asset, "11", b));
      NetStep(rows, CodeUpTo(Asset, "11", a - 1));
      NetStep(rows, CodeIn(Asset, "12", a, b));
      NetStep(rows, CodeIn(Asset, "13", a, b));
      NetStep(rows, CodeIn(Asset, "15", a, b));
      NetStep(rows, CodeIn(Liability, "21", a, b));
      NetStep(rows, CodeIn(Liability, "25", a, b));
      NetStep(rows, CodeIn(Equity, "3", a, b));
      NetStep(rows, KindIn(Income, a, b));
      NetStep(rows, KindIn(Expense, a, b));
      NetStep(rows, UnclassifiedIn(a, b));
      NetStep(rows, InPeriod(a, b));
      hide Net;
    }
  }

  /** The indirect method's identity: the change in cash is the three sections less what the
      unclassified accounts took up, so the sections explain it exactly when those net to zero. */
  lemma CashFlowIdentity(entries: seq<Entry>, a: int, b: int)
    requires Books(entries) && a <= b + 1
    ensures var rows, s := AllRows(entries), CashFlowPrefix(AllRows(entries), a, b);
      && s.closingCash - s.openingCash == s.netChange
      && s.netChange == s.operating + s.investing + s.financing - Net(rows, UnclassifiedIn(a, b))
      && (s.netChange == s.operating + s.investing + s.financing <==> Net(rows, UnclassifiedIn(a, b)) == 0)
  {
    var rows := AllRows(entries);
    PeriodByHeading(rows, a, b);
    FilteredBooksBalance(entries, InPeriod(a, b));
  }

  /** With every account of the period classified, the sections explain the change in cash. */
  lemma ClassifiedCashFlow(entries: seq<Entry>, a: int, b: int)
    requires Books(entries) && a <= b + 1
    requires forall r :: r in AllRows(entries) && r.posted && a <= r.date <= b ==> !Unclassified(r.account)
    ensures var s := CashFlowPrefix(AllRows(entries), a, b);
      s.closingCash - s.openingCash == s.operating + s.investing + s.financing
  {
    CashFlowIdentity(entries, a, b);
    NetNone(AllRows(entries), UnclassifiedIn(a, b));
  }

  // ----- which account feeds which figure ----------------------------------------

  datatype Section = CashItself | Operating | Investing | Financing | Nowhere

  /** The section an account's movements belong to: income, expenses, receivables, inventory and payables are
      operating, fixed assets investing, long-term debt and equity financing. */
  function SectionOf(acct: Account): Section {
    var group := if |acct.code| >= 2 then acct.code[..2] else [];
    match acct.kind
    case Income => Operating
    case Expense => Operating
    case Asset =>
      if group == "11" then CashItself
      else if group == "12" || group == "13" then Operating
      else if group == "15" then Investing
      else Nowhere
    case Liability => if group == "21" then Operating else if group == "25" then Financing else Nowhere
    case Equity => if |acct.code| >= 1 && acct.code[0] == '3' then Financing else Nowhere
  }

  /** What the posted rows of a period on the accounts of a section give: credits less debits. */
  function Given(section: Section, a: int, b: int): Row -> int {
    (r: Row) => if r.posted && a <= r.date <= b && SectionOf(r.account) == section then r.credit - r.debit else 0
  }

  /** Debits less credits of every posted row on a cash account dated up to d. */
  function CashHeld(d: int): Row -> int {
    (r: Row) => if r.posted && r.date <= d && SectionOf(r.account) == CashItself then r.debit - r.credit else 0
  }

  lemma StartsWith(code: string, prefix: string)
    requires |prefix| == 2
    ensures prefix <= code <==> |code| >= 2 && code[..2] == prefix
  {
  }

  lemma SectionPrefixes(acct: Account)
    ensures SectionOf(acct) == Operating <==>
            acct.kind == Income || acct.kind == Expense || (acct.kind == Asset && "12" <= acct.code)
            || (acct.kind == Asset && "13" <= acct.code) || (acct.kind == Liability && "21" <= acct.code)
    ensures SectionOf(acct) == Investing <==> acct.kind == Asset && "15" <= acct.code
    ensures SectionOf(acct) == Financing <==>
            (acct.kind == Liability && "25" <= acct.code) || (acct.kind == Equity && "3" <= acct.code)
    ensures SectionOf(acct) == CashItself <==> acct.kind == Asset && "11" <= acct.code
    ensures SectionOf(acct) == Nowhere <==> Unclassified(acct)
  {
    OnePrefix(acct.code);
    StartsWith(acct.code, "11");
    StartsWith(acct.code, "12");
    StartsWith(acct.code, "13");
    StartsWith(acct.code, "15");
    StartsWith(acct.code, "21");
    StartsWith(acct.code, "25");
    assert "3" <= acct.code <==> |acct.code| >= 1 && acct.code[0] == '3';
  }

  lemma {:induction false} OperatingIs(rows: seq<Row>, a: int, b: int)
    ensures Net(rows, KindIn(Income, a, b)) + Net(rows, KindIn(Expense, a, b)) + Net(rows, CodeIn(Asset, "12", a, b))
          + Net(rows, CodeIn(Asset, "13", a, b)) + Net(rows, CodeIn(Liability, "21", a, b))
         == -Sum(rows, Given(Operating, a, b))
  {
    if rows != [] {
      OnePrefix(rows[0].account.code);
      SectionPrefixes(rows[0].account);
      OperatingIs(rows[1..], a, b);
      NetStep(rows, KindIn(Income, a, b));
      NetStep(rows, KindIn(Expense, a, b));
      NetStep(rows, CodeIn(Asset, "12", a, b));
      NetStep(rows, CodeIn(Asset, "13", a, b));
      NetStep(rows, CodeIn(Liability, "21", a, b));
      hide Net, SectionOf, Unclassified;
    }
  }

  lemma {:induction false} InvestingAndFinancingAre(rows: seq<Row>, a: int, b: int)
    ensures Net(rows, CodeIn(Asset, "15", a, b)) == -Sum(rows, Given(Investing, a, b))
    ensures Net(rows, CodeIn(Liability, "25", a, b)) + Net(rows, CodeIn(Equity, "3", a, b))
         == -Sum(rows, Given(Financing, a, b))
  {
    if rows != [] {
      SectionPrefixes(rows[0].account);
      InvestingAndFinancingAre(rows[1..], a, b);
      NetStep(rows, CodeIn(Asset, "15", a, b));
      NetStep(rows, CodeIn(Liability, "25", a, b));
      NetStep(rows, CodeIn(Equity, "3", a, b));
      hide Net, SectionOf, Unclassified;
    }
  }

  lemma {:induction false} CashIs(rows: seq<Row>, d: int)
    ensures Net(rows, CodeUpTo(Asset, "11", d)) == Sum(rows, CashHeld(d))
  {
    if rows != [] {
      SectionPrefixes(rows[0].account);
      CashIs(rows[1..], d);
      NetStep(rows, CodeUpTo(Asset, "11", d));
      hide Net, SectionOf, Unclassified;
    }
  }

  /** Each section is what the accounts of its own gave in the period, and cash is what its accounts hold. */
  lemma FiguresAre(rows: seq<Row>, a: int, b: int)
    ensures var s := CashFlowPrefix(rows, a, b);
      && s.operating == Sum(rows, Given(Operating, a, b))
      && s.investing == Sum(rows, Given(Investing, a, b))
      && s.financing == Sum(rows, Given(Financing, a, b))
      && s.openingCash == Sum(rows, CashHeld(a - 1))
      && s.closingCash == Sum(rows, CashHeld(b))
      && s.netChange == s.closingCash - s.openingCash
  {
    hide Sum;
    OperatingIs(rows, a, b);
    InvestingAndFinancingAre(rows, a, b);
    CashIs(rows, a - 1);
    CashIs(rows, b);
  }

  /** Every posted row of the period is on an account of one of the sections. */
  ghost predicate OnlyMoves(rows: seq<Row>, a: int, b: int, sections: set<Section>) {
    forall r :: r in rows && r.posted && a <= r.date <= b ==> SectionOf(r.account) in sections
  }

  lemma QuietSection(rows: seq<Row>, a: int, b: int, sections: set<Section>, section: Section)
    requires OnlyMoves(rows, a, b, sections) && section !in sections
    ensures Sum(rows, Given(section, a, b)) == 0
    ensures section == Nowhere ==> Net(rows, UnclassifiedIn(a, b)) == 0
  {
    SumZero(rows, Given(section, a, b));
    if section == Nowhere {
      forall r | r in rows
        ensures !UnclassifiedIn(a, b)(r)
      {
        SectionPrefixes(r.account);
      }
      NetNone(rows, UnclassifiedIn(a, b));
    }
  }

  /** Fixed assets traded for cash are investing and nothing else, debt and equity against cash financing and nothing
      else, income, expenses, receivables, inventory and payables against cash and each other operating and nothing
      else. */
  lemma SectionsSeparate(entries: seq<Entry>, a: int, b: int)
    requires Books(entries) && a <= b + 1
    ensures var rows, s := AllRows(entries), CashFlowPrefix(AllRows(entries), a, b);
      && (OnlyMoves(rows, a, b, {CashItself, Investing}) ==>
            s.operating == 0 && s.financing == 0 && s.investing == s.netChange)
      && (OnlyMoves(rows, a, b, {CashItself, Financing}) ==>
            s.operating == 0 && s.investing == 0 && s.financing == s.netChange)
      && (OnlyMoves(rows, a, b, {CashItself, Operating}) ==>
            s.investing == 0 && s.financing == 0 && s.operating == s.netChange)
  {
    hide CashFlowPrefix, Net, Sum, SectionOf;
    var rows := AllRows(entries);
    CashFlowIdentity(entries, a, b);
    FiguresAre(rows, a, b);
    if OnlyMoves(rows, a, b, {CashItself, Investing}) {
      QuietSection(rows, a, b, {CashItself, Investing}, Operating);
      QuietSection(rows, a, b, {CashItself, Investing}, Financing);
      QuietSection(rows, a, b, {CashItself, Investing}, Nowhere);
    }
    if OnlyMoves(rows, a, b, {CashItself, Financing}) {
      QuietSection(rows, a, b, {CashItself, Financing}, Operating);
      QuietSection(rows, a, b, {CashItself, Financing}, Investing);
      QuietSection(rows, a, b, {CashItself, Financing}, Nowhere);
    }
    if OnlyMoves(rows, a, b, {CashItself, Operating}) {
      QuietSection(rows, a, b, {CashItself, Operating}, Investing);
      QuietSection(rows, a, b, {CashItself, Operating}, Financing);
      QuietSection(rows, a, b, {CashItself, Operating}, Nowhere);
    }
  }

  function DepreciationEntry(): Entry {
    var c := Currency("SAR", 2);
    var expense, accumulated := Account(1, "5300", Expense, true, true), Account(2, "1410", Asset, true, true);
    Entry(1, true, 0, "DEP-1",
          [Row(1, true, 0, 1, expense, c, 100, 0, 1.0, 100, 0),
           Row(1, true, 0, 2, accumulated, c, 0, 100, 1.0, 0, 100)])
  }

  lemma DepreciationBalanced()
    ensures Books([DepreciationEntry()]) && AllRows([DepreciationEntry()]) == DepreciationEntry().rows
  {
    var e := DepreciationEntry();
    RoundExact(100);
    RoundExact(0);
    assert RowOf(e, e.rows[0]) && RowOf(e, e.rows[1]);
    assert e.rows == [e.rows[0]] + [e.rows[1]];
    SumConcat([e.rows[0]], [e.rows[1]], (r: Row) => r.debit);
    SumConcat([e.rows[0]], [e.rows[1]], (r: Row) => r.credit);
    SumOne(e.rows[0], (r: Row) => r.debit);
    SumOne(e.rows[1], (r: Row) => r.debit);
    SumOne(e.rows[0], (r: Row) => r.credit);
    SumOne(e.rows[1], (r: Row) => r.credit);
    assert AllRows([e]) == e.rows + AllRows([e][1..]);
  }

  /** A depreciation entry credits an account coded 1410: cash stands still while the sections show an outflow. */
  lemma DepreciationIsUnexplained()
    ensures Books([DepreciationEntry()])
    ensures var s := CashFlowPrefix(AllRows([DepreciationEntry()]), 0, 0);
      s.netChange == s.operating + s.investing + s.financing + 100
  {
    hide CashFlowPrefix, Debits, Credits, AllRows, RowOf;
    var e := DepreciationEntry();
    DepreciationBalanced();
    CashFlowIdentity([e], 0, 0);
    var keep, code := UnclassifiedIn(0, 0), "1410";
    assert code[1] == '4' && "11"[1] == '1' && "12"[1] == '2' && "13"[1] == '3' && "15"[1] == '5';
    assert Unclassified(e.rows[1].account);
    NetStep(e.rows, keep);
    NetStep(e.rows[1..], keep);
    NetNone(e.rows[1..][1..], keep);
  }
}
