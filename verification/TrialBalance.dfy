/** The adjusted trial balance: column totals and roll-forward. */
module TrialBalance {
  import opened GeneralLedger
  import opened Ledger
  import opened Sorting
  import opened Sums

  datatype Line = Line(account: Account, openingDebit: int, openingCredit: int, periodDebit: int, periodCredit: int,
                       closingDebit: int, closingCredit: int)

  function OfAccount(keep: Row -> bool, id: int): Row -> bool {
    (r: Row) => r.account.id == id && keep(r)
  }

  /** values("account_id").annotate(dr=Sum("debit"), cr=Sum("credit")) */
  function SumsById(rows: seq<Row>, keep: Row -> bool): map<int, (int, int)> {
    map id | id in (set r | r in rows && keep(r) :: r.account.id)
      :: (Debits(rows, OfAccount(keep, id)), Credits(rows, OfAccount(keep, id)))
  }

  predicate CodeOrder(x: Account, y: Account) { StringLe(x.code, y.code) }

  ghost predicate Touched(rows: seq<Row>, a: int, b: int, id: int) {
    exists r :: r in rows && r.account.id == id && (UpTo(a - 1)(r) || InPeriod(a, b)(r))
  }

  /** The accounts the report lists. */
  ghost predicate Listed(rows: seq<Row>, chart: seq<Account>, a: int, b: int, acct: Account) {
    acct in chart && acct.postable && acct.active && Touched(rows, a, b, acct.id)
  }

  /** The pairs of one account: before the period, in it, and their sums. */
  function LineOf(rows: seq<Row>, acct: Account, a: int, b: int): Line {
    var openDr, openCr := Debits(rows, OfAccount(UpTo(a - 1), acct.id)), Credits(rows, OfAccount(UpTo(a - 1), acct.id));
    var periodDr, periodCr := Debits(rows, OfAccount(InPeriod(a, b), acct.id)),
        Credits(rows, OfAccount(InPeriod(a, b), acct.id));
    Line(acct, openDr, openCr, periodDr, periodCr, openDr + periodDr, openCr + periodCr)
  }

  /** One line per listed account, in code order. */
  ghost predicate IsTrialBalance(rows: seq<Row>, chart: seq<Account>, a: int, b: int, lines: seq<Line>) {
    && (forall i, j :: 0 <= i < j < |lines| ==>
          lines[i].account != lines[j].account && StringLe(lines[i].account.code, lines[j].account.code))
    && (forall l :: l in lines ==> Listed(rows, chart, a, b, l.account) && l == LineOf(rows, l.account, a, b))
    && (forall acct :: Listed(rows, chart, a, b, acct) ==> LineOf(rows, acct, a, b) in lines)
  }

  ghost predicate Postings(rows: seq<Row>) {
    forall r :: r in rows ==> 0 <= r.debit && 0 <= r.credit && (r.debit > 0 || r.credit > 0)
  }

  lemma {:induction false} PostedRowsArePostings(entries: seq<Entry>)
    requires Books(entries)
    ensures Postings(AllRows(entries))
  {
    if entries != [] {
      PostedRowsArePostings(entries[1..]);
      var e := entries[0];
      forall r | r in e.rows
        ensures 0 <= r.debit && 0 <= r.credit && (r.debit > 0 || r.credit > 0)
      {
        assert Balanced(e) && RowOf(e, r);
      }
    }
  }

  /** A filter that selects a row has a positive debit or credit sum; one that selects none sums to nothing. */
  lemma SelectedIsNonZero(rows: seq<Row>, keep: Row -> bool)
    requires Postings(rows)
    ensures Debits(rows, keep) >= 0 && Credits(rows, keep) >= 0
    ensures (exists r :: r in rows && keep(r)) <==> Debits(rows, keep) != 0 || Credits(rows, keep) != 0
  {
    SumNonNegative(rows, DebitIf(keep));
    SumNonNegative(rows, CreditIf(keep));
    if r :| r in rows && keep(r) {
      assert DebitIf(keep)(r) > 0 || CreditIf(keep)(r) > 0;
    } else {
      NetNone(rows, keep);
    }
  }

  /** What dict.get(id, (0, 0)) finds in a query's result. */
  function Pair(sums: map<int, (int, int)>, id: int): (int, int) {
    if id in sums then sums[id] else (0, 0)
  }

  lemma PairIs(rows: seq<Row>, keep: Row -> bool, id: int)
    ensures Pair(SumsById(rows, keep), id) == (Debits(rows, OfAccount(keep, id)), Credits(rows, OfAccount(keep, id)))
  {
    if id !in SumsById(rows, keep) {
      forall r | r in rows
        ensures !OfAccount(keep, id)(r)
      {
        assert keep(r) ==> r.account.id in SumsById(rows, keep);
      }
      NetNone(rows, OfAccount(keep, id));
    }
  }

  lemma TouchedIs(rows: seq<Row>, a: int, b: int, acct: Account)
    ensures Touched(rows, a, b, acct.id)
            <==> acct.id in SumsById(rows, UpTo(a - 1)).Keys + SumsById(rows, InPeriod(a, b)).Keys
  {
  }

  /** A line's pairs: the account's posted debits and credits before the period, in it and up to its end. */
  ghost predicate PairsAre(rows: seq<Row>, a: int, b: int, l: Line) {
    var id := l.account.id;
    && l.openingDebit == DebitsUpTo(rows, id, a - 1) && l.openingCredit == CreditsUpTo(rows, id, a - 1)
    && l.periodDebit == PeriodDebits(rows, id, a, b) && l.periodCredit == PeriodCredits(rows, id, a, b)
    && (a <= b + 1 ==> l.closingDebit == DebitsUpTo(rows, id, b))
    && (a <= b + 1 ==> l.closingCredit == CreditsUpTo(rows, id, b))
  }

  lemma UpToIs(rows: seq<Row>, id: int, d: int)
    ensures Debits(rows, OfAccount(UpTo(d), id)) == DebitsUpTo(rows, id, d)
    ensures Credits(rows, OfAccount(UpTo(d), id)) == CreditsUpTo(rows, id, d)
  {
    var debit := (r: Row) => if r.posted && r.account.id == id && r.date <= d then r.debit else 0;
    var credit := (r: Row) => if r.posted && r.account.id == id && r.date <= d then r.credit else 0;
    SumSame(rows, DebitIf(OfAccount(UpTo(d), id)), debit);
    SumSame(rows, CreditIf(OfAccount(UpTo(d), id)), credit);
  }

  lemma InPeriodIs(rows: seq<Row>, id: int, a: int, b: int)
    ensures Debits(rows, OfAccount(InPeriod(a, b), id)) == PeriodDebits(rows, id, a, b)
    ensures Credits(rows, OfAccount(InPeriod(a, b), id)) == PeriodCredits(rows, id, a, b)
  {
    var debit := (r: Row) => if r.posted && r.account.id == id && a <= r.date <= b then r.debit else 0;
    var credit := (r: Row) => if r.posted && r.account.id == id && a <= r.date <= b then r.credit else 0;
    SumSame(rows, DebitIf(OfAccount(InPeriod(a, b), id)), debit);
    SumSame(rows, CreditIf(OfAccount(InPeriod(a, b), id)), credit);
  }

  lemma LinePairs(rows: seq<Row>, acct: Account, a: int, b: int)
    ensures PairsAre(rows, a, b, LineOf(rows, acct, a, b))
  {
    UpToIs(rows, acct.id, a - 1);
    InPeriodIs(rows, acct.id, a, b);
    if a <= b + 1 {
      UpToIs(rows, acct.id, b);
      NetSplit(rows, OfAccount(UpTo(b), acct.id), OfAccount(UpTo(a - 1), acct.id), OfAccount(InPeriod(a, b), acct.id));
    }
    hide Debits, Credits, DebitsUpTo, CreditsUpTo, PeriodDebits, PeriodCredits;
  }

  /** The report lists the active, postable accounts with a posted row up to the end of the period, each once. */
  lemma LinesFromRows(rows: seq<Row>, chart: seq<Account>, a: int, b: int, lines: seq<Line>)
    requires IsTrialBalance(rows, chart, a, b, lines) && a <= b + 1
    ensures forall l :: l in lines ==> PairsAre(rows, a, b, l)
    ensures forall acct :: (exists l :: l in lines && l.account == acct) <==>
              acct in chart && acct.postable && acct.active
              && exists r :: r in rows && r.account.id == acct.id && r.posted && r.date <= b
  {
    hide LineOf, PairsAre, StringLe;
    forall l | l in lines
      ensures PairsAre(rows, a, b, l)
    {
      LinePairs(rows, l.account, a, b);
    }
    forall acct
      ensures (exists l :: l in lines && l.account == acct) <==>
              acct in chart && acct.postable && acct.active
              && exists r :: r in rows && r.account.id == acct.id && r.posted && r.date <= b
    {
      TouchedByEnd(rows, a, b, acct.id);
      LineAccount(rows, acct, a, b);
    }
  }

  lemma LineAccount(rows: seq<Row>, acct: Account, a: int, b: int)
    ensures LineOf(rows, acct, a, b).account == acct
  {
  }

  lemma TouchedByEnd(rows: seq<Row>, a: int, b: int, id: int)
    requires a <= b + 1
    ensures Touched(rows, a, b, id) <==> exists r :: r in rows && r.account.id == id && r.posted && r.date <= b
  {
    if r :| r in rows && r.account.id == id && r.posted && r.date <= b {
      assert UpTo(a - 1)(r) || InPeriod(a, b)(r);
    }
  }

  method AdjustedTrialBalance(rows: seq<Row>, chart: seq<Account>, a: int, b: int) returns (lines: seq<Line>)
    requires Postings(rows) && Distinct(chart)
    ensures IsTrialBalance(rows, chart, a, b, lines)
    ensures a <= b + 1 ==> forall l :: l in lines ==> PairsAre(rows, a, b, l)
  {
    hide *;
    var opening := SumsById(rows, UpTo(a - 1));
    var period := SumsById(rows, InPeriod(a, b));
    var allIds := opening.Keys + period.Keys;
    var shown := (acct: Account) => acct.id in allIds && acct.postable && acct.active;
    var accounts := Sort(Filter(chart, shown), CodeOrder);
    AccountsSorted(chart, shown);
    SelectsIds(rows, chart, a, b, accounts, allIds);
    lines := [];
    for i := 0 to |accounts|
      invariant |lines| == i
      invariant forall j :: 0 <= j < i ==> lines[j] == LineOf(rows, accounts[j], a, b)
    {
      var acct := accounts[i];
      var open, prd := Pair(opening, acct.id), Pair(period, acct.id);
      LineFromPairs(rows, chart, accounts, a, b, acct);
      if open.0 != 0 || open.1 != 0 || prd.0 != 0 || prd.1 != 0 {
        lines := lines + [Line(acct, open.0, open.1, prd.0, prd.1, open.0 + prd.0, open.1 + prd.1)];
      }
    }
    Assemble(rows, chart, a, b, accounts, lines);
    if a <= b + 1 {
      LinesFromRows(rows, chart, a, b, lines);
    }
  }

  ghost predicate Selects(rows: seq<Row>, chart: seq<Account>, a: int, b: int, accounts: seq<Account>) {
    forall acct :: acct in accounts <==> Listed(rows, chart, a, b, acct)
  }

  lemma SelectsIds(rows: seq<Row>, chart: seq<Account>, a: int, b: int, accounts: seq<Account>, ids: set<int>)
    requires ids == SumsById(rows, UpTo(a - 1)).Keys + SumsById(rows, InPeriod(a, b)).Keys
    requires forall acct :: acct in accounts <==> acct in chart && acct.id in ids && acct.postable && acct.active
    ensures Selects(rows, chart, a, b, accounts)
  {
    forall acct
      ensures acct in accounts <==> Listed(rows, chart, a, b, acct)
    {
      TouchedIs(rows, a, b, acct);
    }
  }

  lemma LineFromPairs(rows: seq<Row>, chart: seq<Account>, accounts: seq<Account>, a: int, b: int, acct: Account)
    requires Postings(rows) && Selects(rows, chart, a, b, accounts) && acct in accounts
    ensures var open, prd := Pair(SumsById(rows, UpTo(a - 1)), acct.id), Pair(SumsById(rows, InPeriod(a, b)), acct.id);
      && LineOf(rows, acct, a, b) == Line(acct, open.0, open.1, prd.0, prd.1, open.0 + prd.0, open.1 + prd.1)
      && (open.0 != 0 || open.1 != 0 || prd.0 != 0 || prd.1 != 0)
  {
    hide SumsById, Debits, Credits;
    PairIs(rows, UpTo(a - 1), acct.id);
    PairIs(rows, InPeriod(a, b), acct.id);
    ListedIsNonZero(rows, chart, a, b, acct);
  }

  lemma Assemble(rows: seq<Row>, chart: seq<Account>, a: int, b: int, accounts: seq<Account>, lines: seq<Line>)
    requires Distinct(accounts) && SortedBy(accounts, CodeOrder) && Selects(rows, chart, a, b, accounts)
    requires |lines| == |accounts| && forall i :: 0 <= i < |lines| ==> lines[i] == LineOf(rows, accounts[i], a, b)
    ensures IsTrialBalance(rows, chart, a, b, lines)
  {
    hide Debits, Credits, StringLe;
    forall i, j | 0 <= i < j < |lines|
      ensures lines[i].account != lines[j].account && StringLe(lines[i].account.code, lines[j].account.code)
    {
      assert CodeOrder(accounts[i], accounts[j]);
    }
    forall acct | Listed(rows, chart, a, b, acct)
      ensures LineOf(rows, acct, a, b) in lines
    {
      assert acct in accounts;
      var i :| 0 <= i < |accounts| && accounts[i] == acct;
      assert lines[i] in lines;
    }
  }

  /** The report's "no activity" guard never drops a listed account. */
  lemma ListedIsNonZero(rows: seq<Row>, chart: seq<Account>, a: int, b: int, acct: Account)
    requires Postings(rows) && Listed(rows, chart, a, b, acct)
    ensures var l := LineOf(rows, acct, a, b);
      l.openingDebit != 0 || l.openingCredit != 0 || l.periodDebit != 0 || l.periodCredit != 0
  {
    hide Debits, Credits;
    SelectedIsNonZero(rows, OfAccount(UpTo(a - 1), acct.id));
    SelectedIsNonZero(rows, OfAccount(InPeriod(a, b), acct.id));
  }

  lemma AccountsSorted(chart: seq<Account>, shown: Account -> bool)
    requires Distinct(chart)
    ensures var accounts := Sort(Filter(chart, shown), CodeOrder);
      && Distinct(accounts) && SortedBy(accounts, CodeOrder)
      && (forall acct :: acct in accounts <==> acct in chart && shown(acct))
  {
    FilterIn(chart, shown);
    SortPermutes(Filter(chart, shown), CodeOrder);
    StringLeOrder();
    SortSorts(Filter(chart, shown), CodeOrder);
    FilterSingle(chart, shown);
    SingleMeansDistinct(Sort(Filter(chart, shown), CodeOrder));
  }

  lemma {:induction false} FilterSingle(chart: seq<Account>, shown: Account -> bool)
    requires Distinct(chart)
    ensures forall x :: multiset(Filter(chart, shown))[x] <= 1
  {
    if chart != [] {
      FilterSingle(chart[1..], shown);
      FilterIn(chart[1..], shown);
      assert chart[0] !in chart[1..];
      assert chart[0] !in multiset(Filter(chart[1..], shown));
    }
  }

  // ----- column totals -------------------------------------------------------

  predicate Shows(chart: seq<Account>, acct: Account) {
    acct in chart && acct.postable && acct.active
  }

  /** The rows a filter selects on accounts the report leaves out: inactive or not postable. */
  function Hidden(chart: seq<Account>, keep: Row -> bool): Row -> bool {
    (r: Row) => keep(r) && !Shows(chart, r.account)
  }

  function Visible(chart: seq<Account>, keep: Row -> bool): Row -> bool {
    (r: Row) => keep(r) && Shows(chart, r.account)
  }

  /** Ids identify accounts. */
  ghost predicate ChartKeys(rows: seq<Row>, chart: seq<Account>) {
    && (forall x, y :: x in chart && y in chart && x.id == y.id ==> x == y)
    && (forall r, x :: r in rows && x in chart && r.account.id == x.id ==> r.account == x)
  }

  function Ids(lines: seq<Line>): (ids: seq<int>)
    ensures |ids| == |lines| && forall i :: 0 <= i < |lines| ==> ids[i] == lines[i].account.id
  {
    if lines == [] then [] else [lines[0].account.id] + Ids(lines[1..])
  }

  lemma IdsDistinct(rows: seq<Row>, chart: seq<Account>, a: int, b: int, lines: seq<Line>)
    requires ChartKeys(rows, chart) && IsTrialBalance(rows, chart, a, b, lines)
    ensures Distinct(Ids(lines))
  {
    hide LineOf, Touched, StringLe;
    var ids := Ids(lines);
    forall i, j | 0 <= i < j < |ids|
      ensures ids[i] != ids[j]
    {
      assert lines[i] in lines && lines[j] in lines;
    }
  }

  /** A row of the report's dates is on a listed account exactly when its account is shown. */
  lemma IdListed(rows: seq<Row>, chart: seq<Account>, a: int, b: int, lines: seq<Line>, r: Row)
    requires ChartKeys(rows, chart) && IsTrialBalance(rows, chart, a, b, lines)
    requires r in rows && (UpTo(a - 1)(r) || InPeriod(a, b)(r))
    ensures r.account.id in Ids(lines) <==> Shows(chart, r.account)
  {
    hide Debits, Credits, StringLe;
    var ids := Ids(lines);
    if r.account.id in ids {
      var i :| 0 <= i < |ids| && ids[i] == r.account.id;
      assert lines[i] in lines;
    }
    if Shows(chart, r.account) {
      assert Listed(rows, chart, a, b, r.account);
      var i :| 0 <= i < |lines| && lines[i] == LineOf(rows, r.account, a, b);
      assert ids[i] == r.account.id;
    }
  }

  /** A column regroups, by account, the rows its filter selects on the accounts shown. */
  lemma ColumnSum(rows: seq<Row>, chart: seq<Account>, a: int, b: int, lines: seq<Line>, column: Line -> int,
                  f: Row -> int, g: Row -> int)
    requires ChartKeys(rows, chart) && IsTrialBalance(rows, chart, a, b, lines)
    requires forall r :: r in rows && f(r) != 0 ==> UpTo(a - 1)(r) || InPeriod(a, b)(r)
    requires forall r :: r in rows ==> g(r) == if Shows(chart, r.account) then f(r) else 0
    requires forall l :: l in lines ==> column(l) == GroupSum(rows, (r: Row) => r.account.id, l.account.id, f)
    ensures Sum(lines, column) == Sum(rows, g)
  {
    hide IsTrialBalance, ChartKeys, Shows;
    var key, ids := (r: Row) => r.account.id, Ids(lines);
    IdsDistinct(rows, chart, a, b, lines);
    forall r | r in rows
      ensures g(r) == if key(r) in ids then f(r) else 0
    {
      if f(r) != 0 {
        IdListed(rows, chart, a, b, lines, r);
      }
    }
    SumByGroup(rows, key, ids, f, g);
    forall i | 0 <= i < |lines|
      ensures column(lines[i]) == GroupOf(rows, key, f)(ids[i])
    {
      assert lines[i] in lines;
      SumSame(rows, KeyIf((r: Row) => r.account.id, ids[i], f), KeyIf(key, ids[i], f));
    }
    SumVia(lines, ids, column, GroupOf(rows, key, f));
  }

  function DebitColumn(rows: seq<Row>, keep: Row -> bool): Line -> int {
    (l: Line) => Debits(rows, OfAccount(keep, l.account.id))
  }

  function CreditColumn(rows: seq<Row>, keep: Row -> bool): Line -> int {
    (l: Line) => Credits(rows, OfAccount(keep, l.account.id))
  }

  lemma ColumnPair(rows: seq<Row>, chart: seq<Account>, a: int, b: int, lines: seq<Line>, keep: Row -> bool)
    requires ChartKeys(rows, chart) && IsTrialBalance(rows, chart, a, b, lines)
    requires forall r :: r in rows && keep(r) ==> UpTo(a - 1)(r) || InPeriod(a, b)(r)
    ensures Sum(lines, DebitColumn(rows, keep)) - Sum(lines, CreditColumn(rows, keep))
            == Net(rows, Visible(chart, keep))
  {
    forall l | l in lines
      ensures DebitColumn(rows, keep)(l) == GroupSum(rows, (r: Row) => r.account.id, l.account.id, DebitIf(keep))
      ensures CreditColumn(rows, keep)(l) == GroupSum(rows, (r: Row) => r.account.id, l.account.id, CreditIf(keep))
    {
      SumSame(rows, DebitIf(OfAccount(keep, l.account.id)),
              KeyIf((r: Row) => r.account.id, l.account.id, DebitIf(keep)));
      SumSame(rows, CreditIf(OfAccount(keep, l.account.id)),
              KeyIf((r: Row) => r.account.id, l.account.id, CreditIf(keep)));
    }
    ColumnSum(rows, chart, a, b, lines, DebitColumn(rows, keep), DebitIf(keep), DebitIf(Visible(chart, keep)));
    ColumnSum(rows, chart, a, b, lines, CreditColumn(rows, keep), CreditIf(keep), CreditIf(Visible(chart, keep)));
  }

  /** Each pair of columns differs by exactly the net of the accounts left out, so the
      report balances exactly when those accounts net to zero. */
  lemma ColumnsDifferByHidden(entries: seq<Entry>, chart: seq<Account>, a: int, b: int, lines: seq<Line>)
    requires Books(entries) && ChartKeys(AllRows(entries), chart)
             && IsTrialBalance(AllRows(entries), chart, a, b, lines)
    ensures Sum(lines, (l: Line) => l.openingDebit) - Sum(lines, (l: Line) => l.openingCredit)
         == -Net(AllRows(entries), Hidden(chart, UpTo(a - 1)))
    ensures Sum(lines, (l: Line) => l.periodDebit) - Sum(lines, (l: Line) => l.periodCredit)
         == -Net(AllRows(entries), Hidden(chart, InPeriod(a, b)))
    ensures Sum(lines, (l: Line) => l.closingDebit) - Sum(lines, (l: Line) => l.closingCredit)
         == -Net(AllRows(entries), Hidden(chart, UpTo(a - 1))) - Net(AllRows(entries), Hidden(chart, InPeriod(a, b)))
  {
    hide Debits, Credits;
    var rows := AllRows(entries);
    ColumnPair(rows, chart, a, b, lines, UpTo(a - 1));
    ColumnPair(rows, chart, a, b, lines, InPeriod(a, b));
    SumSame(lines, (l: Line) => l.openingDebit, DebitColumn(rows, UpTo(a - 1)));
    SumSame(lines, (l: Line) => l.openingCredit, CreditColumn(rows, UpTo(a - 1)));
    SumSame(lines, (l: Line) => l.periodDebit, DebitColumn(rows, InPeriod(a, b)));
    SumSame(lines, (l: Line) => l.periodCredit, CreditColumn(rows, InPeriod(a, b)));
    SumAdd(lines, (l: Line) => l.closingDebit, (l: Line) => l.openingDebit, (l: Line) => l.periodDebit);
    SumAdd(lines, (l: Line) => l.closingCredit, (l: Line) => l.openingCredit, (l: Line) => l.periodCredit);
    FilteredBooksBalance(entries, UpTo(a - 1));
    FilteredBooksBalance(entries, InPeriod(a, b));
    NetSplit(rows, UpTo(a - 1), Visible(chart, UpTo(a - 1)), Hidden(chart, UpTo(a - 1)));
    NetSplit(rows, InPeriod(a, b), Visible(chart, InPeriod(a, b)), Hidden(chart, InPeriod(a, b)));
  }

  /** When every touched account is postable and active, each pair of columns balances. */
  lemma ColumnsBalance(entries: seq<Entry>, chart: seq<Account>, a: int, b: int, lines: seq<Line>)
    requires Books(entries) && ChartKeys(AllRows(entries), chart)
             && IsTrialBalance(AllRows(entries), chart, a, b, lines)
    requires forall r :: r in AllRows(entries) && (UpTo(a - 1)(r) || InPeriod(a, b)(r)) ==> Shows(chart, r.account)
    ensures Sum(lines, (l: Line) => l.openingDebit) == Sum(lines, (l: Line) => l.openingCredit)
    ensures Sum(lines, (l: Line) => l.periodDebit) == Sum(lines, (l: Line) => l.periodCredit)
    ensures Sum(lines, (l: Line) => l.closingDebit) == Sum(lines, (l: Line) => l.closingCredit)
  {
    ColumnsDifferByHidden(entries, chart, a, b, lines);
    NetNone(AllRows(entries), Hidden(chart, UpTo(a - 1)));
    NetNone(AllRows(entries), Hidden(chart, InPeriod(a, b)));
  }

  // ----- roll-forward --------------------------------------------------------

  ghost predicate Reopens(l: Line, next: seq<Line>) {
    exists n :: n in next && n.account == l.account
      && n.openingDebit == l.closingDebit && n.openingCredit == l.closingCredit
  }

  /** Each line of [a, b] reappears in the report of any next period, opening where it closed; and the
      next report opens no other account with a balance. */
  lemma RollForward(rows: seq<Row>, chart: seq<Account>, a: int, b: int, c: int, lines: seq<Line>, next: seq<Line>)
    requires Postings(rows) && a <= b + 1
    requires IsTrialBalance(rows, chart, a, b, lines) && IsTrialBalance(rows, chart, b + 1, c, next)
    ensures forall l :: l in lines ==> Reopens(l, next)
    ensures forall n :: n in next && (n.openingDebit != 0 || n.openingCredit != 0) ==>
              exists l :: l in lines && l.account == n.account
  {
    forall l | l in lines
      ensures Reopens(l, next)
    {
      var acct := l.account;
      OpensWhereClosed(rows, acct, a, b, c);
      assert Listed(rows, chart, b + 1, c, acct);
      assert LineOf(rows, acct, b + 1, c) in next;
    }
    forall n | n in next && (n.openingDebit != 0 || n.openingCredit != 0)
      ensures exists l :: l in lines && l.account == n.account
    {
      SelectedIsNonZero(rows, OfAccount(UpTo(b), n.account.id));
      var r :| r in rows && OfAccount(UpTo(b), n.account.id)(r);
      assert UpTo(a - 1)(r) || InPeriod(a, b)(r);
      assert Listed(rows, chart, a, b, n.account);
      assert LineOf(rows, n.account, a, b) in lines;
    }
  }

  /** Over any books, reports of adjacent periods roll forward, and what the first one's closing columns are out of
      balance by, exactly the net of the accounts left out, is what the next one opens with. */
  lemma BooksRollForward(entries: seq<Entry>, chart: seq<Account>, a: int, b: int, c: int, lines: seq<Line>,
                         next: seq<Line>)
    requires Books(entries) && ChartKeys(AllRows(entries), chart) && a <= b + 1
    requires IsTrialBalance(AllRows(entries), chart, a, b, lines)
             && IsTrialBalance(AllRows(entries), chart, b + 1, c, next)
    ensures Postings(AllRows(entries))
    ensures forall l :: l in lines ==> Reopens(l, next)
    ensures Sum(lines, (l: Line) => l.closingDebit) - Sum(lines, (l: Line) => l.closingCredit)
         == Sum(next, (l: Line) => l.openingDebit) - Sum(next, (l: Line) => l.openingCredit)
         == -Net(AllRows(entries), Hidden(chart, UpTo(b)))
  {
    hide Debits, Credits, Books, ChartKeys, IsTrialBalance, Reopens, Shows, Postings;
    var rows := AllRows(entries);
    PostedRowsArePostings(entries);
    RollForward(rows, chart, a, b, c, lines, next);
    ColumnsDifferByHidden(entries, chart, a, b, lines);
    ColumnsDifferByHidden(entries, chart, b + 1, c, next);
    NetSplit(rows, Hidden(chart, UpTo(b)), Hidden(chart, UpTo(a - 1)), Hidden(chart, InPeriod(a, b)));
  }

  const RECEIVABLE: Account := Account(1, "1100", Asset, true, true)

  const INACTIVE: Account := Account(2, "4100", Income, true, false)

  function InactiveRows(): seq<Row> { AllRows([TwoLines(RECEIVABLE, INACTIVE, 0, 1.0)]) }

  lemma InactiveRowsAre()
    ensures Books([TwoLines(RECEIVABLE, INACTIVE, 0, 1.0)]) && |InactiveRows()| == 2
    ensures var r, s := InactiveRows()[0], InactiveRows()[1];
      && InactiveRows() == [r, s]
      && r.account == RECEIVABLE && r.posted && r.date == 0 && r.debit == 1 && r.credit == 0
      && s.account == INACTIVE && s.posted && s.date == 0 && s.debit == 0 && s.credit == 1
  {
    hide Functional, AllRows;
    TwoLinesBalanced(RECEIVABLE, INACTIVE, 0, 1.0);
  }

  lemma ReceivableLine()
    ensures var l := LineOf(InactiveRows(), RECEIVABLE, 0, 0);
      l.account == RECEIVABLE && l.periodDebit == 1 && l.periodCredit == 0
  {
    hide InactiveRows;
    InactiveRowsAre();
    var r, s := InactiveRows()[0], InactiveRows()[1];
    SumTwo(r, s, DebitIf(OfAccount(InPeriod(0, 0), 1)));
    SumTwo(r, s, CreditIf(OfAccount(InPeriod(0, 0), 1)));
  }

  /** A unit posted from an inactive account: the report lists only the other one and debits exceed credits. */
  lemma InactiveAccountExample()
    ensures Books([TwoLines(RECEIVABLE, INACTIVE, 0, 1.0)]) && ChartKeys(InactiveRows(), [RECEIVABLE, INACTIVE])
    ensures var lines := [LineOf(InactiveRows(), RECEIVABLE, 0, 0)];
      && IsTrialBalance(InactiveRows(), [RECEIVABLE, INACTIVE], 0, 0, lines)
      && Sum(lines, (l: Line) => l.periodDebit) == 1 && Sum(lines, (l: Line) => l.periodCredit) == 0
  {
    hide InactiveRows, LineOf, Books, Sum;
    InactiveRowsAre();
    ReceivableLine();
    var line := LineOf(InactiveRows(), RECEIVABLE, 0, 0);
    assert InactiveRows()[0] in InactiveRows() && InPeriod(0, 0)(InactiveRows()[0]);
    assert Listed(InactiveRows(), [RECEIVABLE, INACTIVE], 0, 0, RECEIVABLE);
    SumOne(line, (l: Line) => l.periodDebit);
    SumOne(line, (l: Line) => l.periodCredit);
  }

  lemma OpensWhereClosed(rows: seq<Row>, acct: Account, a: int, b: int, c: int)
    requires a <= b + 1
    ensures var l, n := LineOf(rows, acct, a, b), LineOf(rows, acct, b + 1, c);
      n.openingDebit == l.closingDebit && n.openingCredit == l.closingCredit
  {
    NetSplit(rows, OfAccount(UpTo(b), acct.id), OfAccount(UpTo(a - 1), acct.id), OfAccount(InPeriod(a, b), acct.id));
  }
}
