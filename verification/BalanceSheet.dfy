/** The balance sheet in functional currency: how far it can be out of balance, and why. */
module BalanceSheet {
  import opened Ledger
  import opened Rounding
  import opened Sorting
  import opened Sums

  datatype SheetRow = SheetRow(section: AccountType, code: string, balance: int)

  predicate PermanentKind(k: AccountType) { k == Asset || k == Liability || k == Equity }

  /** The functional debit less credit of the rows a filter selects. */
  function FunctionalNet(rows: seq<Row>, keep: Row -> bool): int { Sum(rows, FunctionalIf(keep)) }

  function FunctionalIf(keep: Row -> bool): Row -> int {
    (r: Row) => if keep(r) then r.functionalDebit - r.functionalCredit else 0
  }

  function KindsUpTo(kinds: set<AccountType>, d: int): Row -> bool {
    (r: Row) => r.account.kind in kinds && r.posted && r.date <= d
  }

  function AccountUpTo(acct: Account, d: int): Row -> bool {
    (r: Row) => r.account == acct && r.posted && r.date <= d
  }

  /** The accounts of the permanent kinds that the query's rows touch, in row order. */
  function Touched(rows: seq<Row>, d: int): seq<Account> {
    if rows == [] then []
    else
      (if PermanentKind(rows[0].account.kind) && rows[0].posted && rows[0].date <= d then [rows[0].account] else [])
      + Touched(rows[1..], d)
  }

  lemma {:induction false} TouchedIs(rows: seq<Row>, d: int)
    ensures forall acct :: acct in Touched(rows, d) ==> PermanentKind(acct.kind)
    ensures forall r :: r in rows && PermanentKind(r.account.kind) && r.posted && r.date <= d ==>
              r.account in Touched(rows, d)
  {
    if rows != [] {
      TouchedIs(rows[1..], d);
    }
  }

  /** The position of a type's stored name in alphabetical order. */
  function SectionRank(k: AccountType): int {
    match k
    case Asset => 0
    case Equity => 1
    case Expense => 2
    case Income => 3
    case Liability => 4
  }

  /** order_by("account__account_type", "code") */
  predicate SheetOrder(x: Account, y: Account) {
    SectionRank(x.kind) < SectionRank(y.kind) || (x.kind == y.kind && StringLe(x.code, y.code))
  }

  lemma SheetOrderTotal()
    ensures TotalPreorder(SheetOrder)
  {
    hide StringLe;
    StringLeOrder();
  }

  /** An account's line: debit-positive for assets, credit-positive otherwise. */
  function AccountRow(rows: seq<Row>, acct: Account, d: int): SheetRow {
    var net := FunctionalNet(rows, AccountUpTo(acct, d));
    SheetRow(acct.kind, acct.code, if acct.kind == Asset then net else -net)
  }

  function NetProfit(rows: seq<Row>, d: int): int {
    -FunctionalNet(rows, KindsUpTo({Income}, d)) - FunctionalNet(rows, KindsUpTo({Expense}, d))
  }

  /** Total assets less total liabilities and equity, as the final check adds them up. */
  function Difference(sheet: seq<SheetRow>): int {
    Sum(sheet, (s: SheetRow) => if s.section == Asset then s.balance else 0)
    - Sum(sheet, (s: SheetRow) => if s.section != Asset then s.balance else 0)
  }

  lemma DifferenceSnoc(sheet: seq<SheetRow>, row: SheetRow)
    ensures Difference(sheet + [row]) == Difference(sheet) + if row.section == Asset then row.balance else -row.balance
  {
    SumSnoc(sheet, row, (s: SheetRow) => if s.section == Asset then s.balance else 0);
    SumSnoc(sheet, row, (s: SheetRow) => if s.section != Asset then s.balance else 0);
  }

  ghost predicate ListsAccounts(rows: seq<Row>, d: int, accounts: seq<Account>) {
    Distinct(accounts) && SortedBy(accounts, SheetOrder)
    && forall acct :: acct in accounts <==> acct in Touched(rows, d)
  }

  ghost predicate AccountLines(rows: seq<Row>, d: int, accounts: seq<Account>, sheet: seq<SheetRow>) {
    |sheet| == |accounts| && forall i :: 0 <= i < |accounts| ==> sheet[i] == AccountRow(rows, accounts[i], d)
  }

  /** balance_sheet: one line per touched account, then the net profit; the check that may warn. */
  method BalanceSheetAsOf(rows: seq<Row>, asOf: int) returns (sheet: seq<SheetRow>, warned: bool)
    ensures sheet != [] && sheet[|sheet| - 1] == SheetRow(Equity, "RETAINED", NetProfit(rows, asOf))
    ensures exists accounts ::
              ListsAccounts(rows, asOf, accounts) && AccountLines(rows, asOf, accounts, sheet[..|sheet| - 1])
    ensures Difference(sheet) == FunctionalNet(rows, UpTo(asOf))
    ensures warned <==> FunctionalNet(rows, UpTo(asOf)) > 100 || FunctionalNet(rows, UpTo(asOf)) < -100
    ensures SheetOrdered(sheet[..|sheet| - 1])
    ensures SectionBalance(sheet, Asset) == Holds(rows, Asset, asOf)
    ensures SectionBalance(sheet, Liability) == -Holds(rows, Liability, asOf)
    ensures SectionBalance(sheet, Equity)
         == -Holds(rows, Equity, asOf) - Holds(rows, Income, asOf) - Holds(rows, Expense, asOf)
  {
    var accounts := Sort(Dedup(Touched(rows, asOf)), SheetOrder);
    SortedDistinct(Touched(rows, asOf), SheetOrder);
    SheetOrderTotal();
    SortSorts(Dedup(Touched(rows, asOf)), SheetOrder);
    var lines := AccountLoop(rows, accounts, asOf);
    var retained := SheetRow(Equity, "RETAINED", NetProfit(rows, asOf));
    sheet := lines + [retained];
    DifferenceSnoc(lines, retained);
    AccountsAddUp(rows, accounts, asOf);
    assert sheet[..|sheet| - 1] == lines;
    assert ListsAccounts(rows, asOf, accounts) && AccountLines(rows, asOf, accounts, lines);
    SectionsAre(rows, asOf, accounts, sheet);
    LinesOrdered(rows, asOf, accounts, lines);
    var difference := Difference(sheet);
    warned := difference > 100 || -difference > 100;
  }

  /** Assets come before equity and equity before liabilities; within a section codes ascend. */
  ghost predicate SheetOrdered(sheet: seq<SheetRow>) {
    forall i, j :: 0 <= i < j < |sheet| ==>
      && (sheet[i].section != Asset ==> sheet[j].section != Asset)
      && (sheet[i].section == Liability ==> sheet[j].section == Liability)
      && (sheet[i].section == sheet[j].section ==> StringLe(sheet[i].code, sheet[j].code))
  }

  lemma LinesOrdered(rows: seq<Row>, d: int, accounts: seq<Account>, lines: seq<SheetRow>)
    requires ListsAccounts(rows, d, accounts) && AccountLines(rows, d, accounts, lines)
    ensures SheetOrdered(lines)
  {
    hide StringLe, FunctionalNet;
    TouchedIs(rows, d);
    forall i, j | 0 <= i < j < |lines|
      ensures (lines[i].section != Asset ==> lines[j].section != Asset)
      ensures lines[i].section == Liability ==> lines[j].section == Liability
      ensures lines[i].section == lines[j].section ==> StringLe(lines[i].code, lines[j].code)
    {
      assert SheetOrder(accounts[i], accounts[j]);
      assert accounts[i] in Touched(rows, d) && accounts[j] in Touched(rows, d);
    }
  }

  method AccountLoop(rows: seq<Row>, accounts: seq<Account>, d: int) returns (lines: seq<SheetRow>)
    ensures AccountLines(rows, d, accounts, lines)
    ensures Difference(lines) == Sum(accounts, AccountNet(rows, d))
  {
    hide FunctionalNet, Difference;
    lines := [];
    assert Difference([]) == 0 by {
      EmptyDifference();
    }
    for i := 0 to |accounts|
      invariant AccountLines(rows, d, accounts[..i], lines)
      invariant Difference(lines) == Sum(accounts[..i], AccountNet(rows, d))
    {
      DifferenceSnoc(lines, AccountRow(rows, accounts[i], d));
      SumTake(accounts, i, AccountNet(rows, d));
      lines := lines + [AccountRow(rows, accounts[i], d)];
    }
    assert accounts[..|accounts|] == accounts;
  }

  lemma EmptyDifference()
    ensures Difference([]) == 0
  {
  }

  function AccountNet(rows: seq<Row>, d: int): Account -> int {
    acct => FunctionalNet(rows, AccountUpTo(acct, d))
  }

  /** The accounts' lines and the net profit regroup every row up to the date, each once. */
  lemma AccountsAddUp(rows: seq<Row>, accounts: seq<Account>, d: int)
    requires ListsAccounts(rows, d, accounts)
    ensures Sum(accounts, AccountNet(rows, d)) - NetProfit(rows, d) == FunctionalNet(rows, UpTo(d))
  {
    var key := (r: Row) => r.account;
    var permanent := KindsUpTo({Asset, Liability, Equity}, d);
    TouchedIs(rows, d);
    SumByGroup(rows, key, accounts, FunctionalIf(UpTo(d)), FunctionalIf(permanent));
    forall acct | acct in accounts
      ensures AccountNet(rows, d)(acct) == GroupOf(rows, key, FunctionalIf(UpTo(d)))(acct)
    {
      SumSame(rows, FunctionalIf(AccountUpTo(acct, d)), KeyIf(key, acct, FunctionalIf(UpTo(d))));
    }
    SumSame(accounts, AccountNet(rows, d), GroupOf(rows, key, FunctionalIf(UpTo(d))));
    var temporary := KindsUpTo({Income, Expense}, d);
    SumAdd(rows, FunctionalIf(UpTo(d)), FunctionalIf(permanent), FunctionalIf(temporary));
    SumAdd(rows, FunctionalIf(temporary), FunctionalIf(KindsUpTo({Income}, d)), FunctionalIf(KindsUpTo({Expense}, d)));
  }

  // ----- the sections --------------------------------------------------------------

  function SectionBalance(sheet: seq<SheetRow>, section: AccountType): int {
    Sum(sheet, (s: SheetRow) => if s.section == section then s.balance else 0)
  }

  /** Functional debits less credits of the posted rows dated up to d on accounts of one type. */
  function Holds(rows: seq<Row>, kind: AccountType, d: int): int { Sum(rows, HeldIf(kind, d)) }

  function HeldIf(kind: AccountType, d: int): Row -> int {
    (r: Row) =>
      if r.posted && r.date <= d && r.account.kind == kind then r.functionalDebit - r.functionalCredit else 0
  }

  function NetOfKind(rows: seq<Row>, kind: AccountType, d: int): Account -> int {
    (acct: Account) => if acct.kind == kind then FunctionalNet(rows, AccountUpTo(acct, d)) else 0
  }

  function BalanceOfKind(rows: seq<Row>, kind: AccountType, d: int): Account -> int {
    (acct: Account) => if acct.kind == kind then AccountRow(rows, acct, d).balance else 0
  }

  lemma SectionOfLines(rows: seq<Row>, d: int, accounts: seq<Account>, lines: seq<SheetRow>, kind: AccountType)
    requires AccountLines(rows, d, accounts, lines)
    ensures SectionBalance(lines, kind)
         == if kind == Asset then Sum(accounts, NetOfKind(rows, kind, d)) else -Sum(accounts, NetOfKind(rows, kind, d))
  {
    var sign := if kind == Asset then 1 else -1;
    forall acct | acct in accounts
      ensures BalanceOfKind(rows, kind, d)(acct) == sign * NetOfKind(rows, kind, d)(acct)
    {
    }
    SumScaled(accounts, BalanceOfKind(rows, kind, d), NetOfKind(rows, kind, d), sign);
    SumVia(lines, accounts, (s: SheetRow) => if s.section == kind then s.balance else 0, BalanceOfKind(rows, kind, d));
  }

  lemma SectionRegroups(rows: seq<Row>, accounts: seq<Account>, d: int, kind: AccountType)
    requires ListsAccounts(rows, d, accounts) && PermanentKind(kind)
    ensures Sum(accounts, NetOfKind(rows, kind, d)) == Holds(rows, kind, d)
  {
    var key := (r: Row) => r.account;
    TouchedIs(rows, d);
    SumByGroup(rows, key, accounts, HeldIf(kind, d), HeldIf(kind, d));
    forall acct | acct in accounts
      ensures NetOfKind(rows, kind, d)(acct) == GroupOf(rows, key, HeldIf(kind, d))(acct)
    {
      if acct.kind == kind {
        SumSame(rows, FunctionalIf(AccountUpTo(acct, d)), KeyIf(key, acct, HeldIf(kind, d)));
      } else {
        SumZero(rows, KeyIf(key, acct, HeldIf(kind, d)));
      }
    }
    SumSame(accounts, NetOfKind(rows, kind, d), GroupOf(rows, key, HeldIf(kind, d)));
  }

  /** Assets come to the functional debits less credits of the asset accounts, liabilities to the credits less
      debits of the liability accounts, equity to those of the equity accounts and of income and expenses. */
  lemma SectionsAre(rows: seq<Row>, d: int, accounts: seq<Account>, sheet: seq<SheetRow>)
    requires sheet != [] && sheet[|sheet| - 1] == SheetRow(Equity, "RETAINED", NetProfit(rows, d))
    requires ListsAccounts(rows, d, accounts) && AccountLines(rows, d, accounts, sheet[..|sheet| - 1])
    ensures SectionBalance(sheet, Asset) == Holds(rows, Asset, d)
    ensures SectionBalance(sheet, Liability) == -Holds(rows, Liability, d)
    ensures SectionBalance(sheet, Equity) == -Holds(rows, Equity, d) - Holds(rows, Income, d) - Holds(rows, Expense, d)
    ensures SectionBalance(sheet, Income) == 0 && SectionBalance(sheet, Expense) == 0
  {
    hide ListsAccounts, AccountLines, NetProfit, Holds;
    var lines, last := sheet[..|sheet| - 1], sheet[|sheet| - 1];
    assert sheet == lines + [last];
    forall kind
      ensures SectionBalance(sheet, kind) == SectionBalance(lines, kind) + if kind == Equity then last.balance else 0
    {
      SumSnoc(lines, last, (s: SheetRow) => if s.section == kind then s.balance else 0);
    }
    PermanentSections(rows, d, accounts, lines);
    ProfitIs(rows, d);
  }

  lemma PermanentSections(rows: seq<Row>, d: int, accounts: seq<Account>, lines: seq<SheetRow>)
    requires ListsAccounts(rows, d, accounts) && AccountLines(rows, d, accounts, lines)
    ensures SectionBalance(lines, Asset) == Holds(rows, Asset, d)
    ensures SectionBalance(lines, Liability) == -Holds(rows, Liability, d)
    ensures SectionBalance(lines, Equity) == -Holds(rows, Equity, d)
    ensures SectionBalance(lines, Income) == 0 && SectionBalance(lines, Expense) == 0
  {
    hide SectionBalance, Holds, AccountNet, Sum;
    SectionRegroups(rows, accounts, d, Asset);
    SectionRegroups(rows, accounts, d, Liability);
    SectionRegroups(rows, accounts, d, Equity);
    SectionOfLines(rows, d, accounts, lines, Asset);
    SectionOfLines(rows, d, accounts, lines, Liability);
    SectionOfLines(rows, d, accounts, lines, Equity);
    NoTemporarySection(rows, d, accounts, lines);
  }

  lemma NoTemporarySection(rows: seq<Row>, d: int, accounts: seq<Account>, lines: seq<SheetRow>)
    requires ListsAccounts(rows, d, accounts) && AccountLines(rows, d, accounts, lines)
    ensures SectionBalance(lines, Income) == 0 && SectionBalance(lines, Expense) == 0
  {
    TouchedIs(rows, d);
    forall s | s in lines
      ensures s.section != Income && s.section != Expense
    {
      var i :| 0 <= i < |lines| && lines[i] == s;
      assert accounts[i] in Touched(rows, d);
    }
    SumZero(lines, (s: SheetRow) => if s.section == Income then s.balance else 0);
    SumZero(lines, (s: SheetRow) => if s.section == Expense then s.balance else 0);
  }

  lemma ProfitIs(rows: seq<Row>, d: int)
    ensures NetProfit(rows, d) == -Holds(rows, Income, d) - Holds(rows, Expense, d)
  {
    SumSame(rows, FunctionalIf(KindsUpTo({Income}, d)), HeldIf(Income, d));
    SumSame(rows, FunctionalIf(KindsUpTo({Expense}, d)), HeldIf(Expense, d));
  }

  // ----- the rounding bound ----------------------------------------------------

  lemma SideNear(amount: int, rate: real)
    requires rate != 0.0
    ensures Within(Functional(amount, rate) as real - Product(rate, amount as real), 0.5)
    ensures amount == 0 ==> Functional(amount, rate) == 0 && Product(rate, amount as real) == 0.0
  {
    assert Functional(amount, rate) == Times(amount, rate);
    TimesNear(amount, rate);
    RoundExact(0);
  }

  lemma RowNear(r: Row, rate: real)
    requires (r.debit > 0) != (r.credit > 0) && r.debit >= 0 && r.credit >= 0 && rate != 0.0
    ensures Within((Functional(r.debit, rate) - Functional(r.credit, rate)) as real
                   - Product(rate, (r.debit - r.credit) as real), 0.5)
  {
    hide Functional, Product;
    SideNear(r.debit, rate);
    SideNear(r.credit, rate);
    ProductAdds(rate, r.debit - r.credit, r.credit);
  }

  lemma AddNear(x: int, y: int, rate: real, m: int, n: int, k: nat)
    requires Within(x as real - Product(rate, m as real), 0.5)
             && Within(y as real - Product(rate, n as real), 0.5 * k as real)
    ensures Within((x + y) as real - Product(rate, (m + n) as real), 0.5 * (k + 1) as real)
  {
    hide Product;
    ProductAdds(rate, m, n);
  }

  function RawTotal(rows: seq<Row>): int { Sum(rows, (r: Row) => r.debit - r.credit) }

  function FunctionalTotal(rows: seq<Row>): int { Sum(rows, (r: Row) => r.functionalDebit - r.functionalCredit) }

  lemma {:induction false} RowsNear(rows: seq<Row>, rate: real, e: Entry)
    requires rate != 0.0
    requires forall r :: r in rows ==>
      RowOf(e, r) && r.functionalDebit == Functional(r.debit, rate) && r.functionalCredit == Functional(r.credit, rate)
    ensures Within(FunctionalTotal(rows) as real - Product(rate, RawTotal(rows) as real), 0.5 * |rows| as real)
  {
    hide Functional, Product;
    if rows == [] {
      ProductZero(rate);
    } else {
      var r := rows[0];
      RowsNear(rows[1..], rate, e);
      RowNear(r, rate);
      AddNear(r.functionalDebit - r.functionalCredit, FunctionalTotal(rows[1..]), rate, r.debit - r.credit,
              RawTotal(rows[1..]), |rows| - 1);
    }
  }

  /** An entry posted at one rate is out of balance in functional currency by at most half a unit per line. */
  lemma EntryNear(e: Entry)
    requires Balanced(e) && OneRate(e)
    ensures 2 * FunctionalTotal(e.rows) <= |e.rows| && -2 * FunctionalTotal(e.rows) <= |e.rows|
    ensures (forall r :: r in e.rows ==> r.rate == 1.0) ==> FunctionalTotal(e.rows) == 0
  {
    if e.rows != [] {
      var rate := if e.rows[0].rate == 0.0 then 1.0 else e.rows[0].rate;
      forall r | r in e.rows
        ensures r.functionalDebit == Functional(r.debit, rate) && r.functionalCredit == Functional(r.credit, rate)
      {
        assert RowOf(e, r);
      }
      RowsNear(e.rows, rate, e);
      ProductZero(rate);
      SumAdd(e.rows, (r: Row) => r.debit, (r: Row) => r.debit - r.credit, (r: Row) => r.credit);
      forall r | r in e.rows && rate == 1.0
        ensures r.functionalDebit == r.debit && r.functionalCredit == r.credit
      {
        RoundExact(r.debit);
        RoundExact(r.credit);
      }
      if rate == 1.0 {
        SumSame(e.rows, (r: Row) => r.functionalDebit - r.functionalCredit, (r: Row) => r.debit - r.credit);
      }
    }
  }

  function Count(rows: seq<Row>, keep: Row -> bool): nat { |Filter(rows, keep)| }

  lemma {:induction false} CountConcat(a: seq<Row>, b: seq<Row>, keep: Row -> bool)
    ensures Count(a + b, keep) == Count(a, keep) + Count(b, keep)
  {
    if a == [] {
      assert a + b == b;
    } else {
      assert (a + b)[1..] == a[1..] + b;
      CountConcat(a[1..], b, keep);
    }
  }

  lemma {:induction false} CountAll(rows: seq<Row>, keep: Row -> bool, all: bool)
    requires forall r :: r in rows ==> keep(r) == all
    ensures Count(rows, keep) == if all then |rows| else 0
  {
    if rows != [] {
      CountAll(rows[1..], keep, all);
    }
  }

  lemma EntryUpToNear(e: Entry, d: int)
    requires Balanced(e) && OneRate(e)
    ensures 2 * FunctionalNet(e.rows, UpTo(d)) <= Count(e.rows, UpTo(d))
            && -2 * FunctionalNet(e.rows, UpTo(d)) <= Count(e.rows, UpTo(d))
    ensures (forall r :: r in e.rows ==> r.rate == 1.0) ==> FunctionalNet(e.rows, UpTo(d)) == 0
  {
    var all := e.posted && e.date <= d;
    forall r | r in e.rows
      ensures UpTo(d)(r) == all
    {
      assert RowOf(e, r);
    }
    CountAll(e.rows, UpTo(d), all);
    if all {
      EntryNear(e);
      SumSame(e.rows, FunctionalIf(UpTo(d)), (r: Row) => r.functionalDebit - r.functionalCredit);
    } else {
      SumZero(e.rows, FunctionalIf(UpTo(d)));
    }
  }

  /** Books posted at one rate per entry: the sheet is out of balance by at most half of 0.0001 per
      posted line, and exactly in balance when every rate is 1. */
  lemma {:induction false} SheetNearBalance(entries: seq<Entry>, asOf: int)
    requires Books(entries) && forall e :: e in entries ==> OneRate(e)
    ensures var rows := AllRows(entries);
      && 2 * FunctionalNet(rows, UpTo(asOf)) <= Count(rows, UpTo(asOf))
      && -2 * FunctionalNet(rows, UpTo(asOf)) <= Count(rows, UpTo(asOf))
      && ((forall r :: r in rows ==> r.rate == 1.0) ==> FunctionalNet(rows, UpTo(asOf)) == 0)
  {
    if entries != [] {
      var first, rest := entries[0].rows, AllRows(entries[1..]);
      SheetNearBalance(entries[1..], asOf);
      EntryUpToNear(entries[0], asOf);
      SumConcat(first, rest, FunctionalIf(UpTo(asOf)));
      CountConcat(first, rest, UpTo(asOf));
      assert forall r :: r in first || r in rest ==> r in AllRows(entries);
    }
  }

  /** With at most 200 posted lines the out-of-balance warning cannot fire. */
  lemma SmallBooksNeverWarn(entries: seq<Entry>, asOf: int)
    requires Books(entries) && forall e :: e in entries ==> OneRate(e)
    requires Count(AllRows(entries), UpTo(asOf)) <= 200
    ensures -100 <= FunctionalNet(AllRows(entries), UpTo(asOf)) <= 100
  {
    SheetNearBalance(entries, asOf);
  }

  /** However the ledger was posted and reversed, the sheet is off by at most half a unit per posted line. */
  lemma EveryRunNearBalance(chart: map<int, Account>, closed: int -> bool, actions: seq<Action>, asOf: int)
    requires forall x :: x in actions && x.Posting? ==> ValidDraft(x.draft)
    ensures var rows := AllRows(Run(chart, closed, actions));
      2 * FunctionalNet(rows, UpTo(asOf)) <= Count(rows, UpTo(asOf))
          && -2 * FunctionalNet(rows, UpTo(asOf)) <= Count(rows, UpTo(asOf))
  {
    RunKeepsBooks(chart, closed, actions);
    SheetNearBalance(Run(chart, closed, actions), asOf);
  }
}
