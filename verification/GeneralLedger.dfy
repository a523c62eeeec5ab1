/** The general ledger of one account and its agreement with account_balance. */
module GeneralLedger {
  import opened Ledger
  import opened Results
  import opened Running
  import opened Sorting
  import opened Sums

  function OnAccount(account: int, a: int, b: int): Row -> bool {
    (r: Row) => r.account.id == account && r.posted && a <= r.date <= b
  }

  function OnAccountUpTo(account: int, d: int): Row -> bool {
    (r: Row) => r.account.id == account && r.posted && r.date <= d
  }

  /** A movement in the direction of the account's normal side. */
  function Signed(kind: AccountType, debit: int, credit: int): int {
    if kind.IsDebitNormal() then debit - credit else credit - debit
  }

  function SignedRow(kind: AccountType): Row -> int {
    (r: Row) => Signed(kind, r.debit, r.credit)
  }

  /** AccountBalance.signed_balance of account_balance(as_of=d). */
  function SignedBalance(rows: seq<Row>, acct: Account, d: int): int {
    Signed(acct.kind, Debits(rows, OnAccountUpTo(acct.id, d)), Credits(rows, OnAccountUpTo(acct.id, d)))
  }

  /** order_by("entry__entry_date", "entry_id", "line_number") */
  predicate LedgerOrder(r: Row, s: Row) {
    r.date < s.date || (r.date == s.date && (r.entryId < s.entryId || (r.entryId == s.entryId && r.lineNo <= s.lineNo)))
  }

  lemma LedgerOrderTotal()
    ensures TotalPreorder(LedgerOrder)
  {
  }

  lemma {:induction false} FilteredSum(rows: seq<Row>, keep: Row -> bool, kind: AccountType)
    ensures Sum(Filter(rows, keep), SignedRow(kind)) == Signed(kind, Debits(rows, keep), Credits(rows, keep))
  {
    if rows != [] {
      FilteredSum(rows[1..], keep, kind);
      SumConcat(if keep(rows[0]) then [rows[0]] else [], Filter(rows[1..], keep), SignedRow(kind));
      SumOne(rows[0], SignedRow(kind));
    }
  }

  // ----- what an account's rows add up to ------------------------------------------

  /** Debits of one account's posted rows dated from a to b. */
  function PeriodDebits(rows: seq<Row>, account: int, a: int, b: int): int {
    Sum(rows, (r: Row) => if r.posted && r.account.id == account && a <= r.date <= b then r.debit else 0)
  }

  function PeriodCredits(rows: seq<Row>, account: int, a: int, b: int): int {
    Sum(rows, (r: Row) => if r.posted && r.account.id == account && a <= r.date <= b then r.credit else 0)
  }

  /** Debits of one account's posted rows dated up to d. */
  function DebitsUpTo(rows: seq<Row>, account: int, d: int): int {
    Sum(rows, (r: Row) => if r.posted && r.account.id == account && r.date <= d then r.debit else 0)
  }

  function CreditsUpTo(rows: seq<Row>, account: int, d: int): int {
    Sum(rows, (r: Row) => if r.posted && r.account.id == account && r.date <= d then r.credit else 0)
  }

  /** Debits less credits of one account's posted rows dated up to d. */
  function NetUpTo(rows: seq<Row>, account: int, d: int): int {
    Sum(rows, (r: Row) => if r.posted && r.account.id == account && r.date <= d then r.debit - r.credit else 0)
  }

  /** Assets and expenses are shown as debits less credits, liabilities, equity and income as credits less debits. */
  lemma BalanceByKind(rows: seq<Row>, acct: Account, d: int)
    ensures SignedBalance(rows, acct, d) == match acct.kind
              case Asset => NetUpTo(rows, acct.id, d)
              case Expense => NetUpTo(rows, acct.id, d)
              case Liability => -NetUpTo(rows, acct.id, d)
              case Equity => -NetUpTo(rows, acct.id, d)
              case Income => -NetUpTo(rows, acct.id, d)
  {
    var keep := OnAccountUpTo(acct.id, d);
    var net := (r: Row) => if r.posted && r.account.id == acct.id && r.date <= d then r.debit - r.credit else 0;
    SumAdd(rows, DebitIf(keep), CreditIf(keep), net);
  }

  /** What the period adds to an account's balance. */
  lemma ChangeByKind(rows: seq<Row>, acct: Account, a: int, b: int)
    requires a <= b + 1
    ensures var debits, credits := PeriodDebits(rows, acct.id, a, b), PeriodCredits(rows, acct.id, a, b);
      SignedBalance(rows, acct, b) - SignedBalance(rows, acct, a - 1) == match acct.kind
        case Asset => debits - credits
        case Expense => debits - credits
        case Liability => credits - debits
        case Equity => credits - debits
        case Income => credits - debits
  {
    var during := OnAccount(acct.id, a, b);
    NetSplit(rows, OnAccountUpTo(acct.id, b), OnAccountUpTo(acct.id, a - 1), during);
    var debit := (r: Row) => if r.posted && r.account.id == acct.id && a <= r.date <= b then r.debit else 0;
    var credit := (r: Row) => if r.posted && r.account.id == acct.id && a <= r.date <= b then r.credit else 0;
    SumSame(rows, DebitIf(during), debit);
    SumSame(rows, CreditIf(during), credit);
  }

  /** What one line adds to the running balance of an account. */
  lemma LineByKind(r: Row, kind: AccountType)
    ensures SignedRow(kind)(r) == match kind
              case Asset => r.debit - r.credit
              case Expense => r.debit - r.credit
              case Liability => r.credit - r.debit
              case Equity => r.credit - r.debit
              case Income => r.credit - r.debit
  {
  }

  datatype Statement = Statement(account: Account, opening: int, lines: seq<Ran<Row>>, closing: int)

  /** By date, then entry, then line. */
  ghost predicate InOrder(items: seq<Row>) {
    forall i, j :: 0 <= i < j < |items| ==>
      || items[i].date < items[j].date
      || (items[i].date == items[j].date && items[i].entryId < items[j].entryId)
      || (items[i].date == items[j].date && items[i].entryId == items[j].entryId && items[i].lineNo <= items[j].lineNo)
  }

  datatype LedgerError = AccountMissing

  /** general_ledger: opening balance, the period's lines in ledger order with running balances, closing balance. */
  method GeneralLedgerOf(chart: map<int, Account>, rows: seq<Row>, account: int, a: int, b: int)
    returns (r: Result<Statement, LedgerError>)
    requires forall id :: id in chart ==> chart[id].id == id
    ensures r.Ok? <==> account in chart
    ensures r.Ok? ==> var s, acct := r.value, chart[account];
      && s.account == acct
      && s.opening == SignedBalance(rows, acct, a - 1)
      && (a <= b + 1 ==> s.closing == SignedBalance(rows, acct, b))
      && (exists items ::
            && multiset(items) == multiset(Filter(rows, OnAccount(account, a, b)))
            && InOrder(items)
            && RunsFrom(s.opening, items, SignedRow(acct.kind), s.lines))
    ensures r.Ok? && a <= b + 1 ==>
      var debits, credits := PeriodDebits(rows, account, a, b), PeriodCredits(rows, account, a, b);
      r.value.closing - r.value.opening == match chart[account].kind
        case Asset => debits - credits
        case Expense => debits - credits
        case Liability => credits - debits
        case Equity => credits - debits
        case Income => credits - debits
  {
    if account !in chart {
      return Err(AccountMissing);
    }
    var acct := chart[account];
    var opening := Signed(acct.kind, Debits(rows, OnAccountUpTo(account, a - 1)),
                          Credits(rows, OnAccountUpTo(account, a - 1)));
    var items := Sort(Filter(rows, OnAccount(account, a, b)), LedgerOrder);
    var lines, closing := Accumulate(opening, items, SignedRow(acct.kind));
    LedgerOrderTotal();
    SortSorts(Filter(rows, OnAccount(account, a, b)), LedgerOrder);
    SortPermutes(Filter(rows, OnAccount(account, a, b)), LedgerOrder);
    SumPermutation(items, Filter(rows, OnAccount(account, a, b)), SignedRow(acct.kind));
    FilteredSum(rows, OnAccount(account, a, b), acct.kind);
    if a <= b + 1 {
      NetSplit(rows, OnAccountUpTo(account, b), OnAccountUpTo(account, a - 1), OnAccount(account, a, b));
      ChangeByKind(rows, acct, a, b);
    }
    r := Ok(Statement(acct, opening, lines, closing));
  }

  // ----- the accounting equation ----------------------------------------------

  /** A row's signed amount, if it is posted by d on an account of the given normal side. */
  function SignedOnSide(debitNormal: bool, d: int): Row -> int {
    (r: Row) => if r.account.kind.IsDebitNormal() == debitNormal && UpTo(d)(r) then SignedRow(r.account.kind)(r) else 0
  }

  /** Over balanced books what debit-normal accounts and what credit-normal accounts hold by a date adds up alike. */
  lemma AccountingEquation(entries: seq<Entry>, d: int)
    requires Books(entries)
    ensures Sum(AllRows(entries), SignedOnSide(true, d)) == Sum(AllRows(entries), SignedOnSide(false, d))
  {
    var rows := AllRows(entries);
    FilteredBooksBalance(entries, UpTo(d));
    var net := (r: Row) => DebitIf(UpTo(d))(r) - CreditIf(UpTo(d))(r);
    SumAdd(rows, DebitIf(UpTo(d)), CreditIf(UpTo(d)), net);
    SumAdd(rows, SignedOnSide(true, d), SignedOnSide(false, d), net);
  }

  /** Debits less credits of the posted rows dated up to d on accounts of one type. */
  function Held(rows: seq<Row>, kind: AccountType, d: int): int {
    Sum(rows, (r: Row) => if r.posted && r.date <= d && r.account.kind == kind then r.debit - r.credit else 0)
  }

  lemma {:induction false} HeldAddUp(rows: seq<Row>, d: int)
    ensures Held(rows, Asset, d) + Held(rows, Expense, d) + Held(rows, Liability, d) + Held(rows, Equity, d)
          + Held(rows, Income, d) == Net(rows, UpTo(d))
  {
    if rows != [] {
      HeldAddUp(rows[1..], d);
      NetStep(rows, UpTo(d));
      hide Net;
    }
  }

  /** Over balanced books assets and expenses are worth what liabilities, equity and income are, at every date. */
  lemma AssetsAndExpensesAreCovered(entries: seq<Entry>, d: int)
    requires Books(entries)
    ensures var rows := AllRows(entries);
      Held(rows, Asset, d) + Held(rows, Expense, d)
      == (-Held(rows, Liability, d)) + (-Held(rows, Equity, d)) + (-Held(rows, Income, d))
  {
    HeldAddUp(AllRows(entries), d);
    FilteredBooksBalance(entries, UpTo(d));
  }

  function AccountBalances(rows: seq<Row>, d: int): Account -> int {
    acct => SignedBalance(rows, acct, d)
  }

  /** The balances of all accounts of a type add up to what the type holds, credit-positive for liabilities,
      equity and income. */
  lemma BalancesAddUp(rows: seq<Row>, accounts: seq<Account>, kind: AccountType, d: int)
    requires Distinct(accounts) && forall acct :: acct in accounts ==> acct.kind == kind
    requires forall r :: r in rows && r.account.kind == kind ==> r.account in accounts
    requires forall r, acct :: r in rows && acct in accounts && r.account.id == acct.id ==> r.account == acct
    ensures Sum(accounts, AccountBalances(rows, d))
         == if kind == Asset || kind == Expense then Held(rows, kind, d) else -Held(rows, kind, d)
  {
    var key := (r: Row) => r.account;
    var net := (r: Row) => if r.posted && r.date <= d then r.debit - r.credit else 0;
    var held := (r: Row) => if r.posted && r.date <= d && r.account.kind == kind then r.debit - r.credit else 0;
    var sign := if kind == Asset || kind == Expense then 1 else -1;
    SumByGroup(rows, key, accounts, net, held);
    forall acct | acct in accounts
      ensures AccountBalances(rows, d)(acct) == sign * GroupOf(rows, key, net)(acct)
    {
      BalanceByKind(rows, acct, d);
      var mine := (r: Row) => if r.posted && r.account.id == acct.id && r.date <= d then r.debit - r.credit else 0;
      SumSame(rows, mine, KeyIf(key, acct, net));
    }
    SumScaled(accounts, AccountBalances(rows, d), GroupOf(rows, key, net), sign);
  }
}
