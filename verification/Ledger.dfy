/** Journal lines, entry drafts, posting and reversal: where every ledger row comes from. */
module Ledger {
  import opened Results
  import opened Rounding
  import opened Sums
  import opened ValueObjects

  datatype AccountType = Asset | Liability | Equity | Income | Expense {
    predicate IsDebitNormal() { this == Asset || this == Expense }
  }

  datatype Account = Account(id: int, code: string, kind: AccountType, postable: bool, active: bool)

  // ----- drafts --------------------------------------------------------------

  datatype JournalLine = JournalLine(accountId: int, debit: Money, credit: Money)

  datatype LineError = LineInvalid | InvalidDebitCredit

  function NewLine(accountId: int, debit: Money, credit: Money): Result<JournalLine, LineError> {
    if accountId <= 0 || debit.currency != credit.currency then Err(LineInvalid)
    else if debit.amount < 0 || credit.amount < 0 then Err(LineInvalid)
    else if (debit.amount > 0) == (credit.amount > 0) then Err(InvalidDebitCredit)
    else Ok(JournalLine(accountId, debit, credit))
  }

  /** A line that passed its constructor. */
  predicate ValidLine(l: JournalLine) {
    NewLine(l.accountId, l.debit, l.credit).Ok?
  }

  datatype Draft = Draft(date: int, reference: string, lines: seq<JournalLine>)

  datatype EntryError = EmptyEntry | MixedCurrencies | NotBalanced

  function NewDraft(date: int, reference: string, lines: seq<JournalLine>): Result<Draft, EntryError> {
    if |lines| < 2 then Err(EmptyEntry)
    else if exists l :: l in lines && l.debit.currency != lines[0].debit.currency then Err(MixedCurrencies)
    else if Sum(lines, (l: JournalLine) => l.debit.amount) != Sum(lines, (l: JournalLine) => l.credit.amount)
    then Err(NotBalanced)
    else Ok(Draft(date, reference, lines))
  }

  predicate ValidDraft(d: Draft) {
    (forall l :: l in d.lines ==> ValidLine(l)) && NewDraft(d.date, d.reference, d.lines).Ok?
  }

  /** A draft is accepted exactly with at least two lines, one currency and equal debits and credits. */
  lemma DraftAcceptedIff(date: int, reference: string, lines: seq<JournalLine>)
    requires forall l :: l in lines ==> ValidLine(l)
    ensures NewDraft(date, reference, lines).Ok? <==>
            && |lines| >= 2
            && (forall i, j :: 0 <= i < |lines| && 0 <= j < |lines| ==>
                  lines[i].debit.currency == lines[j].credit.currency)
            && Sum(lines, (l: JournalLine) => l.debit.amount - l.credit.amount) == 0
    ensures forall l :: l in lines ==>
              l.accountId > 0 && l.debit.amount >= 0 && l.credit.amount >= 0
              && (l.debit.amount == 0 <==> l.credit.amount != 0)
  {
    var net := (l: JournalLine) => l.debit.amount - l.credit.amount;
    SumAdd(lines, (l: JournalLine) => l.debit.amount, net, (l: JournalLine) => l.credit.amount);
    if |lines| >= 2 && forall l :: l in lines ==> l.debit.currency == lines[0].debit.currency {
      forall i, j | 0 <= i < |lines| && 0 <= j < |lines|
        ensures lines[i].debit.currency == lines[j].credit.currency
      {
        assert lines[i] in lines && lines[j] in lines;
      }
    }
    if |lines| >= 2 && exists l :: l in lines && l.debit.currency != lines[0].debit.currency {
      var l :| l in lines && l.debit.currency != lines[0].debit.currency;
      var i :| 0 <= i < |lines| && lines[i] == l;
      assert ValidLine(lines[0]) && lines[0] in lines;
    }
  }

  // ----- rows ----------------------------------------------------------------

  /** A stored journal line joined with its entry and its account. */
  datatype Row = Row(entryId: int, posted: bool, date: int, lineNo: nat, account: Account, currency: Currency,
                     debit: int, credit: int, rate: real, functionalDebit: int, functionalCredit: int)

  datatype Entry = Entry(id: int, posted: bool, date: int, reference: string, rows: seq<Row>)

  /** The functional-currency amount; a missing (zero) rate counts as 1. */
  function Functional(amount: int, rate: real): int {
    Times(amount, if rate == 0.0 then 1.0 else rate)
  }

  /** A JournalLine model instance; the pre_save hook fills its functional amounts. */
  class LineInstance {
    var debit: int
    var credit: int
    var exchangeRate: real
    var functionalDebit: int
    var functionalCredit: int

    constructor (debit: int, credit: int, exchangeRate: real)
      ensures this.debit == debit && this.credit == credit && this.exchangeRate == exchangeRate
      ensures functionalDebit == functionalCredit == 0
    {
      this.debit, this.credit, this.exchangeRate := debit, credit, exchangeRate;
      functionalDebit, functionalCredit := 0, 0;
    }

    /** `_compute_functional_amounts`: each side is the nearest unit to side * rate, and an empty side stays 0. */
    method ComputeFunctionalAmounts()
      modifies this`functionalDebit, this`functionalCredit
      ensures functionalDebit == Functional(debit, exchangeRate) && functionalCredit == Functional(credit, exchangeRate)
      ensures debit == 0 ==> functionalDebit == 0
      ensures credit == 0 ==> functionalCredit == 0
      ensures exchangeRate == 1.0 ==> functionalDebit == debit && functionalCredit == credit
    {
      var rate := if exchangeRate == 0.0 then 1.0 else exchangeRate;
      functionalDebit := Times(debit, rate);
      functionalCredit := Times(credit, rate);
      RoundExact(0);
      RoundExact(debit);
      RoundExact(credit);
    }
  }

  predicate RowOf(e: Entry, r: Row) {
    && r.entryId == e.id && r.posted == e.posted && r.date == e.date
    && 0 <= r.debit && 0 <= r.credit && (r.debit > 0) != (r.credit > 0)
    && r.functionalDebit == Functional(r.debit, r.rate)
    && r.functionalCredit == Functional(r.credit, r.rate)
  }

  /** What a stored entry satisfies: its rows are its own and single-sided, and debits equal credits. */
  predicate Balanced(e: Entry) {
    && (forall r :: r in e.rows ==> RowOf(e, r))
    && Sum(e.rows, (r: Row) => r.debit) == Sum(e.rows, (r: Row) => r.credit)
  }

  predicate OneRate(e: Entry) {
    forall r :: r in e.rows ==> r.rate == e.rows[0].rate
  }

  ghost predicate Books(entries: seq<Entry>) {
    forall e :: e in entries ==> Balanced(e)
  }

  function AllRows(entries: seq<Entry>): seq<Row> {
    if entries == [] then [] else entries[0].rows + AllRows(entries[1..])
  }

  lemma {:induction false} AllRowsSnoc(entries: seq<Entry>, e: Entry)
    ensures AllRows(entries + [e]) == AllRows(entries) + e.rows
  {
    if entries == [] {
      assert AllRows([e]) == e.rows + AllRows([e][1..]);
    } else {
      AllRowsSnoc(entries[1..], e);
      assert (entries + [e])[1..] == entries[1..] + [e];
      assert entries[0].rows + (AllRows(entries[1..]) + e.rows) == entries[0].rows + AllRows(entries[1..]) + e.rows;
    }
  }

  // ----- posting -------------------------------------------------------------

  datatype PostError = PeriodClosed | AccountNotFound | AccountNotPostable | DuplicateReference

  function StoreLine(chart: map<int, Account>, d: Draft, id: int, rate: real, i: nat): Row
    requires i < |d.lines| && d.lines[i].accountId in chart
  {
    var l := d.lines[i];
    Row(id, true, d.date, i + 1, chart[l.accountId], l.debit.currency, l.debit.amount, l.credit.amount,
        rate, Functional(l.debit.amount, rate), Functional(l.credit.amount, rate))
  }

  function StoreLines(chart: map<int, Account>, d: Draft, id: int, rate: real, n: nat): (rows: seq<Row>)
    requires n <= |d.lines| && forall l :: l in d.lines ==> l.accountId in chart
    ensures |rows| == n && forall i :: 0 <= i < n ==> rows[i] == StoreLine(chart, d, id, rate, i)
  {
    if n == 0 then [] else StoreLines(chart, d, id, rate, n - 1) + [StoreLine(chart, d, id, rate, n - 1)]
  }

  /** PostJournalEntry.execute: append one posted entry holding exactly the draft's lines, or refuse. */
  function Post(chart: map<int, Account>, closed: int -> bool, entries: seq<Entry>, d: Draft, id: int, rate: real)
    : Result<seq<Entry>, PostError>
  {
    if closed(d.date) then Err(PeriodClosed)
    else if exists l :: l in d.lines && !(l.accountId in chart && chart[l.accountId].active) then Err(AccountNotFound)
    else if exists l :: l in d.lines && !chart[l.accountId].postable then Err(AccountNotPostable)
    else if exists e :: e in entries && e.reference == d.reference then Err(DuplicateReference)
    else Ok(entries + [Entry(id, true, d.date, d.reference, StoreLines(chart, d, id, rate, |d.lines|))])
  }

  lemma {:induction false} StoredSums(chart: map<int, Account>, d: Draft, id: int, rate: real, n: nat)
    requires n <= |d.lines| && forall l :: l in d.lines ==> l.accountId in chart
    ensures Sum(StoreLines(chart, d, id, rate, n), (r: Row) => r.debit)
            == Sum(d.lines[..n], (l: JournalLine) => l.debit.amount)
    ensures Sum(StoreLines(chart, d, id, rate, n), (r: Row) => r.credit)
            == Sum(d.lines[..n], (l: JournalLine) => l.credit.amount)
  {
    if n > 0 {
      var before, last := StoreLines(chart, d, id, rate, n - 1), StoreLine(chart, d, id, rate, n - 1);
      StoredSums(chart, d, id, rate, n - 1);
      SumTake(d.lines, n - 1, (l: JournalLine) => l.debit.amount);
      SumTake(d.lines, n - 1, (l: JournalLine) => l.credit.amount);
      SumSnoc(before, last, (r: Row) => r.debit);
      SumSnoc(before, last, (r: Row) => r.credit);
    }
  }

  /** Posting a valid draft keeps every entry of the books balanced, at one rate per posted entry. */
  lemma PostKeepsBooks(chart: map<int, Account>, closed: int -> bool, entries: seq<Entry>, d: Draft, id: int,
                       rate: real)
    requires Books(entries) && ValidDraft(d)
    requires Post(chart, closed, entries, d, id, rate).Ok?
    ensures var after := Post(chart, closed, entries, d, id, rate).value;
      Books(after) && |after| == |entries| + 1 && OneRate(after[|entries|])
  {
    hide Functional, Sum;
    var e := Post(chart, closed, entries, d, id, rate).value[|entries|];
    StoredSums(chart, d, id, rate, |d.lines|);
    assert d.lines[..|d.lines|] == d.lines;
    forall r | r in e.rows
      ensures RowOf(e, r)
    {
      var i :| 0 <= i < |e.rows| && e.rows[i] == r;
      assert ValidLine(d.lines[i]);
    }
  }

  // ----- sums over rows --------------------------------------------------------

  function DebitIf(keep: Row -> bool): Row -> int {
    (r: Row) => if keep(r) then r.debit else 0
  }

  function CreditIf(keep: Row -> bool): Row -> int {
    (r: Row) => if keep(r) then r.credit else 0
  }

  /** entry__is_posted=True, entry__entry_date__lte=d */
  function UpTo(d: int): Row -> bool {
    (r: Row) => r.posted && r.date <= d
  }

  /** entry__is_posted=True, a <= entry__entry_date <= b */
  function InPeriod(a: int, b: int): Row -> bool {
    (r: Row) => r.posted && a <= r.date <= b
  }

  /** The same, for accounts of one type. */
  function KindIn(kind: AccountType, a: int, b: int): Row -> bool {
    (r: Row) => r.account.kind == kind && r.posted && a <= r.date <= b
  }

  /** SUM(debit) over the rows a filter selects. */
  function Debits(rows: seq<Row>, keep: Row -> bool): int { Sum(rows, DebitIf(keep)) }

  function Credits(rows: seq<Row>, keep: Row -> bool): int { Sum(rows, CreditIf(keep)) }

  /** SUM(debit) - SUM(credit) over the rows a filter selects. */
  function Net(rows: seq<Row>, keep: Row -> bool): int { Debits(rows, keep) - Credits(rows, keep) }

  lemma NetStep(rows: seq<Row>, keep: Row -> bool)
    requires rows != []
    ensures Net(rows, keep) == (if keep(rows[0]) then rows[0].debit - rows[0].credit else 0) + Net(rows[1..], keep)
  {
  }

  lemma {:induction false} NetNone(rows: seq<Row>, keep: Row -> bool)
    requires forall r :: r in rows ==> !keep(r)
    ensures Debits(rows, keep) == 0 && Credits(rows, keep) == 0
  {
    SumZero(rows, DebitIf(keep));
    SumZero(rows, CreditIf(keep));
  }

  /** Splitting a filter in two splits its net. */
  lemma {:induction false} NetSplit(rows: seq<Row>, whole: Row -> bool, one: Row -> bool, two: Row -> bool)
    requires forall r :: r in rows ==> (whole(r) <==> one(r) || two(r)) && !(one(r) && two(r))
    ensures Debits(rows, whole) == Debits(rows, one) + Debits(rows, two)
    ensures Credits(rows, whole) == Credits(rows, one) + Credits(rows, two)
  {
    SumAdd(rows, DebitIf(whole), DebitIf(one), DebitIf(two));
    SumAdd(rows, CreditIf(whole), CreditIf(one), CreditIf(two));
  }

  /** A filter on posting state and date keeps an entry's rows together. */
  ghost predicate EntryWide(keep: Row -> bool) {
    forall r: Row, s: Row :: r.posted == s.posted && r.date == s.date ==> keep(r) == keep(s)
  }

  lemma FilteredEntryBalances(e: Entry, keep: Row -> bool)
    requires Balanced(e) && EntryWide(keep)
    ensures Debits(e.rows, keep) == Credits(e.rows, keep)
  {
    if e.rows != [] {
      var first := e.rows[0];
      forall r | r in e.rows
        ensures keep(r) == keep(first)
      {
        assert RowOf(e, r) && RowOf(e, first);
      }
      if keep(first) {
        SumSame(e.rows, DebitIf(keep), (r: Row) => r.debit);
        SumSame(e.rows, CreditIf(keep), (r: Row) => r.credit);
      } else {
        SumZero(e.rows, DebitIf(keep));
        SumZero(e.rows, CreditIf(keep));
      }
    }
  }

  /** Over balanced books, any posting-and-date filter selects equal debits and credits. */
  lemma {:induction false} FilteredBooksBalance(entries: seq<Entry>, keep: Row -> bool)
    requires Books(entries) && EntryWide(keep)
    ensures Debits(AllRows(entries), keep) == Credits(AllRows(entries), keep)
  {
    if entries != [] {
      FilteredEntryBalances(entries[0], keep);
      FilteredBooksBalance(entries[1..], keep);
      SumConcat(entries[0].rows, AllRows(entries[1..]), DebitIf(keep));
      SumConcat(entries[0].rows, AllRows(entries[1..]), CreditIf(keep));
    }
  }

  // ----- reversal ------------------------------------------------------------

  function ReverseRow(r: Row, id: int, date: int): Row {
    r.(entryId := id, posted := true, date := date, debit := r.credit, credit := r.debit, rate := 1.0,
       functionalDebit := Functional(r.credit, 1.0), functionalCredit := Functional(r.debit, 1.0))
  }

  function ReverseRows(rows: seq<Row>, id: int, date: int): (out: seq<Row>)
    ensures |out| == |rows| && forall i :: 0 <= i < |rows| ==> out[i] == ReverseRow(rows[i], id, date)
  {
    if rows == [] then [] else [ReverseRow(rows[0], id, date)] + ReverseRows(rows[1..], id, date)
  }

  /** ReverseJournalEntry: the mirror entry, its lines stored at the default rate of 1. */
  function Reverse(e: Entry, id: int, date: int): Entry {
    Entry(id, true, date, "REV-" + e.reference, ReverseRows(e.rows, id, date))
  }

  function AccountNet(rows: seq<Row>, account: int): int {
    Sum(rows, (r: Row) => if r.account.id == account then r.debit - r.credit else 0)
  }

  function AccountFunctionalNet(rows: seq<Row>, account: int): int {
    Sum(rows, (r: Row) => if r.account.id == account then r.functionalDebit - r.functionalCredit else 0)
  }

  lemma {:induction false} ReversedSums(rows: seq<Row>, id: int, date: int, account: int)
    ensures var out := ReverseRows(rows, id, date);
      && Sum(out, (r: Row) => r.debit) == Sum(rows, (r: Row) => r.credit)
      && Sum(out, (r: Row) => r.credit) == Sum(rows, (r: Row) => r.debit)
      && AccountNet(out, account) == -AccountNet(rows, account)
      && AccountFunctionalNet(out, account) == -AccountNet(rows, account)
  {
    if rows != [] {
      ReversedSums(rows[1..], id, date, account);
      RoundExact(rows[0].debit);
      RoundExact(rows[0].credit);
    }
  }

  /** A reversal is itself balanced and cancels the entry on every account in its own currency. In the
      functional currency it cancels exactly when the entry moved the account alike in both currencies. */
  lemma ReversalCancels(e: Entry, id: int, date: int, account: int)
    requires Balanced(e)
    ensures Balanced(Reverse(e, id, date)) && OneRate(Reverse(e, id, date))
    ensures AccountNet(e.rows + Reverse(e, id, date).rows, account) == 0
    ensures AccountFunctionalNet(e.rows + Reverse(e, id, date).rows, account) == 0
        <==> AccountFunctionalNet(e.rows, account) == AccountNet(e.rows, account)
  {
    hide Functional;
    var v := Reverse(e, id, date);
    ReversedSums(e.rows, id, date, account);
    forall r | r in v.rows
      ensures RowOf(v, r)
    {
      var i :| 0 <= i < |v.rows| && v.rows[i] == r;
      assert RowOf(e, e.rows[i]);
    }
    SumConcat(e.rows, v.rows, (r: Row) => if r.account.id == account then r.debit - r.credit else 0);
    SumConcat(e.rows, v.rows,
              (r: Row) => if r.account.id == account then r.functionalDebit - r.functionalCredit else 0);
  }

  /** One entry debiting x and crediting y one unit. */
  function TwoLines(x: Account, y: Account, date: int, rate: real): Entry {
    var c := Currency("SAR", 2);
    Entry(1, true, date, "JE-1", [Row(1, true, date, 1, x, c, 1, 0, rate, Functional(1, rate), Functional(0, rate)),
                                  Row(1, true, date, 2, y, c, 0, 1, rate, Functional(0, rate), Functional(1, rate))])
  }

  lemma TwoLinesBalanced(x: Account, y: Account, date: int, rate: real)
    ensures Books([TwoLines(x, y, date, rate)]) && OneRate(TwoLines(x, y, date, rate))
    ensures AllRows([TwoLines(x, y, date, rate)]) == TwoLines(x, y, date, rate).rows
  {
    hide Functional;
    var e := TwoLines(x, y, date, rate);
    assert RowOf(e, e.rows[0]) && RowOf(e, e.rows[1]);
    SumTwo(e.rows[0], e.rows[1], (r: Row) => r.debit);
    SumTwo(e.rows[0], e.rows[1], (r: Row) => r.credit);
    assert AllRows([e]) == e.rows + AllRows([e][1..]);
  }

  /** A foreign entry at rate 2 moves its accounts by 2, its reversal by 1: half of it stays in the functional books. */
  lemma ForeignReversalExample()
    ensures var x, y := Account(1, "1100", Asset, true, true), Account(2, "4100", Income, true, true);
      var e := TwoLines(x, y, 0, 2.0);
      && Books([e]) && OneRate(e)
      && AccountNet(e.rows + Reverse(e, 2, 0).rows, 1) == 0
      && AccountFunctionalNet(e.rows, 1) == 2 && AccountFunctionalNet(e.rows + Reverse(e, 2, 0).rows, 1) == 1
  {
    var x, y := Account(1, "1100", Asset, true, true), Account(2, "4100", Income, true, true);
    var e := TwoLines(x, y, 0, 2.0);
    var net := (r: Row) => if r.account.id == 1 then r.debit - r.credit else 0;
    var functional := (r: Row) => if r.account.id == 1 then r.functionalDebit - r.functionalCredit else 0;
    TwoLinesBalanced(x, y, 0, 2.0);
    assert Functional(1, 2.0) == 2 && Functional(0, 2.0) == 0;
    ReversalCancels(e, 2, 0, 1);
    ReversedSums(e.rows, 2, 0, 1);
    SumTwo(e.rows[0], e.rows[1], net);
    SumTwo(e.rows[0], e.rows[1], functional);
    SumConcat(e.rows, Reverse(e, 2, 0).rows, functional);
  }

  // ----- every run of postings and reversals -----------------------------------

  datatype Action = Posting(draft: Draft, rate: real) | Reversal(index: nat, date: int)

  /** One attempt to post a draft or to reverse a stored entry; a refusal leaves the ledger alone.
      The reversal's reference is unique, so an entry is reversed at most once. */
  function Act(chart: map<int, Account>, closed: int -> bool, entries: seq<Entry>, action: Action): seq<Entry> {
    match action
    case Posting(d, rate) =>
      (match Post(chart, closed, entries, d, |entries| + 1, rate)
       case Ok(after) => after
       case Err(_) => entries)
    case Reversal(i, date) =>
      if i >= |entries| || !entries[i].posted || closed(date) then entries
      else if exists e :: e in entries && e.reference == "REV-" + entries[i].reference then entries
      else entries + [Reverse(entries[i], |entries| + 1, date)]
  }

  /** An entry is reversed exactly if it is posted, the day is open and no entry holds its reversal's reference; the
      entry added has that reference, the day and the lines with their sides swapped, and a second reversal of the
      same entry is refused. */
  lemma ReversalAcceptedIff(chart: map<int, Account>, closed: int -> bool, entries: seq<Entry>, i: nat, date: int)
    ensures var after := Act(chart, closed, entries, Reversal(i, date));
      && (after != entries <==>
            && i < |entries| && entries[i].posted && !closed(date)
            && forall e :: e in entries ==> e.reference != "REV-" + entries[i].reference)
      && (after != entries ==>
            && |after| == |entries| + 1 && after[..|entries|] == entries
            && var e, v := entries[i], after[|entries|];
               && v.posted && v.date == date && v.reference == "REV-" + e.reference && |v.rows| == |e.rows|
               && (forall j :: 0 <= j < |e.rows| ==>
                     && v.rows[j].account == e.rows[j].account && v.rows[j].currency == e.rows[j].currency
                     && v.rows[j].debit == e.rows[j].credit && v.rows[j].credit == e.rows[j].debit
                     && v.rows[j].rate == 1.0)
               && forall other :: Act(chart, closed, after, Reversal(i, other)) == after)
  {
    hide Functional;
    var after := Act(chart, closed, entries, Reversal(i, date));
    if after != entries {
      var v := after[|entries|];
      assert v in after && after[i] == entries[i];
    } else if i < |entries| && entries[i].posted && !closed(date) {
      assert |entries + [Reverse(entries[i], |entries| + 1, date)]| == |entries| + 1;
    }
  }

  function Run(chart: map<int, Account>, closed: int -> bool, actions: seq<Action>): seq<Entry> {
    if actions == [] then []
    else Act(chart, closed, Run(chart, closed, actions[..|actions| - 1]), actions[|actions| - 1])
  }

  lemma ActKeepsBooks(chart: map<int, Account>, closed: int -> bool, entries: seq<Entry>, action: Action)
    requires Books(entries) && (forall e :: e in entries ==> OneRate(e))
             && (action.Posting? ==> ValidDraft(action.draft))
    ensures Books(Act(chart, closed, entries, action))
    ensures forall e :: e in Act(chart, closed, entries, action) ==> OneRate(e)
  {
    hide Reverse, ValidDraft, Post, Balanced, OneRate;
    if action.Posting? && Post(chart, closed, entries, action.draft, |entries| + 1, action.rate).Ok? {
      PostKeepsBooks(chart, closed, entries, action.draft, |entries| + 1, action.rate);
      PostAppends(chart, closed, entries, action.draft, |entries| + 1, action.rate);
    } else if action.Reversal? && action.index < |entries| {
      assert entries[action.index] in entries;
      ReversalCancels(entries[action.index], |entries| + 1, action.date, 0);
    }
  }

  /** Every ledger reached by posting valid drafts and reversing entries is balanced, with one rate per entry. */
  lemma {:induction false} RunKeepsBooks(chart: map<int, Account>, closed: int -> bool, actions: seq<Action>)
    requires forall x :: x in actions && x.Posting? ==> ValidDraft(x.draft)
    ensures Books(Run(chart, closed, actions)) && forall e :: e in Run(chart, closed, actions) ==> OneRate(e)
  {
    hide Act, ValidDraft, Balanced, OneRate;
    if actions != [] {
      RunKeepsBooks(chart, closed, actions[..|actions| - 1]);
      ActKeepsBooks(chart, closed, Run(chart, closed, actions[..|actions| - 1]), actions[|actions| - 1]);
    }
  }

  /** A draft is posted exactly on an open day, on active postable accounts, under a reference the ledger does not
      hold; the posted entry carries the draft's day, reference and lines in order. */
  lemma PostedIs(chart: map<int, Account>, closed: int -> bool, entries: seq<Entry>, d: Draft, id: int, rate: real)
    ensures var r := Post(chart, closed, entries, d, id, rate);
      && (r.Ok? <==>
            && !closed(d.date)
            && (forall l :: l in d.lines ==>
                  l.accountId in chart && chart[l.accountId].active && chart[l.accountId].postable)
            && (forall e :: e in entries ==> e.reference != d.reference))
      && (r.Ok? ==>
            && |r.value| == |entries| + 1 && r.value[..|entries|] == entries
            && var e := r.value[|entries|];
               && e.id == id && e.posted && e.date == d.date && e.reference == d.reference && |e.rows| == |d.lines|
               && forall i :: 0 <= i < |d.lines| ==>
                    && e.rows[i].account == chart[d.lines[i].accountId] && e.rows[i].lineNo == i + 1
                    && e.rows[i].debit == d.lines[i].debit.amount && e.rows[i].credit == d.lines[i].credit.amount
                    && e.rows[i].currency == d.lines[i].debit.currency && e.rows[i].rate == rate)
  {
    hide Functional;
    if Post(chart, closed, entries, d, id, rate).Ok? {
      forall i | 0 <= i < |d.lines|
        ensures d.lines[i].accountId in chart
      {
        assert d.lines[i] in d.lines;
      }
    }
  }

  lemma PostAppends(chart: map<int, Account>, closed: int -> bool, entries: seq<Entry>, d: Draft, id: int, rate: real)
    requires Post(chart, closed, entries, d, id, rate).Ok?
    ensures var after := Post(chart, closed, entries, d, id, rate).value;
      |after| == |entries| + 1 && after == entries + [after[|entries|]]
  {
  }
}
