/** Receivables and payables aging: open amounts spread over buckets per party. */
module Aging {
  import opened Sorting
  import opened Sums

  datatype Status = Draft | Approved | Issued | PartiallyPaid | Paid | Cancelled | Credited

  datatype Invoice = Invoice(id: int, party: int, invoiceDate: int, dueDate: int, status: Status, grandTotal: int,
                             allocatedAmount: int) {
    function Open(): int { grandTotal - allocatedAmount }
  }

  /** The statuses ar_aging asks for. */
  const AR_STATUSES: set<Status> := {Issued, PartiallyPaid, Credited}

  /** The statuses ap_aging asks for. */
  const AP_STATUSES: set<Status> := {Issued, PartiallyPaid}

  datatype Bucket = NotDue | Days1To30 | Days31To60 | Days61To90 | Over90

  function BucketOf(daysOverdue: int): Bucket {
    if daysOverdue <= 0 then NotDue
    else if daysOverdue <= 30 then Days1To30
    else if daysOverdue <= 60 then Days31To60
    else if daysOverdue <= 90 then Days61To90
    else Over90
  }

  datatype Buckets = Buckets(notDue: int, days1To30: int, days31To60: int, days61To90: int, over90: int) {
    function Total(): int { notDue + days1To30 + days31To60 + days61To90 + over90 }
  }

  datatype AgingRow = AgingRow(party: int, buckets: Buckets, total: int)

  const EMPTY: Buckets := Buckets(0, 0, 0, 0, 0)

  predicate Counts(eligible: set<Status>, asOf: int, inv: Invoice) {
    inv.status in eligible && inv.invoiceDate <= asOf && inv.Open() > 0
  }

  function OpenIf(eligible: set<Status>, asOf: int): Invoice -> int {
    (inv: Invoice) => if Counts(eligible, asOf, inv) then inv.Open() else 0
  }

  function CellIf(eligible: set<Status>, asOf: int, party: int, bucket: Bucket): Invoice -> int {
    (inv: Invoice) =>
      if Counts(eligible, asOf, inv) && inv.party == party && BucketOf(asOf - inv.dueDate) == bucket
      then inv.Open() else 0
  }

  /** A party's open amounts of one bucket. */
  function Cell(invoices: seq<Invoice>, eligible: set<Status>, asOf: int, party: int, bucket: Bucket): int {
    Sum(invoices, CellIf(eligible, asOf, party, bucket))
  }

  function Cells(invoices: seq<Invoice>, eligible: set<Status>, asOf: int, party: int): Buckets {
    Buckets(Cell(invoices, eligible, asOf, party, NotDue), Cell(invoices, eligible, asOf, party, Days1To30),
            Cell(invoices, eligible, asOf, party, Days31To60), Cell(invoices, eligible, asOf, party, Days61To90),
            Cell(invoices, eligible, asOf, party, Over90))
  }

  ghost predicate HasOpen(invoices: seq<Invoice>, eligible: set<Status>, asOf: int, party: int) {
    exists inv :: inv in invoices && Counts(eligible, asOf, inv) && inv.party == party
  }

  lemma NoOpenIsEmpty(invoices: seq<Invoice>, eligible: set<Status>, asOf: int, party: int)
    requires !HasOpen(invoices, eligible, asOf, party)
    ensures Cells(invoices, eligible, asOf, party) == EMPTY
  {
    forall bucket
      ensures Cell(invoices, eligible, asOf, party, bucket) == 0
    {
      SumZero(invoices, CellIf(eligible, asOf, party, bucket));
    }
  }

  lemma CellsTake(invoices: seq<Invoice>, i: nat, eligible: set<Status>, asOf: int, party: int)
    requires i < |invoices|
    ensures var inv, c := invoices[i], Cells(invoices[..i], eligible, asOf, party);
      var mine := Counts(eligible, asOf, inv) && inv.party == party;
      var at := (b: Bucket) => if mine && BucketOf(asOf - inv.dueDate) == b then inv.Open() else 0;
      Cells(invoices[..i + 1], eligible, asOf, party)
        == Buckets(c.notDue + at(NotDue), c.days1To30 + at(Days1To30), c.days31To60 + at(Days31To60),
                   c.days61To90 + at(Days61To90), c.over90 + at(Over90))
  {
    SumTake(invoices, i, CellIf(eligible, asOf, party, NotDue));
    SumTake(invoices, i, CellIf(eligible, asOf, party, Days1To30));
    SumTake(invoices, i, CellIf(eligible, asOf, party, Days31To60));
    SumTake(invoices, i, CellIf(eligible, asOf, party, Days61To90));
    SumTake(invoices, i, CellIf(eligible, asOf, party, Over90));
  }

  /** The bucket map after some invoices: exactly the parties with an open one, with their cells. */
  ghost predicate Filled(invoices: seq<Invoice>, eligible: set<Status>, asOf: int, buckets: map<int, Buckets>) {
    && (forall p :: p in buckets <==> HasOpen(invoices, eligible, asOf, p))
    && (forall p :: p in buckets ==> buckets[p] == Cells(invoices, eligible, asOf, p))
  }

  function AddTo(b: Buckets, daysOverdue: int, amount: int): Buckets {
    if daysOverdue <= 0 then b.(notDue := b.notDue + amount)
    else if daysOverdue <= 30 then b.(days1To30 := b.days1To30 + amount)
    else if daysOverdue <= 60 then b.(days31To60 := b.days31To60 + amount)
    else if daysOverdue <= 90 then b.(days61To90 := b.days61To90 + amount)
    else b.(over90 := b.over90 + amount)
  }

  lemma FilledTake(invoices: seq<Invoice>, i: nat, eligible: set<Status>, asOf: int, buckets: map<int, Buckets>)
    requires i < |invoices| && Filled(invoices[..i], eligible, asOf, buckets)
    ensures var inv := invoices[i];
      Filled(invoices[..i + 1], eligible, asOf,
             if !Counts(eligible, asOf, inv) then buckets
             else buckets[inv.party := AddTo(if inv.party in buckets then buckets[inv.party] else EMPTY,
                                             asOf - inv.dueDate, inv.Open())])
  {
    hide Cells, Counts, AddTo;
    var inv := invoices[i];
    var after := if !Counts(eligible, asOf, inv) then buckets
      else buckets[inv.party := AddTo(if inv.party in buckets then buckets[inv.party] else EMPTY, asOf - inv.dueDate,
                                      inv.Open())];
    assert invoices[..i + 1] == invoices[..i] + [inv];
    forall p
      ensures p in after <==> HasOpen(invoices[..i + 1], eligible, asOf, p)
      ensures p in after ==> after[p] == Cells(invoices[..i + 1], eligible, asOf, p)
    {
      CellsStep(invoices, i, eligible, asOf, p);
      if p !in buckets {
        NoOpenIsEmpty(invoices[..i], eligible, asOf, p);
      }
      assert HasOpen(invoices[..i + 1], eligible, asOf, p) <==>
             HasOpen(invoices[..i], eligible, asOf, p) || (Counts(eligible, asOf, inv) && inv.party == p);
    }
  }

  lemma CellsStep(invoices: seq<Invoice>, i: nat, eligible: set<Status>, asOf: int, party: int)
    requires i < |invoices|
    ensures var inv, c := invoices[i], Cells(invoices[..i], eligible, asOf, party);
      Cells(invoices[..i + 1], eligible, asOf, party)
        == if Counts(eligible, asOf, inv) && inv.party == party then AddTo(c, asOf - inv.dueDate, inv.Open()) else c
  {
    hide Cells, Counts;
    CellsTake(invoices, i, eligible, asOf, party);
  }

  // ----- the report ------------------------------------------------------------

  predicate LargerFirst(x: AgingRow, y: AgingRow) { x.total >= y.total }

  ghost predicate OneEach(rows: seq<AgingRow>) {
    forall i, j :: 0 <= i < j < |rows| ==> rows[i].party != rows[j].party
  }

  ghost predicate Descending(rows: seq<AgingRow>) {
    forall i, j :: 0 <= i < j < |rows| ==> rows[i].total >= rows[j].total
  }

  ghost predicate IsRow(invoices: seq<Invoice>, eligible: set<Status>, asOf: int, r: AgingRow) {
    && HasOpen(invoices, eligible, asOf, r.party)
    && r.buckets == Cells(invoices, eligible, asOf, r.party)
    && r.total == r.buckets.Total()
  }

  /** One row per party with an open invoice, each with its cells and total, largest total first. */
  ghost predicate IsAging(invoices: seq<Invoice>, eligible: set<Status>, asOf: int, rows: seq<AgingRow>) {
    && OneEach(rows) && Descending(rows)
    && (forall r :: r in rows ==> IsRow(invoices, eligible, asOf, r))
    && (forall p :: HasOpen(invoices, eligible, asOf, p) ==> exists r :: r in rows && r.party == p)
  }

  /** The loop over open invoices and the sort, shared by both reports. */
  method AgingReport(invoices: seq<Invoice>, eligible: set<Status>, asOf: int) returns (rows: seq<AgingRow>)
    ensures IsAging(invoices, eligible, asOf, rows)
  {
    hide Cells, AddTo, HasOpen, LargerFirst, Sort;
    var buckets: map<int, Buckets> := map[];
    var order: seq<int> := [];
    NothingOpen(eligible, asOf);
    for i := 0 to |invoices|
      invariant Filled(invoices[..i], eligible, asOf, buckets)
      invariant Distinct(order) && forall p :: p in order <==> p in buckets
    {
      FilledTake(invoices, i, eligible, asOf, buckets);
      var inv := invoices[i];
      if !Counts(eligible, asOf, inv) {
        continue;
      }
      var p := inv.party;
      if p !in buckets {
        buckets := buckets[p := EMPTY];
        order := order + [p];
      }
      buckets := buckets[p := AddTo(buckets[p], asOf - inv.dueDate, inv.Open())];
    }
    assert invoices[..|invoices|] == invoices;
    forall i | 0 <= i < |order|
      ensures order[i] in buckets
    {
      var p := order[i];
      assert p in order;
    }
    var listed := RowsOf(order, buckets);
    rows := Sort(listed, LargerFirst);
    SortedRows(listed);
    Listing(invoices, eligible, asOf, order, buckets, listed, rows);
  }

  lemma NothingOpen(eligible: set<Status>, asOf: int)
    ensures Filled([], eligible, asOf, map[])
  {
  }

  function RowsOf(order: seq<int>, buckets: map<int, Buckets>): (rows: seq<AgingRow>)
    requires forall i :: 0 <= i < |order| ==> order[i] in buckets
    ensures |rows| == |order|
    ensures forall i :: 0 <= i < |order| ==>
              rows[i] == AgingRow(order[i], buckets[order[i]], buckets[order[i]].Total())
  {
    if order == [] then []
    else [AgingRow(order[0], buckets[order[0]], buckets[order[0]].Total())] + RowsOf(order[1..], buckets)
  }

  lemma SortedRows(listed: seq<AgingRow>)
    requires OneEach(listed)
    ensures var rows := Sort(listed, LargerFirst);
      OneEach(rows) && Descending(rows) && forall r :: r in rows <==> r in listed
  {
    SortSorts(listed, LargerFirst);
    SortPermutes(listed, LargerFirst);
    SortKeepsKeys(listed, LargerFirst);
  }

  lemma {:induction false} InsertKeepsKeys(x: AgingRow, s: seq<AgingRow>, le: (AgingRow, AgingRow) -> bool)
    requires OneEach(s) && forall y :: y in s ==> y.party != x.party
    ensures OneEach(Insert(x, s, le))
  {
    if !(s == [] || le(x, s[0])) {
      InsertKeepsKeys(x, s[1..], le);
      InsertPermutes(x, s[1..], le);
      var t := Insert(x, s[1..], le);
      forall j | 0 <= j < |t|
        ensures t[j].party != s[0].party
      {
        assert t[j] in multiset(t);
        assert t[j] == x || t[j] in s[1..];
      }
    }
  }

  lemma {:induction false} SortKeepsKeys(s: seq<AgingRow>, le: (AgingRow, AgingRow) -> bool)
    requires OneEach(s)
    ensures OneEach(Sort(s, le))
  {
    if s != [] {
      SortKeepsKeys(s[1..], le);
      SortPermutes(s[1..], le);
      forall y | y in Sort(s[1..], le)
        ensures y.party != s[0].party
      {
        assert y in multiset(Sort(s[1..], le));
        assert y in s[1..];
      }
      InsertKeepsKeys(s[0], Sort(s[1..], le), le);
    }
  }

  lemma Listing(invoices: seq<Invoice>, eligible: set<Status>, asOf: int, order: seq<int>, buckets: map<int, Buckets>,
                listed: seq<AgingRow>, rows: seq<AgingRow>)
    requires Filled(invoices, eligible, asOf, buckets)
    requires Distinct(order) && forall p :: p in order <==> p in buckets
    requires forall i :: 0 <= i < |order| ==> order[i] in buckets
    requires listed == RowsOf(order, buckets)
    requires OneEach(rows) && Descending(rows) && forall r :: r in rows <==> r in listed
    ensures IsAging(invoices, eligible, asOf, rows)
  {
    hide Cells, HasOpen;
    forall r | r in rows
      ensures IsRow(invoices, eligible, asOf, r)
    {
      var i :| 0 <= i < |listed| && listed[i] == r;
      assert order[i] in buckets;
    }
    forall p | HasOpen(invoices, eligible, asOf, p)
      ensures exists r :: r in rows && r.party == p
    {
      assert p in order;
      var i :| 0 <= i < |order| && order[i] == p;
      assert listed[i] in rows;
    }
  }

  // ----- conservation ----------------------------------------------------------

  function PartyOf(): Invoice -> int { (inv: Invoice) => inv.party }

  lemma OneInvoice(inv: Invoice, eligible: set<Status>, asOf: int, party: int)
    ensures CellIf(eligible, asOf, party, NotDue)(inv) + CellIf(eligible, asOf, party, Days1To30)(inv)
          + CellIf(eligible, asOf, party, Days31To60)(inv) + CellIf(eligible, asOf, party, Days61To90)(inv)
          + CellIf(eligible, asOf, party, Over90)(inv)
         == KeyIf(PartyOf(), party, OpenIf(eligible, asOf))(inv)
  {
  }

  lemma CellsOfNone(eligible: set<Status>, asOf: int, party: int)
    ensures Cells([], eligible, asOf, party) == EMPTY
    ensures GroupSum([], PartyOf(), party, OpenIf(eligible, asOf)) == 0
  {
  }

  lemma CellStep(invoices: seq<Invoice>, eligible: set<Status>, asOf: int, party: int, bucket: Bucket)
    requires invoices != []
    ensures Cell(invoices, eligible, asOf, party, bucket)
         == CellIf(eligible, asOf, party, bucket)(invoices[0]) + Cell(invoices[1..], eligible, asOf, party, bucket)
  {
    SumStep(invoices, CellIf(eligible, asOf, party, bucket));
  }

  lemma {:induction false} CellsTotal(invoices: seq<Invoice>, eligible: set<Status>, asOf: int, party: int)
    ensures Cells(invoices, eligible, asOf, party).Total()
         == GroupSum(invoices, PartyOf(), party, OpenIf(eligible, asOf))
  {
    hide Sum, Cell, CellIf, KeyIf, OpenIf;
    if invoices == [] {
      CellsOfNone(eligible, asOf, party);
    } else {
      CellsTotal(invoices[1..], eligible, asOf, party);
      OneInvoice(invoices[0], eligible, asOf, party);
      CellStep(invoices, eligible, asOf, party, NotDue);
      CellStep(invoices, eligible, asOf, party, Days1To30);
      CellStep(invoices, eligible, asOf, party, Days31To60);
      CellStep(invoices, eligible, asOf, party, Days61To90);
      CellStep(invoices, eligible, asOf, party, Over90);
      SumStep(invoices, KeyIf(PartyOf(), party, OpenIf(eligible, asOf)));
    }
  }

  /** Each open amount lands in one bucket of one party: rows add up to the open amounts, and every row is positive. */
  lemma AgingConserves(invoices: seq<Invoice>, eligible: set<Status>, asOf: int, rows: seq<AgingRow>)
    requires IsAging(invoices, eligible, asOf, rows)
    ensures Sum(rows, (r: AgingRow) => r.total) == Sum(invoices, OpenIf(eligible, asOf))
    ensures forall r :: r in rows ==> r.total > 0
  {
    hide Cells;
    var open, parties := OpenIf(eligible, asOf), Parties(rows);
    forall inv | inv in invoices
      ensures open(inv) == if PartyOf()(inv) in parties then open(inv) else 0
    {
      if Counts(eligible, asOf, inv) {
        assert HasOpen(invoices, eligible, asOf, inv.party);
        var r :| r in rows && r.party == inv.party;
        var i :| 0 <= i < |rows| && rows[i] == r;
        assert parties[i] == inv.party;
      }
    }
    SumByGroup(invoices, PartyOf(), parties, open, open);
    forall r | r in rows
      ensures r.total == GroupSum(invoices, PartyOf(), r.party, open) && r.total > 0
    {
      CellsTotal(invoices, eligible, asOf, r.party);
      var inv :| inv in invoices && Counts(eligible, asOf, inv) && inv.party == r.party;
      SumNonNegative(invoices, KeyIf(PartyOf(), r.party, open));
      assert KeyIf(PartyOf(), r.party, open)(inv) == inv.Open();
    }
    forall i | 0 <= i < |rows|
      ensures rows[i].total == GroupOf(invoices, PartyOf(), open)(parties[i])
    {
      assert rows[i] in rows;
    }
    SumVia(rows, parties, (r: AgingRow) => r.total, GroupOf(invoices, PartyOf(), open));
  }

  function Parties(rows: seq<AgingRow>): (parties: seq<int>)
    ensures |parties| == |rows| && forall i :: 0 <= i < |rows| ==> parties[i] == rows[i].party
  {
    if rows == [] then [] else [rows[0].party] + Parties(rows[1..])
  }

  // ----- the reports in terms of the invoices ----------------------------------------

  /** The open amounts of the invoices in some statuses dated by asOf, and between `from` and `to` days overdue. */
  function Overdue(statuses: set<Status>, asOf: int, from: int, to: int): Invoice -> int {
    (inv: Invoice) => if IsOverdue(inv, statuses, asOf, from, to) then inv.grandTotal - inv.allocatedAmount else 0
  }

  predicate IsOverdue(inv: Invoice, statuses: set<Status>, asOf: int, from: int, to: int) {
    && inv.status in statuses && inv.invoiceDate <= asOf && inv.grandTotal > inv.allocatedAmount
    && from <= asOf - inv.dueDate <= to
  }

  function OverdueOf(party: int, statuses: set<Status>, asOf: int, from: int, to: int): Invoice -> int {
    (inv: Invoice) =>
      if inv.party == party && IsOverdue(inv, statuses, asOf, from, to) then inv.grandTotal - inv.allocatedAmount else 0
  }

  /** Days far enough out to hold every invoice's overdue days. */
  ghost predicate Covers(invoices: seq<Invoice>, asOf: int, least: int, most: int) {
    least <= 0 && 91 <= most && forall inv :: inv in invoices ==> least <= asOf - inv.dueDate <= most
  }

  /** A row's buckets are the party's open amounts not yet due, 1 to 30, 31 to 60, 61 to 90 and more days overdue. */
  ghost predicate BucketsAre(invoices: seq<Invoice>, statuses: set<Status>, asOf: int, least: int, most: int,
                             r: AgingRow) {
    && r.buckets.notDue == Sum(invoices, OverdueOf(r.party, statuses, asOf, least, 0))
    && r.buckets.days1To30 == Sum(invoices, OverdueOf(r.party, statuses, asOf, 1, 30))
    && r.buckets.days31To60 == Sum(invoices, OverdueOf(r.party, statuses, asOf, 31, 60))
    && r.buckets.days61To90 == Sum(invoices, OverdueOf(r.party, statuses, asOf, 61, 90))
    && r.buckets.over90 == Sum(invoices, OverdueOf(r.party, statuses, asOf, 91, most))
  }

  lemma RowBuckets(invoices: seq<Invoice>, statuses: set<Status>, asOf: int, least: int, most: int, r: AgingRow)
    requires IsRow(invoices, statuses, asOf, r) && Covers(invoices, asOf, least, most)
    ensures BucketsAre(invoices, statuses, asOf, least, most, r)
  {
    forall inv | inv in invoices
      ensures CellIf(statuses, asOf, r.party, NotDue)(inv) == OverdueOf(r.party, statuses, asOf, least, 0)(inv)
      ensures CellIf(statuses, asOf, r.party, Days1To30)(inv) == OverdueOf(r.party, statuses, asOf, 1, 30)(inv)
      ensures CellIf(statuses, asOf, r.party, Days31To60)(inv) == OverdueOf(r.party, statuses, asOf, 31, 60)(inv)
      ensures CellIf(statuses, asOf, r.party, Days61To90)(inv) == OverdueOf(r.party, statuses, asOf, 61, 90)(inv)
      ensures CellIf(statuses, asOf, r.party, Over90)(inv) == OverdueOf(r.party, statuses, asOf, 91, most)(inv)
    {
    }
    SumSame(invoices, CellIf(statuses, asOf, r.party, NotDue), OverdueOf(r.party, statuses, asOf, least, 0));
    SumSame(invoices, CellIf(statuses, asOf, r.party, Days1To30), OverdueOf(r.party, statuses, asOf, 1, 30));
    SumSame(invoices, CellIf(statuses, asOf, r.party, Days31To60), OverdueOf(r.party, statuses, asOf, 31, 60));
    SumSame(invoices, CellIf(statuses, asOf, r.party, Days61To90), OverdueOf(r.party, statuses, asOf, 61, 90));
    SumSame(invoices, CellIf(statuses, asOf, r.party, Over90), OverdueOf(r.party, statuses, asOf, 91, most));
  }

  /** Any aging report: its buckets by party and days overdue, a row for every party that owes, and the total owed. */
  lemma ReportFromInvoices(invoices: seq<Invoice>, statuses: set<Status>, asOf: int, least: int, most: int,
                           rows: seq<AgingRow>)
    requires IsAging(invoices, statuses, asOf, rows) && Covers(invoices, asOf, least, most)
    ensures forall r :: r in rows ==> BucketsAre(invoices, statuses, asOf, least, most, r)
    ensures Sum(rows, (r: AgingRow) => r.total) == Sum(invoices, Overdue(statuses, asOf, least, most))
    ensures forall inv :: inv in invoices && Overdue(statuses, asOf, least, most)(inv) > 0 ==>
              exists r :: r in rows && r.party == inv.party
  {
    hide BucketsAre, IsRow;
    forall r | r in rows
      ensures BucketsAre(invoices, statuses, asOf, least, most, r)
    {
      RowBuckets(invoices, statuses, asOf, least, most, r);
    }
    AgingConserves(invoices, statuses, asOf, rows);
    SumSame(invoices, OpenIf(statuses, asOf), Overdue(statuses, asOf, least, most));
    forall inv | inv in invoices && Overdue(statuses, asOf, least, most)(inv) > 0
      ensures exists r :: r in rows && r.party == inv.party
    {
      assert HasOpen(invoices, statuses, asOf, inv.party);
    }
  }

  /** ar_aging: issued, partially paid and credited invoices. */
  method ArAging(invoices: seq<Invoice>, asOf: int) returns (rows: seq<AgingRow>)
    ensures IsAging(invoices, {Issued, PartiallyPaid, Credited}, asOf, rows)
    ensures Sum(rows, (r: AgingRow) => r.total) == Sum(invoices, OpenIf({Issued, PartiallyPaid, Credited}, asOf))
  {
    rows := AgingReport(invoices, AR_STATUSES, asOf);
    AgingConserves(invoices, AR_STATUSES, asOf, rows);
  }

  /** ap_aging: issued and partially paid invoices. */
  method ApAging(invoices: seq<Invoice>, asOf: int) returns (rows: seq<AgingRow>)
    ensures IsAging(invoices, {Issued, PartiallyPaid}, asOf, rows)
    ensures Sum(rows, (r: AgingRow) => r.total) == Sum(invoices, OpenIf({Issued, PartiallyPaid}, asOf))
  {
    rows := AgingReport(invoices, AP_STATUSES, asOf);
    AgingConserves(invoices, AP_STATUSES, asOf, rows);
  }
}
