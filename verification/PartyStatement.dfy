/** Customer and vendor statements: four document tables merged into one running account. */
module PartyStatement {
  import opened Results
  import opened Running
  import opened Sorting
  import opened Sums

  datatype Status = Draft | Approved | Issued | PartiallyPaid | Paid | Credited | Posted | Reversed | Applied
                  | Cancelled

  /** An invoice, payment (a customer's receipt or a payment to a vendor) or note. */
  datatype Doc = Doc(id: int, party: int, date: int, status: Status, amount: int)

  datatype Table = Invoices | Payments | CreditNotes | DebitNotes

  datatype Tables = Tables(invoices: seq<Doc>, payments: seq<Doc>, creditNotes: seq<Doc>, debitNotes: seq<Doc>) {
    function Of(table: Table): seq<Doc> {
      match table
      case Invoices => invoices
      case Payments => payments
      case CreditNotes => creditNotes
      case DebitNotes => debitNotes
    }
  }

  datatype Kind = Invoice | Payment | PaymentReversal | CreditNote | DebitNote

  datatype Event = Event(date: int, kind: Kind, doc: int, debit: int, credit: int)

  datatype Statement = Statement(opening: int, lines: seq<Ran<Event>>, closing: int)

  // ----- which documents count, and how ----------------------------------------

  /** The statuses a period query of a table asks for. */
  predicate Counted(table: Table, status: Status) {
    match table
    case Invoices => status == Issued || status == PartiallyPaid || status == Paid || status == Credited
    case Payments => status == Posted || status == Reversed
    case CreditNotes => status == Issued || status == Applied
    case DebitNotes => status == Issued || status == Applied
  }

  /** The statuses the opening balance counts: reversed payments are left out. */
  predicate CountedInOpening(table: Table, status: Status) {
    Counted(table, status) && status != Reversed
  }

  predicate Raises(table: Table) { table == Invoices || table == DebitNotes }

  function OpeningEffect(table: Table, party: int, before: int): Doc -> int {
    (d: Doc) => if d.party == party && d.date < before && CountedInOpening(table, d.status)
                then (if Raises(table) then d.amount else -d.amount) else 0
  }

  function TableOpening(t: Tables, table: Table, party: int, before: int): int {
    Sum(t.Of(table), OpeningEffect(table, party, before))
  }

  /** The balance of all documents before a date. */
  function Opening(t: Tables, party: int, before: int): int {
    TableOpening(t, Invoices, party, before) + TableOpening(t, DebitNotes, party, before)
    + TableOpening(t, Payments, party, before) + TableOpening(t, CreditNotes, party, before)
  }

  function Selected(table: Table, party: int, a: int, b: int): Doc -> bool {
    (d: Doc) => d.party == party && a <= d.date <= b && Counted(table, d.status)
  }

  /** The statement lines of one document: a reversed payment shows as itself and its cancellation. */
  function EventsOf(table: Table, d: Doc): seq<Event> {
    match table
    case Invoices => [Event(d.date, Invoice, d.id, d.amount, 0)]
    case Payments => if d.status == Posted then [Event(d.date, Payment, d.id, 0, d.amount)]
                     else [Event(d.date, Payment, d.id, 0, d.amount), Event(d.date, PaymentReversal, d.id, d.amount, 0)]
    case CreditNotes => [Event(d.date, CreditNote, d.id, 0, d.amount)]
    case DebitNotes => [Event(d.date, DebitNote, d.id, d.amount, 0)]
  }

  function TableEvents(table: Table, docs: seq<Doc>): seq<Event> {
    if docs == [] then [] else TableEvents(table, docs[..|docs| - 1]) + EventsOf(table, docs[|docs| - 1])
  }

  function PeriodEvents(t: Tables, table: Table, party: int, a: int, b: int): seq<Event> {
    TableEvents(table, Filter(t.Of(table), Selected(table, party, a, b)))
  }

  function AllEvents(t: Tables, party: int, a: int, b: int): seq<Event> {
    (PeriodEvents(t, Invoices, party, a, b) + PeriodEvents(t, Payments, party, a, b))
    + (PeriodEvents(t, CreditNotes, party, a, b) + PeriodEvents(t, DebitNotes, party, a, b))
  }

  function Delta(): Event -> int { (e: Event) => e.debit - e.credit }

  function Rank(k: Kind): int {
    match k
    case Invoice => 0
    case Payment => 1
    case PaymentReversal => 1
    case CreditNote => 2
    case DebitNote => 3
  }

  /** Chronological; on one day invoices, then payments, credit notes and debit notes. */
  predicate StatementOrder(x: Event, y: Event) {
    x.date < y.date || (x.date == y.date && Rank(x.kind) <= Rank(y.kind))
  }

  predicate DateIdOrder(x: Doc, y: Doc) { x.date < y.date || (x.date == y.date && x.id <= y.id) }

  /** A table's counted documents of the period, in the order of its query. */
  function Chosen(t: Tables, table: Table, party: int, a: int, b: int): seq<Doc> {
    Sort(Filter(t.Of(table), Selected(table, party, a, b)), DateIdOrder)
  }

  /** One day of a statement: invoices, payments, credit notes and debit notes, each by id. */
  function DayEvents(t: Tables, party: int, d: int): seq<Event> {
    (TableEvents(Invoices, Chosen(t, Invoices, party, d, d)) + TableEvents(Payments, Chosen(t, Payments, party, d, d)))
    + (TableEvents(CreditNotes, Chosen(t, CreditNotes, party, d, d))
       + TableEvents(DebitNotes, Chosen(t, DebitNotes, party, d, d)))
  }

  /** The lines of a statement, day by day. */
  function Ordered(t: Tables, party: int, a: int, b: int): seq<Event>
    decreases b - a + 1
  {
    if a > b then [] else Ordered(t, party, a, b - 1) + DayEvents(t, party, b)
  }

  /** A statement opens at the prior balance and runs through the period's documents in order. */
  ghost predicate IsStatement(t: Tables, party: int, a: int, b: int, s: Statement) {
    && s.opening == Opening(t, party, a)
    && RunsFrom(s.opening, Ordered(t, party, a, b), Delta(), s.lines)
    && s.closing == s.opening + Sum(Ordered(t, party, a, b), Delta())
  }

  // ----- gathering a table -----------------------------------------------------

  lemma {:induction false} TableEventsSnoc(table: Table, docs: seq<Doc>, d: Doc)
    ensures TableEvents(table, docs + [d]) == TableEvents(table, docs) + EventsOf(table, d)
  {
    assert (docs + [d])[..|docs|] == docs;
  }

  lemma TableEventsNone(table: Table)
    ensures TableEvents(table, []) == []
  {
  }

  lemma {:induction false} TableEventsConcat(table: Table, x: seq<Doc>, y: seq<Doc>)
    ensures TableEvents(table, x + y) == TableEvents(table, x) + TableEvents(table, y)
  {
    hide TableEvents, EventsOf;
    if y == [] {
      assert x + y == x;
      TableEventsNone(table);
    } else {
      var n := |y| - 1;
      TableEventsConcat(table, x, y[..n]);
      TableEventsSnoc(table, x + y[..n], y[n]);
      TableEventsSnoc(table, y[..n], y[n]);
      assert x + y == x + y[..n] + [y[n]] && y == y[..n] + [y[n]];
    }
  }

  lemma TableEventsMiddle(table: Table, x: seq<Doc>, d: Doc, y: seq<Doc>)
    ensures multiset(TableEvents(table, x + [d] + y)) == multiset(TableEvents(table, x + y))
            + multiset(EventsOf(table, d))
  {
    hide TableEvents, EventsOf;
    TableEventsConcat(table, x + [d], y);
    TableEventsSnoc(table, x, d);
    TableEventsConcat(table, x, y);
  }

  lemma {:induction false} TableEventsPermute(table: Table, x: seq<Doc>, y: seq<Doc>)
    requires multiset(x) == multiset(y)
    ensures multiset(TableEvents(table, x)) == multiset(TableEvents(table, y))
  {
    hide TableEvents, EventsOf;
    if x == [] {
      assert |multiset(y)| == 0;
    } else {
      var d := x[0];
      var k := TakeOut(x, d);
      var i := TakeOut(y, d);
      TableEventsPermute(table, x[..k] + x[k + 1..], y[..i] + y[i + 1..]);
      TableEventsMiddle(table, x[..k], d, x[k + 1..]);
      TableEventsMiddle(table, y[..i], d, y[i + 1..]);
    }
  }

  predicate RankedAs(table: Table, events: seq<Event>) {
    forall e :: e in events ==>
      Rank(e.kind) == match table case Invoices => 0 case Payments => 1 case CreditNotes => 2 case DebitNotes => 3
  }

  lemma EventsRanked(table: Table, d: Doc)
    ensures RankedAs(table, EventsOf(table, d))
  {
  }

  /** One table's query and loop. */
  method Gather(t: Tables, table: Table, party: int, a: int, b: int) returns (events: seq<Event>)
    ensures events == TableEvents(table, Chosen(t, table, party, a, b))
  {
    hide TableEvents, EventsOf, Filter, Sort;
    var chosen := Sort(Filter(t.Of(table), Selected(table, party, a, b)), DateIdOrder);
    events := [];
    TableEventsNone(table);
    for i := 0 to |chosen|
      invariant events == TableEvents(table, chosen[..i])
    {
      TableEventsSnoc(table, chosen[..i], chosen[i]);
      assert chosen[..i + 1] == chosen[..i] + [chosen[i]];
      events := events + EventsOf(table, chosen[i]);
    }
    assert chosen[..|chosen|] == chosen;
  }

  lemma {:induction false} TableEventsRanked(table: Table, docs: seq<Doc>)
    ensures RankedAs(table, TableEvents(table, docs))
  {
    hide EventsOf;
    if docs != [] {
      TableEventsRanked(table, docs[..|docs| - 1]);
      EventsRanked(table, docs[|docs| - 1]);
    }
  }

  function OnDay(d: int): Event -> bool { (e: Event) => e.date == d }

  function DocOnDay(d: int): Doc -> bool { (doc: Doc) => doc.date == d }

  ghost predicate Within(events: seq<Event>, a: int, b: int) {
    forall e :: e in events ==> a <= e.date <= b
  }

  lemma {:induction false} TableEventsWithin(table: Table, docs: seq<Doc>, a: int, b: int)
    requires forall d :: d in docs ==> a <= d.date <= b
    ensures Within(TableEvents(table, docs), a, b)
  {
    if docs != [] {
      TableEventsWithin(table, docs[..|docs| - 1], a, b);
    }
  }

  lemma {:induction false} TableEventsOnDay(table: Table, docs: seq<Doc>, d: int)
    ensures Filter(TableEvents(table, docs), OnDay(d)) == TableEvents(table, Filter(docs, DocOnDay(d)))
  {
    hide TableEvents, EventsOf, Filter;
    if docs == [] {
      TableEventsNone(table);
      FilterNothing(d);
    } else {
      var init, last := docs[..|docs| - 1], docs[|docs| - 1];
      assert docs == init + [last];
      TableEventsOnDay(table, init, d);
      TableEventsSnoc(table, init, last);
      FilterConcat(TableEvents(table, init), EventsOf(table, last), OnDay(d));
      FilterConcat(init, [last], DocOnDay(d));
      DocEventsOnDay(table, last, d);
      TableEventsConcat(table, Filter(init, DocOnDay(d)), Filter([last], DocOnDay(d)));
    }
  }

  lemma FilterNothing(d: int)
    ensures Filter([], OnDay(d)) == [] && Filter([], Earlier(d)) == [] && Filter([], DocOnDay(d)) == []
  {
  }

  lemma DocEventsOnDay(table: Table, doc: Doc, d: int)
    ensures Filter(EventsOf(table, doc), OnDay(d)) == TableEvents(table, Filter([doc], DocOnDay(d)))
  {
    var events := EventsOf(table, doc);
    assert [doc][..0] == [];
    assert TableEvents(table, [doc]) == events;
    assert |events| <= 2 && events[1..] == if |events| == 1 then [] else [events[1]];
    assert Filter(events[1..], OnDay(d)) == if doc.date == d then events[1..] else [];
  }

  lemma DateIdOrderTotal()
    ensures TotalPreorder(DateIdOrder)
  {
  }

  /** A table's events of a day are those of that day's documents, by id. */
  lemma ChosenOnDay(t: Tables, table: Table, party: int, a: int, b: int, d: int)
    requires a <= d <= b
    ensures Filter(TableEvents(table, Chosen(t, table, party, a, b)), OnDay(d))
            == TableEvents(table, Chosen(t, table, party, d, d))
  {
    hide TableEvents, Filter, Sort;
    DateIdOrderTotal();
    TableEventsOnDay(table, Chosen(t, table, party, a, b), d);
    SortFilter(Filter(t.Of(table), Selected(table, party, a, b)), DateIdOrder, DocOnDay(d));
    FilterTwice(t.Of(table), Selected(table, party, a, b), DocOnDay(d), Selected(table, party, d, d));
  }

  /** A table is read by date and then id, each counted document of the period as often as it is stored. */
  lemma ChosenInOrder(t: Tables, table: Table, party: int, a: int, b: int)
    ensures var docs := Chosen(t, table, party, a, b);
      && multiset(docs) == multiset(Filter(t.Of(table), Selected(table, party, a, b)))
      && forall i, j :: 0 <= i < j < |docs| ==>
           docs[i].date < docs[j].date || (docs[i].date == docs[j].date && docs[i].id <= docs[j].id)
  {
    hide Filter, Sort;
    DateIdOrderTotal();
    SortSorts(Filter(t.Of(table), Selected(table, party, a, b)), DateIdOrder);
    SortPermutes(Filter(t.Of(table), Selected(table, party, a, b)), DateIdOrder);
  }

  lemma ChosenWithin(t: Tables, table: Table, party: int, a: int, b: int)
    ensures Within(TableEvents(table, Chosen(t, table, party, a, b)), a, b)
  {
    hide TableEvents;
    var chosen := Filter(t.Of(table), Selected(table, party, a, b));
    FilterIn(t.Of(table), Selected(table, party, a, b));
    SortPermutes(chosen, DateIdOrder);
    TableEventsWithin(table, Chosen(t, table, party, a, b), a, b);
  }

  // ----- sorting by date -------------------------------------------------------

  predicate DateOrder(x: Event, y: Event) { x.date <= y.date }

  lemma {:induction false} InsertByDate(x: Event, s: seq<Event>)
    requires SortedBy(s, StatementOrder) && forall y :: y in s ==> Rank(x.kind) <= Rank(y.kind)
    ensures SortedBy(Insert(x, s, DateOrder), StatementOrder)
  {
    if s == [] {
    } else if x.date <= s[0].date {
      var r := [x] + s;
      forall j | 0 <= j < |s|
        ensures StatementOrder(x, s[j])
      {
        assert j == 0 || StatementOrder(s[0], s[j]);
        assert s[j] in s;
      }
      forall i, j | 0 <= i < j < |r|
        ensures StatementOrder(r[i], r[j])
      {
        assert i == 0 || StatementOrder(s[i - 1], s[j - 1]);
      }
    } else {
      var t := Insert(x, s[1..], DateOrder);
      InsertByDate(x, s[1..]);
      InsertPermutes(x, s[1..], DateOrder);
      forall j | 0 <= j < |t|
        ensures StatementOrder(s[0], t[j])
      {
        assert t[j] in multiset(t);
        assert t[j] == x || t[j] in s[1..];
      }
    }
  }

  /** Sorting by date keeps events that were gathered in table order in table order within each day. */
  lemma {:induction false} SortByDate(s: seq<Event>)
    requires forall i, j :: 0 <= i < j < |s| ==> Rank(s[i].kind) <= Rank(s[j].kind)
    ensures SortedBy(Sort(s, DateOrder), StatementOrder)
  {
    if s != [] {
      SortByDate(s[1..]);
      SortPermutes(s[1..], DateOrder);
      forall y | y in Sort(s[1..], DateOrder)
        ensures Rank(s[0].kind) <= Rank(y.kind)
      {
        assert y in multiset(Sort(s[1..], DateOrder));
        assert y in s[1..];
      }
      InsertByDate(s[0], Sort(s[1..], DateOrder));
    }
  }

  // ----- the statements ----------------------------------------------------------

  function Gathered(t: Tables, party: int, a: int, b: int): seq<Event> {
    (TableEvents(Invoices, Chosen(t, Invoices, party, a, b)) + TableEvents(Payments, Chosen(t, Payments, party, a, b)))
    + (TableEvents(CreditNotes, Chosen(t, CreditNotes, party, a, b))
       + TableEvents(DebitNotes, Chosen(t, DebitNotes, party, a, b)))
  }

  lemma GatheredOnDay(t: Tables, party: int, a: int, b: int, d: int)
    requires a <= d <= b
    ensures Filter(Gathered(t, party, a, b), OnDay(d)) == DayEvents(t, party, d)
  {
    hide TableEvents, Chosen, Filter;
    var inv, pay := TableEvents(Invoices, Chosen(t, Invoices, party, a, b)),
        TableEvents(Payments, Chosen(t, Payments, party, a, b));
    var cn, dn := TableEvents(CreditNotes, Chosen(t, CreditNotes, party, a, b)),
        TableEvents(DebitNotes, Chosen(t, DebitNotes, party, a, b));
    FilterConcat(inv + pay, cn + dn, OnDay(d));
    FilterConcat(inv, pay, OnDay(d));
    FilterConcat(cn, dn, OnDay(d));
    ChosenOnDay(t, Invoices, party, a, b, d);
    ChosenOnDay(t, Payments, party, a, b, d);
    ChosenOnDay(t, CreditNotes, party, a, b, d);
    ChosenOnDay(t, DebitNotes, party, a, b, d);
  }

  lemma GatheredWithin(t: Tables, party: int, a: int, b: int)
    ensures Within(Gathered(t, party, a, b), a, b)
  {
    hide TableEvents, Chosen;
    ChosenWithin(t, Invoices, party, a, b);
    ChosenWithin(t, Payments, party, a, b);
    ChosenWithin(t, CreditNotes, party, a, b);
    ChosenWithin(t, DebitNotes, party, a, b);
  }

  function Earlier(b: int): Event -> bool { (e: Event) => e.date < b }

  /** In date order, everything before the last day stands before it. */
  lemma {:induction false} LastDay(s: seq<Event>, a: int, b: int)
    requires SortedBy(s, DateOrder) && Within(s, a, b)
    ensures s == Filter(s, Earlier(b)) + Filter(s, OnDay(b))
    ensures s != [] && s[0].date == b ==> Filter(s, Earlier(b)) == []
  {
    hide Filter;
    if s == [] {
      FilterNothing(b);
    } else {
      LastDay(s[1..], a, b);
      FilterStep(s, Earlier(b));
      FilterStep(s, OnDay(b));
      assert s[0] in s && s == [s[0]] + s[1..];
      if s[0].date == b && |s| > 1 {
        assert s[1] in s && DateOrder(s[0], s[1]);
        assert s[1..][0] == s[1];
      }
    }
  }

  lemma {:induction false} FilterKeepsOrder(s: seq<Event>, keep: Event -> bool)
    requires SortedBy(s, DateOrder)
    ensures SortedBy(Filter(s, keep), DateOrder)
  {
    if s != [] {
      FilterKeepsOrder(s[1..], keep);
      FilterIn(s[1..], keep);
      forall e | e in Filter(s[1..], keep)
        ensures DateOrder(s[0], e)
      {
        var i :| 0 <= i < |s[1..]| && s[1..][i] == e;
        assert s[i + 1] == e;
      }
    }
  }

  lemma HasFirst(s: seq<Event>)
    ensures s != [] ==> s[0] in s
  {
  }

  /** Events in date order whose days are the statement's days are the statement's lines. */
  lemma {:induction false} DayByDay(s: seq<Event>, t: Tables, party: int, a: int, b: int)
    requires SortedBy(s, DateOrder) && Within(s, a, b)
    requires forall d :: a <= d <= b ==> Filter(s, OnDay(d)) == DayEvents(t, party, d)
    ensures s == Ordered(t, party, a, b)
    decreases b - a + 1
  {
    hide DayEvents, Filter;
    if a > b {
      HasFirst(s);
    } else {
      var before := Filter(s, Earlier(b));
      LastDay(s, a, b);
      FilterKeepsOrder(s, Earlier(b));
      FilterIn(s, Earlier(b));
      forall d | a <= d <= b - 1
        ensures Filter(before, OnDay(d)) == DayEvents(t, party, d)
      {
        FilterTwice(s, Earlier(b), OnDay(d), OnDay(d));
      }
      DayByDay(before, t, party, a, b - 1);
    }
  }

  lemma DateOrderTotal()
    ensures TotalPreorder(DateOrder)
  {
  }

  /** The stable sort by date puts the gathered tables day by day, each day by table and id. */
  lemma SortedIsOrdered(t: Tables, party: int, a: int, b: int)
    ensures Sort(Gathered(t, party, a, b), DateOrder) == Ordered(t, party, a, b)
  {
    hide Gathered, Sort, Filter, DayEvents;
    var gathered := Gathered(t, party, a, b);
    var s := Sort(gathered, DateOrder);
    DateOrderTotal();
    SortSorts(gathered, DateOrder);
    SortPermutes(gathered, DateOrder);
    GatheredWithin(t, party, a, b);
    forall d | a <= d <= b
      ensures Filter(s, OnDay(d)) == DayEvents(t, party, d)
    {
      SortStable(gathered, DateOrder, OnDay(d));
      GatheredOnDay(t, party, a, b, d);
    }
    DayByDay(s, t, party, a, b);
  }

  lemma ChosenIsAll(t: Tables, table: Table, party: int, a: int, b: int)
    ensures multiset(TableEvents(table, Chosen(t, table, party, a, b))) == multiset(PeriodEvents(t, table, party, a, b))
  {
    hide TableEvents, Filter, Sort;
    var chosen := Filter(t.Of(table), Selected(table, party, a, b));
    SortPermutes(chosen, DateIdOrder);
    TableEventsPermute(table, Chosen(t, table, party, a, b), chosen);
  }

  /** Merging and sorting lose no document's lines and invent none, and days keep their table order. */
  lemma OrderedIsAll(t: Tables, party: int, a: int, b: int)
    ensures multiset(Ordered(t, party, a, b)) == multiset(AllEvents(t, party, a, b))
    ensures SortedBy(Ordered(t, party, a, b), StatementOrder)
    ensures var events := Ordered(t, party, a, b);
      forall i, j :: 0 <= i < j < |events| ==>
        events[i].date <= events[j].date
        && (events[i].date == events[j].date ==> Rank(events[i].kind) <= Rank(events[j].kind))
  {
    hide Ordered, TableEvents, Chosen, PeriodEvents, Sort;
    SortedIsOrdered(t, party, a, b);
    SortPermutes(Gathered(t, party, a, b), DateOrder);
    ChosenIsAll(t, Invoices, party, a, b);
    ChosenIsAll(t, Payments, party, a, b);
    ChosenIsAll(t, CreditNotes, party, a, b);
    ChosenIsAll(t, DebitNotes, party, a, b);
    GatheredInOrder(t, party, a, b);
    SortByDate(Gathered(t, party, a, b));
  }

  /** Merge the gathered tables, sort by date and run the balance. */
  method Assemble(t: Tables, party: int, a: int, b: int, opening: int) returns (s: Statement)
    requires opening == Opening(t, party, a)
    ensures IsStatement(t, party, a, b, s)
  {
    hide TableEvents, Chosen, Ordered, Sort, Sum, Opening;
    var invoices := Gather(t, Invoices, party, a, b);
    var payments := Gather(t, Payments, party, a, b);
    var creditNotes := Gather(t, CreditNotes, party, a, b);
    var debitNotes := Gather(t, DebitNotes, party, a, b);
    var events := Sort((invoices + payments) + (creditNotes + debitNotes), DateOrder);
    SortedIsOrdered(t, party, a, b);
    var lines, closing := Accumulate(opening, events, Delta());
    s := Statement(opening, lines, closing);
  }

  lemma GatheredInOrder(t: Tables, party: int, a: int, b: int)
    ensures var s := Gathered(t, party, a, b);
      forall i, j :: 0 <= i < j < |s| ==> Rank(s[i].kind) <= Rank(s[j].kind)
  {
    hide Rank, TableEvents, Chosen;
    TableEventsRanked(Invoices, Chosen(t, Invoices, party, a, b));
    TableEventsRanked(Payments, Chosen(t, Payments, party, a, b));
    TableEventsRanked(CreditNotes, Chosen(t, CreditNotes, party, a, b));
    TableEventsRanked(DebitNotes, Chosen(t, DebitNotes, party, a, b));
    assert forall e :: e in TableEvents(Invoices, Chosen(t, Invoices, party, a, b)) ==> Rank(e.kind) == 0;
    assert forall e :: e in TableEvents(Payments, Chosen(t, Payments, party, a, b)) ==> Rank(e.kind) == 1;
    assert forall e :: e in TableEvents(CreditNotes, Chosen(t, CreditNotes, party, a, b)) ==> Rank(e.kind) == 2;
    assert forall e :: e in TableEvents(DebitNotes, Chosen(t, DebitNotes, party, a, b)) ==> Rank(e.kind) == 3;
  }

  datatype PartyError = PartyNotFound

  /** customer_statement */
  method CustomerStatement(customers: set<int>, t: Tables, customer: int, a: int, b: int)
    returns (r: Result<Statement, PartyError>)
    ensures r.Ok? <==> customer in customers
    ensures r.Ok? ==> IsStatement(t, customer, a, b, r.value)
  {
    if customer !in customers {
      return Err(PartyNotFound);
    }
    var s := Assemble(t, customer, a, b, Opening(t, customer, a));
    r := Ok(s);
  }

  /** One loop of the vendor statement's opening balance. */
  method AddUp(t: Tables, table: Table, party: int, before: int, start: int) returns (bal: int)
    ensures bal == start + TableOpening(t, table, party, before)
  {
    bal := start;
    var docs := t.Of(table);
    for i := 0 to |docs|
      invariant bal == start + Sum(docs[..i], OpeningEffect(table, party, before))
    {
      SumTake(docs, i, OpeningEffect(table, party, before));
      var d := docs[i];
      if d.party == party && d.date < before && CountedInOpening(table, d.status) {
        if Raises(table) {
          bal := bal + d.amount;
        } else {
          bal := bal - d.amount;
        }
      }
    }
    assert docs[..|docs|] == docs;
  }

  /** vendor_statement: its opening balance is added up row by row, and its lines follow the same rules. */
  method VendorStatement(vendors: set<int>, t: Tables, vendor: int, a: int, b: int)
    returns (r: Result<Statement, PartyError>)
    ensures r.Ok? <==> vendor in vendors
    ensures r.Ok? ==> IsStatement(t, vendor, a, b, r.value)
  {
    if vendor !in vendors {
      return Err(PartyNotFound);
    }
    var bal := AddUp(t, Invoices, vendor, a, 0);
    bal := AddUp(t, Payments, vendor, a, bal);
    bal := AddUp(t, CreditNotes, vendor, a, bal);
    bal := AddUp(t, DebitNotes, vendor, a, bal);
    var s := Assemble(t, vendor, a, b, bal);
    r := Ok(s);
  }

  // ----- chaining and reversals --------------------------------------------------

  /** The lines of a table's period documents move the balance as the opening balance later counts them. */
  lemma {:induction false} EventsMoveOpening(docs: seq<Doc>, table: Table, party: int, a: int, b: int)
    requires a <= b + 1
    ensures Sum(TableEvents(table, Filter(docs, Selected(table, party, a, b))), Delta())
         == Sum(docs, OpeningEffect(table, party, b + 1)) - Sum(docs, OpeningEffect(table, party, a))
  {
    if docs == [] {
    } else {
      var rest := Filter(docs[1..], Selected(table, party, a, b));
      EventsMoveOpening(docs[1..], table, party, a, b);
      if Selected(table, party, a, b)(docs[0]) {
        OneDoc(table, docs[0]);
        TableEventsConcat(table, [docs[0]], rest);
        SumConcat(TableEvents(table, [docs[0]]), TableEvents(table, rest), Delta());
      } else {
        assert Filter(docs, Selected(table, party, a, b)) == rest;
      }
    }
  }

  lemma OneDoc(table: Table, d: Doc)
    requires Counted(table, d.status)
    ensures Sum(TableEvents(table, [d]), Delta())
         == if d.status == Reversed then 0 else if Raises(table) then d.amount else -d.amount
  {
    TableEventsSnoc(table, [], d);
    assert [] + [d] == [d];
    assert TableEvents(table, []) + EventsOf(table, d) == EventsOf(table, d);
    var events := EventsOf(table, d);
    assert events == [events[0]] + events[1..];
    SumOne(events[0], Delta());
    SumConcat([events[0]], events[1..], Delta());
    if |events| == 2 {
      assert events[1..] == [events[1]];
      SumOne(events[1], Delta());
    }
  }

  /** A statement closes at the opening balance of any statement that starts the day after it. */
  lemma StatementChains(t: Tables, party: int, a: int, b: int, s: Statement)
    requires IsStatement(t, party, a, b, s) && a <= b + 1
    ensures s.closing == Opening(t, party, b + 1)
  {
    hide TableEvents, Filter, Sum, SortedBy, RunsFrom, Opening, Ordered;
    OrderedIsAll(t, party, a, b);
    SumPermutation(Ordered(t, party, a, b), AllEvents(t, party, a, b), Delta());
    AllEventsSum(t, party, a, b);
    EventsMoveOpening(t.invoices, Invoices, party, a, b);
    EventsMoveOpening(t.payments, Payments, party, a, b);
    EventsMoveOpening(t.creditNotes, CreditNotes, party, a, b);
    EventsMoveOpening(t.debitNotes, DebitNotes, party, a, b);
    OpeningMoves(t, party, a, b);
  }

  lemma OpeningMoves(t: Tables, party: int, a: int, b: int)
    ensures Opening(t, party, b + 1) - Opening(t, party, a)
         == (TableOpening(t, Invoices, party, b + 1) - TableOpening(t, Invoices, party, a))
          + (TableOpening(t, Payments, party, b + 1) - TableOpening(t, Payments, party, a))
          + (TableOpening(t, CreditNotes, party, b + 1) - TableOpening(t, CreditNotes, party, a))
          + (TableOpening(t, DebitNotes, party, b + 1) - TableOpening(t, DebitNotes, party, a))
  {
    hide TableOpening;
  }

  lemma AllEventsSum(t: Tables, party: int, a: int, b: int)
    ensures Sum(AllEvents(t, party, a, b), Delta())
         == Sum(PeriodEvents(t, Invoices, party, a, b), Delta()) + Sum(PeriodEvents(t, Payments, party, a, b), Delta())
          + Sum(PeriodEvents(t, CreditNotes, party, a, b), Delta())
          + Sum(PeriodEvents(t, DebitNotes, party, a, b), Delta())
  {
    hide PeriodEvents, Sum, Delta;
    var inv, pay, cn, dn := PeriodEvents(t, Invoices, party, a, b), PeriodEvents(t, Payments, party, a, b),
                            PeriodEvents(t, CreditNotes, party, a, b), PeriodEvents(t, DebitNotes, party, a, b);
    SumConcat(inv + pay, cn + dn, Delta());
    SumConcat(inv, pay, Delta());
    SumConcat(cn, dn, Delta());
  }

  /** A reversed payment counts for nothing in the balance before any date. */
  lemma ReversedPaymentInvisible(t: Tables, i: nat, party: int, before: int)
    requires i < |t.payments| && t.payments[i].status == Reversed
    ensures Opening(t.(payments := t.payments[..i] + t.payments[i + 1..]), party, before) == Opening(t, party, before)
  {
    var effect := OpeningEffect(Payments, party, before);
    assert t.payments == t.payments[..i] + [t.payments[i]] + t.payments[i + 1..];
    SumConcat(t.payments[..i] + [t.payments[i]], t.payments[i + 1..], effect);
    SumSnoc(t.payments[..i], t.payments[i], effect);
    SumConcat(t.payments[..i], t.payments[i + 1..], effect);
  }

  /** So with or without it, whether it falls before or inside the period, a statement opens and closes alike. */
  lemma StatementsWithoutReversed(t: Tables, i: nat, party: int, a: int, b: int, s: Statement, without: Statement)
    requires i < |t.payments| && t.payments[i].status == Reversed && a <= b + 1
    requires IsStatement(t, party, a, b, s)
    requires IsStatement(t.(payments := t.payments[..i] + t.payments[i + 1..]), party, a, b, without)
    ensures s.opening == without.opening && s.closing == without.closing
  {
    hide IsStatement, Sum;
    var rest := t.(payments := t.payments[..i] + t.payments[i + 1..]);
    ReversedPaymentInvisible(t, i, party, a);
    ReversedPaymentInvisible(t, i, party, b + 1);
    StatementChains(t, party, a, b, s);
    StatementChains(rest, party, a, b, without);
    StatementOpens(t, party, a, b, s);
    StatementOpens(rest, party, a, b, without);
  }

  lemma StatementOpens(t: Tables, party: int, a: int, b: int, s: Statement)
    requires IsStatement(t, party, a, b, s)
    ensures s.opening == Opening(t, party, a)
  {
  }

  // ----- reversed payments -------------------------------------------------------

  /** Every reversal stands directly behind the payment it cancels. */
  ghost predicate Paired(events: seq<Event>) {
    forall i :: 0 <= i < |events| && events[i].kind == PaymentReversal ==>
      i > 0 && events[i - 1] == Event(events[i].date, Payment, events[i].doc, 0, events[i].debit)
      && events[i].credit == 0
  }

  lemma PairedConcat(x: seq<Event>, y: seq<Event>)
    requires Paired(x) && Paired(y)
    ensures Paired(x + y)
  {
    var s := x + y;
    forall i | 0 <= i < |s| && s[i].kind == PaymentReversal
      ensures i > 0 && s[i - 1] == Event(s[i].date, Payment, s[i].doc, 0, s[i].debit) && s[i].credit == 0
    {
      if i >= |x| {
        assert y[i - |x|].kind == PaymentReversal;
      }
    }
  }

  lemma {:induction false} TablePaired(table: Table, docs: seq<Doc>)
    ensures Paired(TableEvents(table, docs))
  {
    if docs != [] {
      TablePaired(table, docs[..|docs| - 1]);
      PairedConcat(TableEvents(table, docs[..|docs| - 1]), EventsOf(table, docs[|docs| - 1]));
    }
  }

  lemma {:induction false} OrderedPaired(t: Tables, party: int, a: int, b: int)
    ensures Paired(Ordered(t, party, a, b))
    decreases b - a + 1
  {
    hide TableEvents, Chosen, Paired;
    if a > b {
      NothingPaired();
    } else {
      var inv, pay := TableEvents(Invoices, Chosen(t, Invoices, party, b, b)),
          TableEvents(Payments, Chosen(t, Payments, party, b, b));
      var cn, dn := TableEvents(CreditNotes, Chosen(t, CreditNotes, party, b, b)),
          TableEvents(DebitNotes, Chosen(t, DebitNotes, party, b, b));
      TablePaired(Invoices, Chosen(t, Invoices, party, b, b));
      TablePaired(Payments, Chosen(t, Payments, party, b, b));
      TablePaired(CreditNotes, Chosen(t, CreditNotes, party, b, b));
      TablePaired(DebitNotes, Chosen(t, DebitNotes, party, b, b));
      PairedConcat(inv, pay);
      PairedConcat(cn, dn);
      PairedConcat(inv + pay, cn + dn);
      OrderedPaired(t, party, a, b - 1);
      PairedConcat(Ordered(t, party, a, b - 1), DayEvents(t, party, b));
    }
  }

  lemma NothingPaired()
    ensures Paired([])
  {
  }

  /** The balance before line i of a statement. */
  function BalanceBefore(s: Statement, i: nat): int
    requires i <= |s.lines|
  {
    if i == 0 then s.opening else s.lines[i - 1].balance
  }

  /** A reversal line directly follows its payment, and the balance after it is the one before the payment. */
  lemma ReversalFollowsPayment(t: Tables, party: int, a: int, b: int, s: Statement, i: nat)
    requires IsStatement(t, party, a, b, s) && i < |s.lines| && s.lines[i].item.kind == PaymentReversal
    ensures i > 0
    ensures s.lines[i - 1].item == Event(s.lines[i].item.date, Payment, s.lines[i].item.doc, 0, s.lines[i].item.debit)
    ensures s.lines[i].balance == BalanceBefore(s, i - 1)
  {
    hide Ordered;
    var events := Ordered(t, party, a, b);
    OrderedPaired(t, party, a, b);
    SumTake(events, i, Delta());
    SumTake(events, i - 1, Delta());
    if i > 1 {
      assert s.lines[i - 2].balance == s.opening + Sum(events[..i - 1], Delta());
    }
  }

  // ----- which documents a statement shows -----------------------------------------

  function InvoiceLine(d: Doc): Event { Event(d.date, Invoice, d.id, d.amount, 0) }

  function PaymentLine(d: Doc): Event { Event(d.date, Payment, d.id, 0, d.amount) }

  function ReversalLine(d: Doc): Event { Event(d.date, PaymentReversal, d.id, d.amount, 0) }

  function CreditNoteLine(d: Doc): Event { Event(d.date, CreditNote, d.id, 0, d.amount) }

  function DebitNoteLine(d: Doc): Event { Event(d.date, DebitNote, d.id, d.amount, 0) }

  /** e is the line `line` writes for one of the party's documents of the period in one of the statuses. */
  ghost predicate Shown(docs: seq<Doc>, line: Doc -> Event, statuses: set<Status>, party: int, a: int, b: int,
                        e: Event) {
    exists d :: d in docs && d.party == party && a <= d.date <= b && d.status in statuses && e == line(d)
  }

  lemma {:induction false} TableEventsAre(table: Table, docs: seq<Doc>, e: Event)
    ensures e in TableEvents(table, docs) <==> exists d :: d in docs && e in EventsOf(table, d)
  {
    hide EventsOf;
    if docs != [] {
      var init, last := docs[..|docs| - 1], docs[|docs| - 1];
      TableEventsAre(table, init, e);
      assert docs == init + [last];
    }
  }

  lemma PeriodEventsAre(t: Tables, table: Table, party: int, a: int, b: int, e: Event)
    ensures e in PeriodEvents(t, table, party, a, b) <==>
            exists d :: d in t.Of(table) && Selected(table, party, a, b)(d) && e in EventsOf(table, d)
  {
    hide EventsOf, TableEvents, Filter;
    TableEventsAre(table, Filter(t.Of(table), Selected(table, party, a, b)), e);
    FilterIn(t.Of(table), Selected(table, party, a, b));
  }

  /** A statement shows invoices issued, part-paid, paid or credited, payments posted or reversed with the
      cancellation of the reversed ones, and notes issued or applied: every such document of the party dated in
      the period with its amount, and nothing else. */
  lemma LinesAre(t: Tables, party: int, a: int, b: int, e: Event)
    ensures e in Ordered(t, party, a, b) <==>
            || Shown(t.invoices, InvoiceLine, {Issued, PartiallyPaid, Paid, Credited}, party, a, b, e)
            || Shown(t.payments, PaymentLine, {Posted, Reversed}, party, a, b, e)
            || Shown(t.payments, ReversalLine, {Reversed}, party, a, b, e)
            || Shown(t.creditNotes, CreditNoteLine, {Issued, Applied}, party, a, b, e)
            || Shown(t.debitNotes, DebitNoteLine, {Issued, Applied}, party, a, b, e)
  {
    hide Ordered, PeriodEvents;
    OrderedIsAll(t, party, a, b);
    assert e in Ordered(t, party, a, b) <==> e in multiset(AllEvents(t, party, a, b));
    InvoicesShown(t, party, a, b, e);
    PaymentsShown(t, party, a, b, e);
    NotesShown(t, party, a, b, e);
  }

  lemma InvoicesShown(t: Tables, party: int, a: int, b: int, e: Event)
    ensures e in PeriodEvents(t, Invoices, party, a, b) <==>
            Shown(t.invoices, InvoiceLine, {Issued, PartiallyPaid, Paid, Credited}, party, a, b, e)
  {
    hide PeriodEvents;
    PeriodEventsAre(t, Invoices, party, a, b, e);
    forall d
      ensures e in EventsOf(Invoices, d) <==> e == InvoiceLine(d)
    {
    }
  }

  lemma PaymentsShown(t: Tables, party: int, a: int, b: int, e: Event)
    ensures e in PeriodEvents(t, Payments, party, a, b) <==>
            Shown(t.payments, PaymentLine, {Posted, Reversed}, party, a, b, e)
            || Shown(t.payments, ReversalLine, {Reversed}, party, a, b, e)
  {
    hide PeriodEvents;
    PeriodEventsAre(t, Payments, party, a, b, e);
    forall d
      ensures e in EventsOf(Payments, d) <==> e == PaymentLine(d) || (d.status != Posted && e == ReversalLine(d))
    {
    }
  }

  lemma NotesShown(t: Tables, party: int, a: int, b: int, e: Event)
    ensures e in PeriodEvents(t, CreditNotes, party, a, b) <==>
            Shown(t.creditNotes, CreditNoteLine, {Issued, Applied}, party, a, b, e)
    ensures e in PeriodEvents(t, DebitNotes, party, a, b) <==>
            Shown(t.debitNotes, DebitNoteLine, {Issued, Applied}, party, a, b, e)
  {
    hide PeriodEvents;
    PeriodEventsAre(t, CreditNotes, party, a, b, e);
    PeriodEventsAre(t, DebitNotes, party, a, b, e);
    forall d
      ensures e in EventsOf(CreditNotes, d) <==> e == CreditNoteLine(d)
      ensures e in EventsOf(DebitNotes, d) <==> e == DebitNoteLine(d)
    {
    }
  }

  /** The statuses in which a table's documents are shown. */
  function ShownStatuses(table: Table): set<Status> {
    match table
    case Invoices => {Issued, PartiallyPaid, Paid, Credited}
    case Payments => {Posted, Reversed}
    case CreditNotes => {Issued, Applied}
    case DebitNotes => {Issued, Applied}
  }

  function LineOf(table: Table, d: Doc): Event {
    match table
    case Invoices => InvoiceLine(d)
    case Payments => PaymentLine(d)
    case CreditNotes => CreditNoteLine(d)
    case DebitNotes => DebitNoteLine(d)
  }

  /** With unique ids, a document of the period has its line exactly when its status is one of those, and the
      statement has no other line of that kind and id. */
  lemma DocumentShown(t: Tables, table: Table, a: int, b: int, d: Doc)
    requires UniqueIds(t.Of(table)) && d in t.Of(table) && a <= d.date <= b
    ensures LineOf(table, d) in Ordered(t, d.party, a, b) <==> d.status in ShownStatuses(table)
    ensures forall e :: e in Ordered(t, d.party, a, b) && e.kind == LineOf(table, d).kind && e.doc == d.id ==>
              e == LineOf(table, d)
  {
    hide Ordered;
    LinesAre(t, d.party, a, b, LineOf(table, d));
    forall e | e in Ordered(t, d.party, a, b) && e.kind == LineOf(table, d).kind && e.doc == d.id
      ensures e == LineOf(table, d)
    {
      LinesAre(t, d.party, a, b, e);
    }
  }

  ghost predicate UniqueIds(docs: seq<Doc>) {
    forall i, j :: 0 <= i < j < |docs| ==> docs[i].id != docs[j].id
  }

  ghost predicate Once(events: seq<Event>) {
    forall e :: multiset(events)[e] <= 1
  }

  lemma {:induction false} TableEventsOnce(table: Table, docs: seq<Doc>)
    requires UniqueIds(docs)
    ensures Once(TableEvents(table, docs))
  {
    hide EventsOf;
    if docs != [] {
      var init, last := docs[..|docs| - 1], docs[|docs| - 1];
      TableEventsOnce(table, init);
      forall e
        ensures multiset(TableEvents(table, docs))[e] <= 1
      {
        TableEventsAre(table, init, e);
        EventsOfDoc(table, last, e);
        forall d | d in init && e in EventsOf(table, d)
          ensures e.doc != last.id
        {
          EventsOfDoc(table, d, e);
          var i :| 0 <= i < |init| && init[i] == d;
          assert docs[i] == d;
        }
      }
    }
  }

  lemma EventsOfDoc(table: Table, d: Doc, e: Event)
    ensures multiset(EventsOf(table, d))[e] <= 1
    ensures e in EventsOf(table, d) ==> e.doc == d.id
  {
  }

  lemma {:induction false} FilterUnique(docs: seq<Doc>, keep: Doc -> bool)
    requires UniqueIds(docs)
    ensures UniqueIds(Filter(docs, keep))
  {
    if docs != [] {
      FilterUnique(docs[1..], keep);
      FilterIn(docs[1..], keep);
      forall d | d in Filter(docs[1..], keep)
        ensures d.id != docs[0].id
      {
        var i :| 0 <= i < |docs[1..]| && docs[1..][i] == d;
        assert docs[i + 1] == d;
      }
    }
  }

  lemma PeriodEventsOnce(t: Tables, table: Table, party: int, a: int, b: int)
    requires UniqueIds(t.Of(table))
    ensures Once(PeriodEvents(t, table, party, a, b)) && RankedAs(table, PeriodEvents(t, table, party, a, b))
  {
    hide TableEvents, Filter;
    FilterUnique(t.Of(table), Selected(table, party, a, b));
    TableEventsOnce(table, Filter(t.Of(table), Selected(table, party, a, b)));
    TableEventsRanked(table, Filter(t.Of(table), Selected(table, party, a, b)));
  }

  lemma OnceConcat(x: seq<Event>, y: seq<Event>)
    requires Once(x) && Once(y) && forall e :: e in x ==> e !in y
    ensures Once(x + y)
  {
    forall e
      ensures multiset(x + y)[e] <= 1
    {
      assert multiset(x + y) == multiset(x) + multiset(y);
      assert e in x <==> e in multiset(x);
      assert e in y <==> e in multiset(y);
    }
  }

  /** With ids unique in each table no line occurs twice. */
  lemma LinesOnce(t: Tables, party: int, a: int, b: int)
    requires UniqueIds(t.invoices) && UniqueIds(t.payments) && UniqueIds(t.creditNotes) && UniqueIds(t.debitNotes)
    ensures Once(Ordered(t, party, a, b))
  {
    hide PeriodEvents, Ordered, Once, Rank;
    var inv, pay := PeriodEvents(t, Invoices, party, a, b), PeriodEvents(t, Payments, party, a, b);
    var cn, dn := PeriodEvents(t, CreditNotes, party, a, b), PeriodEvents(t, DebitNotes, party, a, b);
    PeriodEventsOnce(t, Invoices, party, a, b);
    PeriodEventsOnce(t, Payments, party, a, b);
    PeriodEventsOnce(t, CreditNotes, party, a, b);
    PeriodEventsOnce(t, DebitNotes, party, a, b);
    OnceConcat(inv, pay);
    OnceConcat(cn, dn);
    OnceConcat(inv + pay, cn + dn);
    OrderedIsAll(t, party, a, b);
    OnceSame(AllEvents(t, party, a, b), Ordered(t, party, a, b));
  }

  lemma OnceSame(x: seq<Event>, y: seq<Event>)
    requires Once(x) && multiset(x) == multiset(y)
    ensures Once(y)
  {
  }

  // ----- balances in terms of the documents ------------------------------------------

  /** The amounts of a party's documents in some statuses dated before a day. */
  function Amounts(docs: seq<Doc>, statuses: set<Status>, party: int, before: int): int {
    Sum(docs, AmountIf(statuses, party, before))
  }

  function AmountIf(statuses: set<Status>, party: int, before: int): Doc -> int {
    (d: Doc) => if d.party == party && d.date < before && d.status in statuses then d.amount else 0
  }

  /** Invoices and debit notes less posted payments and credit notes. */
  function Owed(t: Tables, party: int, before: int): int {
    Amounts(t.invoices, {Issued, PartiallyPaid, Paid, Credited}, party, before)
    + Amounts(t.debitNotes, {Issued, Applied}, party, before)
    - Amounts(t.payments, {Posted}, party, before)
    - Amounts(t.creditNotes, {Issued, Applied}, party, before)
  }

  lemma OpeningIsOwed(t: Tables, party: int, before: int)
    ensures Opening(t, party, before) == Owed(t, party, before)
  {
    SumScaled(t.invoices, OpeningEffect(Invoices, party, before),
              AmountIf({Issued, PartiallyPaid, Paid, Credited}, party, before), 1);
    SumScaled(t.debitNotes, OpeningEffect(DebitNotes, party, before), AmountIf({Issued, Applied}, party, before), 1);
    SumScaled(t.payments, OpeningEffect(Payments, party, before), AmountIf({Posted}, party, before), -1);
    SumScaled(t.creditNotes, OpeningEffect(CreditNotes, party, before), AmountIf({Issued, Applied}, party, before), -1);
  }

  /** A statement opens at what the party owed before the period and closes at what it owes after it. */
  lemma StatementBalances(t: Tables, party: int, a: int, b: int, s: Statement)
    requires IsStatement(t, party, a, b, s) && a <= b + 1
    ensures s.opening == Owed(t, party, a) && s.closing == Owed(t, party, b + 1)
  {
    hide Ordered, Owed, Opening, Sum;
    StatementOpens(t, party, a, b, s);
    StatementChains(t, party, a, b, s);
    OpeningIsOwed(t, party, a);
    OpeningIsOwed(t, party, b + 1);
  }

  /** Paying, part-paying or crediting an issued invoice does not move the balance before any day, so it moves
      neither end of a statement; putting it in any other status takes its amount off from its date on. */
  lemma InvoiceStatusInvisible(t: Tables, i: nat, status: Status, party: int, before: int)
    requires i < |t.invoices| && t.invoices[i].status in {Issued, PartiallyPaid, Paid, Credited}
    ensures var d := t.invoices[i];
      var changed := t.(invoices := t.invoices[i := d.(status := status)]);
      var counted := status in {Issued, PartiallyPaid, Paid, Credited};
      Opening(changed, party, before)
      == Opening(t, party, before) - if counted || d.party != party || d.date >= before then 0 else d.amount
  {
    var d := t.invoices[i];
    var changed := t.(invoices := t.invoices[i := d.(status := status)]);
    OpeningIsOwed(t, party, before);
    OpeningIsOwed(changed, party, before);
    SumUpdate(t.invoices, i, d.(status := status), AmountIf({Issued, PartiallyPaid, Paid, Credited}, party, before));
  }

  lemma NewInvoice(t: Tables, d: Doc, party: int, before: int)
    requires d.status in {Issued, PartiallyPaid, Paid, Credited}
    ensures Opening(t.(invoices := t.invoices + [d]), party, before)
         == Opening(t, party, before) + if d.party == party && d.date < before then d.amount else 0
  {
    OpeningIsOwed(t, party, before);
    OpeningIsOwed(t.(invoices := t.invoices + [d]), party, before);
    SumSnoc(t.invoices, d, AmountIf({Issued, PartiallyPaid, Paid, Credited}, party, before));
  }

  /** A statement of the same period before and after such an invoice: paid or not, it adds its amount once. */
  lemma InvoiceCounts(t: Tables, d: Doc, a: int, b: int, s: Statement, after: Statement)
    requires d.status in {Issued, PartiallyPaid, Paid, Credited} && a <= d.date <= b
    requires IsStatement(t, d.party, a, b, s)
    requires IsStatement(t.(invoices := t.invoices + [d]), d.party, a, b, after)
    ensures after.opening == s.opening && after.closing == s.closing + d.amount
  {
    hide IsStatement, Opening, Sum;
    var more := t.(invoices := t.invoices + [d]);
    StatementOpens(t, d.party, a, b, s);
    StatementOpens(more, d.party, a, b, after);
    StatementChains(t, d.party, a, b, s);
    StatementChains(more, d.party, a, b, after);
    NewInvoice(t, d, d.party, a);
    NewInvoice(t, d, d.party, b + 1);
  }
}
