/** Stored invoice totals, rewritten by the hooks after each line save and delete. */
module DraftInvoice {
  import opened Results
  import opened Sums

  datatype Status = Draft | Approved | Issued | PartiallyPaid | Paid | Cancelled | Credited

  datatype Invoice = Invoice(status: Status, subtotal: int, discountTotal: int, taxTotal: int, grandTotal: int)

  datatype Line = Line(id: int, invoice: int, sequence: int, quantity: int, unitPrice: int,
                       subtotal: int, discount: int, tax: int)

  datatype State = State(invoices: map<int, Invoice>, lines: seq<Line>)

  datatype StoreError = AlreadyPosted | InvoiceMissing | CheckViolated | DuplicateSequence | LineMissing | NegativeTotal

  // ----- queries ---------------------------------------------------------------

  function SubtotalOn(inv: int): Line -> int { (l: Line) => if l.invoice == inv then l.subtotal else 0 }

  function DiscountOn(inv: int): Line -> int { (l: Line) => if l.invoice == inv then l.discount else 0 }

  function TaxOn(inv: int): Line -> int { (l: Line) => if l.invoice == inv then l.tax else 0 }

  /** The totals that the lines of an invoice call for. */
  function Totalled(lines: seq<Line>, inv: int, status: Status): (t: Invoice)
    ensures t.status == status
  {
    var sub, disc, tax := Sum(lines, SubtotalOn(inv)), Sum(lines, DiscountOn(inv)), Sum(lines, TaxOn(inv));
    Invoice(status, sub, disc, tax, sub + tax)
  }

  /** The stored totals of an invoice are those its current lines call for. */
  predicate Agrees(s: State, inv: int) {
    inv in s.invoices ==> s.invoices[inv] == Totalled(s.lines, inv, s.invoices[inv].status)
  }

  ghost predicate DraftsAgree(s: State) {
    forall inv :: inv in s.invoices && s.invoices[inv].status == Draft ==> Agrees(s, inv)
  }

  /** The position of a line id, or |lines|. */
  function IndexOf(lines: seq<Line>, id: int): (i: nat)
    ensures i <= |lines|
    ensures i < |lines| ==> lines[i].id == id
    ensures i == |lines| ==> forall l :: l in lines ==> l.id != id
  {
    if lines == [] || lines[0].id == id then 0 else 1 + IndexOf(lines[1..], id)
  }

  function Put(lines: seq<Line>, row: Line): seq<Line> {
    var i := IndexOf(lines, row.id);
    if i < |lines| then lines[i := row] else lines + [row]
  }

  function Removed(lines: seq<Line>, i: nat): seq<Line>
    requires i < |lines|
  {
    lines[..i] + lines[i + 1..]
  }

  // ----- operations as functions -------------------------------------------------

  /** `_recalculate_invoice`: rewrite a draft's totals; the database refuses a negative grand total. */
  function Recalculate(s: State, inv: int): (State, Option<StoreError>) {
    if inv !in s.invoices || s.invoices[inv].status != Draft then (s, None)
    else
      var t := Totalled(s.lines, inv, Draft);
      if t.grandTotal < 0 then (s, Some(NegativeTotal)) else (s.(invoices := s.invoices[inv := t]), None)
  }

  predicate SequenceTaken(lines: seq<Line>, row: Line) {
    exists l :: l in lines && l.id != row.id && l.invoice == row.invoice && l.sequence == row.sequence
  }

  /** The check constraints of the line table. */
  predicate RowAllowed(row: Line) { row.quantity > 0 && row.unitPrice >= 0 && row.discount >= 0 }

  /** SalesInvoiceLine.save and its post_save hook, which runs once the row is written. */
  function SaveStep(s: State, row: Line): (State, Option<StoreError>) {
    if row.invoice !in s.invoices then (s, Some(InvoiceMissing))
    else if s.invoices[row.invoice].status != Draft then (s, Some(AlreadyPosted))
    else if !RowAllowed(row) then (s, Some(CheckViolated))
    else if SequenceTaken(s.lines, row) then (s, Some(DuplicateSequence))
    else Recalculate(s.(lines := Put(s.lines, row)), row.invoice)
  }

  /** Deleting a line and its post_delete hook, in one transaction; no status is checked. */
  function DeleteStep(s: State, id: int): (State, Option<StoreError>) {
    var i := IndexOf(s.lines, id);
    if i == |s.lines| then (s, Some(LineMissing))
    else
      var (after, error) := Recalculate(s.(lines := Removed(s.lines, i)), s.lines[i].invoice);
      (if error.Some? then s else after, error)
  }

  // ----- what a caller sees ------------------------------------------------------

  /** A save that went through: the row is stored, its invoice agrees, other rows and invoices are as before. */
  ghost predicate Saved(before: State, after: State, row: Line) {
    && row in after.lines && Agrees(after, row.invoice)
    && (forall l: Line :: l.id != row.id ==> (l in after.lines <==> l in before.lines))
    && after.invoices.Keys == before.invoices.Keys
    && (forall inv :: inv in before.invoices && inv != row.invoice ==> after.invoices[inv] == before.invoices[inv])
  }

  /** A delete that went through: one row less, and its invoice agrees if it is a draft. */
  ghost predicate Deleted(before: State, after: State, held: Line) {
    && multiset(after.lines) == multiset(before.lines) - multiset{held}
    && (forall inv :: inv in before.invoices && inv != held.invoice ==>
          inv in after.invoices && after.invoices[inv] == before.invoices[inv])
    && (held.invoice in before.invoices && before.invoices[held.invoice].status == Draft
        ==> Agrees(after, held.invoice))
  }

  lemma PutKeeps(lines: seq<Line>, row: Line)
    ensures row in Put(lines, row) && forall l: Line :: l.id != row.id ==> (l in Put(lines, row) <==> l in lines)
  {
    var i, put := IndexOf(lines, row.id), Put(lines, row);
    assert put[i] == row;
    forall l | l in lines && l.id != row.id
      ensures l in put
    {
      var j :| 0 <= j < |lines| && lines[j] == l;
      assert put[j] == l;
    }
  }

  /** A save goes through exactly on a draft, with a row the table allows, a free sequence number and a
      total that stays non-negative. */
  lemma AcceptedSave(s: State, row: Line)
    ensures var (after, error) := SaveStep(s, row);
      && (error.None? <==> row.invoice in s.invoices && s.invoices[row.invoice].status == Draft
                           && row.quantity >= 1 && row.unitPrice >= 0 && row.discount >= 0
                           && (forall l :: l in s.lines && l.invoice == row.invoice && l.sequence == row.sequence ==>
                                 l.id == row.id)
                           && Totalled(Put(s.lines, row), row.invoice, Draft).grandTotal >= 0)
      && (error.None? ==> Saved(s, after, row))
  {
    PutKeeps(s.lines, row);
  }

  lemma AcceptedDelete(s: State, id: int)
    ensures var (after, error) := DeleteStep(s, id);
      error.None? ==> exists held :: held in s.lines && held.id == id && Deleted(s, after, held)
  {
    hide Totalled, Recalculate, Removed, Agrees;
    var i := IndexOf(s.lines, id);
    if i < |s.lines| {
      RemovedRows(s.lines, i);
      RecalculatedIs(s.(lines := Removed(s.lines, i)), s.lines[i].invoice);
      assert s.lines[i] in s.lines;
      assert DeleteStep(s, id).1.None? ==> Deleted(s, DeleteStep(s, id).0, s.lines[i]);
    }
  }

  /** A recalculation that goes through keeps lines and other invoices, and leaves a draft in agreement. */
  lemma RecalculatedIs(s: State, inv: int)
    ensures var (after, error) := Recalculate(s, inv);
      error.None? ==>
        && after.lines == s.lines
        && (forall other :: other in s.invoices && other != inv ==>
              other in after.invoices && after.invoices[other] == s.invoices[other])
        && (inv in s.invoices && s.invoices[inv].status == Draft ==> Agrees(after, inv))
  {
    hide Totalled;
  }

  lemma RemovedRows(lines: seq<Line>, i: nat)
    requires i < |lines|
    ensures multiset(Removed(lines, i)) == multiset(lines) - multiset{lines[i]}
  {
    assert lines == lines[..i] + [lines[i]] + lines[i + 1..];
  }

  // ----- the stored tables -------------------------------------------------------

  class InvoiceStore {
    var invoices: map<int, Invoice>
    var lines: seq<Line>

    constructor (invoices: map<int, Invoice>, lines: seq<Line>)
      ensures Current() == State(invoices, lines)
    {
      this.invoices, this.lines := invoices, lines;
    }

    function Current(): State
      reads this
    {
      State(invoices, lines)
    }

    /** SalesInvoice.recalculate_totals: three aggregates over the invoice's lines. */
    method RecalculateTotals(inv: int) returns (error: Option<StoreError>)
      requires inv in invoices && invoices[inv].status == Draft
      modifies this`invoices
      ensures Current() == Recalculate(old(Current()), inv).0 && error == Recalculate(old(Current()), inv).1
      ensures error.None? ==> Agrees(Current(), inv)
    {
      var sub, disc, tax := 0, 0, 0;
      for i := 0 to |lines|
        invariant invoices == old(invoices)
        invariant sub == Sum(lines[..i], SubtotalOn(inv)) && disc == Sum(lines[..i], DiscountOn(inv))
                  && tax == Sum(lines[..i], TaxOn(inv))
      {
        SumTake(lines, i, SubtotalOn(inv));
        SumTake(lines, i, DiscountOn(inv));
        SumTake(lines, i, TaxOn(inv));
        if lines[i].invoice == inv {
          sub, disc, tax := sub + lines[i].subtotal, disc + lines[i].discount, tax + lines[i].tax;
        }
      }
      assert lines[..|lines|] == lines;
      assert Totalled(lines, inv, Draft) == Invoice(Draft, sub, disc, tax, sub + tax);
      if sub + tax < 0 {
        return Some(NegativeTotal);
      }
      invoices := invoices[inv := Invoice(Draft, sub, disc, tax, sub + tax)];
      error := None;
    }

    method SaveLine(row: Line) returns (error: Option<StoreError>)
      modifies this
      ensures Current() == SaveStep(old(Current()), row).0 && error == SaveStep(old(Current()), row).1
      ensures error.None? ==> Saved(old(Current()), Current(), row)
      ensures error == Some(NegativeTotal) ==> row in lines && invoices == old(invoices)
      ensures error.Some? && error != Some(NegativeTotal) ==> Current() == old(Current())
    {
      AcceptedSave(Current(), row);
      PutKeeps(lines, row);
      if row.invoice !in invoices {
        return Some(InvoiceMissing);
      }
      if invoices[row.invoice].status != Draft {
        return Some(AlreadyPosted);
      }
      if !RowAllowed(row) {
        return Some(CheckViolated);
      }
      if SequenceTaken(lines, row) {
        return Some(DuplicateSequence);
      }
      lines := Put(lines, row);
      error := RecalculateTotals(row.invoice);
    }

    method DeleteLine(id: int) returns (error: Option<StoreError>)
      modifies this
      ensures Current() == DeleteStep(old(Current()), id).0 && error == DeleteStep(old(Current()), id).1
      ensures error.None? ==> exists held ::
                held in old(lines) && held.id == id && Deleted(old(Current()), Current(), held)
      ensures error.Some? ==> Current() == old(Current())
    {
      AcceptedDelete(Current(), id);
      var i := IndexOf(lines, id);
      if i == |lines| {
        return Some(LineMissing);
      }
      var inv, savepoint := lines[i].invoice, lines;
      lines := Removed(lines, i);
      if inv in invoices && invoices[inv].status == Draft {
        error := RecalculateTotals(inv);
        if error.Some? {
          lines := savepoint;
        }
      } else {
        error := None;
      }
    }
  }

  // ----- what one line contributes -------------------------------------------------

  /** Replacing or adding a line changes an invoice's sums by what the line brings less what it held there. */
  lemma PutSums(lines: seq<Line>, row: Line, inv: int)
    ensures var i := IndexOf(lines, row.id);
      var held := if i < |lines| then lines[i] else row.(invoice := inv + 1);
      && Sum(Put(lines, row), SubtotalOn(inv)) == Sum(lines, SubtotalOn(inv)) - SubtotalOn(inv)(held)
         + SubtotalOn(inv)(row)
      && Sum(Put(lines, row), DiscountOn(inv)) == Sum(lines, DiscountOn(inv)) - DiscountOn(inv)(held)
         + DiscountOn(inv)(row)
      && Sum(Put(lines, row), TaxOn(inv)) == Sum(lines, TaxOn(inv)) - TaxOn(inv)(held) + TaxOn(inv)(row)
  {
    var i := IndexOf(lines, row.id);
    if i < |lines| {
      SumUpdate(lines, i, row, SubtotalOn(inv));
      SumUpdate(lines, i, row, DiscountOn(inv));
      SumUpdate(lines, i, row, TaxOn(inv));
    } else {
      SumSnoc(lines, row, SubtotalOn(inv));
      SumSnoc(lines, row, DiscountOn(inv));
      SumSnoc(lines, row, TaxOn(inv));
    }
  }

  lemma RemovedSum(lines: seq<Line>, i: nat, f: Line -> int)
    requires i < |lines|
    ensures Sum(Removed(lines, i), f) == Sum(lines, f) - f(lines[i])
  {
    hide Sum;
    var before, after := lines[..i], lines[i + 1..];
    assert lines == before + [lines[i]] + after;
    SumConcat(before + [lines[i]], after, f);
    SumSnoc(before, lines[i], f);
    SumConcat(before, after, f);
  }

  // ----- runs ----------------------------------------------------------------------

  datatype Op = Save(row: Line) | Delete(id: int)

  function StepOf(s: State, op: Op): (State, Option<StoreError>) {
    match op
    case Save(row) => SaveStep(s, row)
    case Delete(id) => DeleteStep(s, id)
  }

  /** A save that keeps the line on the invoice it is already on. */
  predicate Stays(s: State, op: Op) {
    op.Save? ==> var i := IndexOf(s.lines, op.row.id); i < |s.lines| ==> s.lines[i].invoice == op.row.invoice
  }

  /** A save that leaves its invoice's lines with a non-negative total. */
  predicate Fits(s: State, op: Op) {
    op.Save? ==> Totalled(Put(s.lines, op.row), op.row.invoice, Draft).grandTotal >= 0
  }

  lemma StepKeepsDrafts(s: State, op: Op)
    requires DraftsAgree(s) && Stays(s, op) && Fits(s, op)
    ensures DraftsAgree(StepOf(s, op).0)
  {
    var after := StepOf(s, op).0;
    var i := IndexOf(s.lines, if op.Save? then op.row.id else op.id);
    forall inv | inv in after.invoices && after.invoices[inv].status == Draft
      ensures Agrees(after, inv)
    {
      assert Agrees(s, inv);
      if op.Save? {
        PutSums(s.lines, op.row, inv);
      } else if i < |s.lines| {
        RemovedSum(s.lines, i, SubtotalOn(inv));
        RemovedSum(s.lines, i, DiscountOn(inv));
        RemovedSum(s.lines, i, TaxOn(inv));
      }
    }
  }

  function Run(s: State, ops: seq<Op>): State {
    if ops == [] then s else StepOf(Run(s, ops[..|ops| - 1]), ops[|ops| - 1]).0
  }

  /** No step moves a line to another invoice. */
  ghost predicate LinesStay(s: State, ops: seq<Op>) {
    ops == [] || (LinesStay(s, ops[..|ops| - 1]) && Stays(Run(s, ops[..|ops| - 1]), ops[|ops| - 1]))
  }

  ghost predicate SavesFit(s: State, ops: seq<Op>) {
    ops == [] || (SavesFit(s, ops[..|ops| - 1]) && Fits(Run(s, ops[..|ops| - 1]), ops[|ops| - 1]))
  }

  /** Over every run whose lines stay and whose saves fit, drafts' stored totals are the sums over their lines. */
  lemma {:induction false} RunKeepsDrafts(s: State, ops: seq<Op>)
    requires DraftsAgree(s) && LinesStay(s, ops) && SavesFit(s, ops)
    ensures DraftsAgree(Run(s, ops))
  {
    hide StepOf, Stays, Fits, DraftsAgree;
    if ops != [] {
      RunKeepsDrafts(s, ops[..|ops| - 1]);
      StepKeepsDrafts(Run(s, ops[..|ops| - 1]), ops[|ops| - 1]);
    }
  }

  predicate NonNegativeLine(l: Line) { l.subtotal >= 0 && l.tax >= 0 }

  predicate NonNegative(lines: seq<Line>) {
    forall l :: l in lines ==> NonNegativeLine(l)
  }

  lemma NonNegativeStep(s: State, op: Op)
    requires NonNegative(s.lines) && (op.Save? ==> NonNegativeLine(op.row))
    ensures Fits(s, op) && NonNegative(StepOf(s, op).0.lines)
  {
    if op.Save? {
      assert forall l :: l in Put(s.lines, op.row) ==> l in s.lines || l == op.row;
      assert NonNegative(Put(s.lines, op.row));
      SumNonNegative(Put(s.lines, op.row), SubtotalOn(op.row.invoice));
      SumNonNegative(Put(s.lines, op.row), TaxOn(op.row.invoice));
    }
  }

  lemma {:induction false} NonNegativeRun(s: State, ops: seq<Op>)
    requires NonNegative(s.lines) && forall op :: op in ops && op.Save? ==> NonNegativeLine(op.row)
    ensures SavesFit(s, ops) && NonNegative(Run(s, ops).lines)
  {
    hide StepOf, Fits, NonNegative;
    if ops != [] {
      NonNegativeRun(s, ops[..|ops| - 1]);
      NonNegativeStep(Run(s, ops[..|ops| - 1]), ops[|ops| - 1]);
    }
  }

  /** In particular when every line, stored or saved, has a non-negative subtotal and tax. */
  lemma NonNegativeRunKeepsDrafts(s: State, ops: seq<Op>)
    requires DraftsAgree(s) && LinesStay(s, ops)
    requires NonNegative(s.lines) && forall op :: op in ops && op.Save? ==> NonNegativeLine(op.row)
    ensures DraftsAgree(Run(s, ops))
  {
    NonNegativeRun(s, ops);
    RunKeepsDrafts(s, ops);
  }

  // ----- where the stored totals go stale --------------------------------------------

  /** A row written on a draft whose stored total is non-negative leaves the draft in agreement exactly when it
      fits; when it does not, the hook fails with the row already stored and the totals as they were. */
  lemma WrittenSaveAgreesIff(s: State, row: Line)
    requires row.invoice in s.invoices && s.invoices[row.invoice].status == Draft
             && s.invoices[row.invoice].grandTotal >= 0
    requires RowAllowed(row) && !SequenceTaken(s.lines, row)
    ensures var (after, error) := SaveStep(s, row);
      && row in after.lines
      && (Agrees(after, row.invoice) <==> Fits(s, Save(row)))
      && (!Fits(s, Save(row)) ==> error == Some(NegativeTotal) && after.invoices == s.invoices)
  {
    PutKeeps(s.lines, row);
  }

  /** Moving a line away leaves the invoice it left in agreement exactly when the line was worth nothing. */
  lemma MovedLineLeavesStale(s: State, row: Line)
    requires var i := IndexOf(s.lines, row.id);
      i < |s.lines| && s.lines[i].invoice in s.invoices && s.lines[i].invoice != row.invoice
    requires Agrees(s, s.lines[IndexOf(s.lines, row.id)].invoice) && SaveStep(s, row).1.None?
    ensures var held := s.lines[IndexOf(s.lines, row.id)];
      Agrees(SaveStep(s, row).0, held.invoice) <==> held.subtotal == 0 && held.discount == 0 && held.tax == 0
  {
    var held := s.lines[IndexOf(s.lines, row.id)];
    PutSums(s.lines, row, held.invoice);
  }

  /** Deleting a line of an invoice that is no longer a draft goes through without touching the totals,
      which then agree with the lines exactly when the line was worth nothing. */
  lemma DeleteFromPostedLeavesStale(s: State, id: int)
    requires var i := IndexOf(s.lines, id);
      i < |s.lines| && s.lines[i].invoice in s.invoices && s.invoices[s.lines[i].invoice].status != Draft
    requires Agrees(s, s.lines[IndexOf(s.lines, id)].invoice)
    ensures var held, (after, error) := s.lines[IndexOf(s.lines, id)], DeleteStep(s, id);
      && error.None? && after.invoices == s.invoices
      && (Agrees(after, held.invoice) <==> held.subtotal == 0 && held.discount == 0 && held.tax == 0)
  {
    var i := IndexOf(s.lines, id);
    RemovedSum(s.lines, i, SubtotalOn(s.lines[i].invoice));
    RemovedSum(s.lines, i, DiscountOn(s.lines[i].invoice));
    RemovedSum(s.lines, i, TaxOn(s.lines[i].invoice));
  }

  function Priced(id: int, invoice: int, subtotal: int): Line { Line(id, invoice, id, 10000, 0, subtotal, 0, 0) }

  lemma OneLine(l: Line, inv: int, status: Status)
    ensures Totalled([l], inv, status)
         == if l.invoice == inv then Invoice(status, l.subtotal, l.discount, l.tax, l.subtotal + l.tax)
            else Invoice(status, 0, 0, 0, 0)
  {
    SumOne(l, SubtotalOn(inv));
    SumOne(l, DiscountOn(inv));
    SumOne(l, TaxOn(inv));
  }

  /** A line worth 5 moved from draft 1 to draft 2 leaves draft 1 showing 5 with no line. */
  lemma MovedLineExample()
    ensures var s := State(map[1 := Invoice(Draft, 5, 0, 0, 5), 2 := Invoice(Draft, 0, 0, 0, 0)], [Priced(1, 1, 5)]);
      && DraftsAgree(s) && SaveStep(s, Priced(1, 2, 5)).1.None?
      && !Agrees(SaveStep(s, Priced(1, 2, 5)).0, 1)
  {
    var s := State(map[1 := Invoice(Draft, 5, 0, 0, 5), 2 := Invoice(Draft, 0, 0, 0, 0)], [Priced(1, 1, 5)]);
    OneLine(Priced(1, 1, 5), 1, Draft);
    OneLine(Priced(1, 1, 5), 2, Draft);
    OneLine(Priced(1, 2, 5), 2, Draft);
    assert Put(s.lines, Priced(1, 2, 5)) == [Priced(1, 2, 5)];
    MovedLineLeavesStale(s, Priced(1, 2, 5));
  }

  /** The only line of an issued invoice of 5 deleted: the invoice still shows 5. */
  lemma DeletedLineExample()
    ensures var s := State(map[1 := Invoice(Issued, 5, 0, 0, 5)], [Priced(1, 1, 5)]);
      && Agrees(s, 1) && DeleteStep(s, 1).1.None? && !Agrees(DeleteStep(s, 1).0, 1)
  {
    OneLine(Priced(1, 1, 5), 1, Issued);
    DeleteFromPostedLeavesStale(State(map[1 := Invoice(Issued, 5, 0, 0, 5)], [Priced(1, 1, 5)]), 1);
  }

  /** A line of -5 saved on an empty draft is stored although the save fails, and the draft still shows 0. */
  lemma RefusedSaveExample()
    ensures var s := State(map[1 := Invoice(Draft, 0, 0, 0, 0)], []);
      && DraftsAgree(s) && SaveStep(s, Priced(1, 1, -5)).1 == Some(NegativeTotal)
      && !Agrees(SaveStep(s, Priced(1, 1, -5)).0, 1)
  {
    var s := State(map[1 := Invoice(Draft, 0, 0, 0, 0)], []);
    OneLine(Priced(1, 1, -5), 1, Draft);
    assert Put(s.lines, Priced(1, 1, -5)) == [Priced(1, 1, -5)];
    WrittenSaveAgreesIff(s, Priced(1, 1, -5));
  }
}
