/** Cashbox and bank-account ledgers. */
module Treasury {
  import opened Digits
  import opened Results
  import opened Running
  import opened Sorting
  import opened Sums

  datatype TxnType = Inflow | Outflow | Adjustment

  datatype Txn = Txn(id: nat, owner: int, date: int, posted: bool, kind: TxnType, amount: int)

  /** A customer receipt or vendor payment, booked against a GL account. */
  datatype Settlement = Settlement(id: nat, glAccount: int, date: int, posted: bool, amount: int)

  datatype Ledger<T> = Ledger(opening: int, rows: seq<Ran<T>>, closing: int)

  function TxnEffect(): Txn -> int {
    (t: Txn) => if t.kind == Inflow then t.amount else -t.amount
  }

  function PostedTxn(owner: int): Txn -> bool { (t: Txn) => t.owner == owner && t.posted }

  function TxnDate(): Txn -> int { (t: Txn) => t.date }

  function PostedSettlement(gl: int): Settlement -> bool { (s: Settlement) => s.glAccount == gl && s.posted }

  function SettlementDate(): Settlement -> int { (s: Settlement) => s.date }

  function SettlementEffect(sign: int): Settlement -> int { (s: Settlement) => sign * s.amount }

  predicate TxnOrder(x: Txn, y: Txn) { x.date < y.date || (x.date == y.date && x.id <= y.id) }

  // ----- cashbox -----------------------------------------------------------------

  function TypeBefore(owner: int, kinds: set<TxnType>, d: int): Txn -> int {
    (t: Txn) => if t.owner == owner && t.posted && t.date < d && t.kind in kinds then t.amount else 0
  }

  /** The balance of a cashbox from its posted transactions dated before d. */
  function CashboxBalance(txns: seq<Txn>, box: int, start: int, d: int): int {
    start + Sum(txns, Before(PostedTxn(box), TxnDate(), TxnEffect(), d))
  }

  /** The inflow and outflow aggregates net to the signed sum. */
  lemma InflowsLessOutflows(txns: seq<Txn>, owner: int, d: int)
    ensures Sum(txns, TypeBefore(owner, {Inflow}, d)) - Sum(txns, TypeBefore(owner, {Outflow, Adjustment}, d))
         == Sum(txns, Before(PostedTxn(owner), TxnDate(), TxnEffect(), d))
  {
    SumAdd(txns, TypeBefore(owner, {Inflow}, d), Before(PostedTxn(owner), TxnDate(), TxnEffect(), d),
           TypeBefore(owner, {Outflow, Adjustment}, d));
  }

  /** By date, and by id on the same date. */
  ghost predicate InOrder(items: seq<Txn>) {
    forall i, j :: 0 <= i < j < |items| ==>
      items[i].date < items[j].date || (items[i].date == items[j].date && items[i].id <= items[j].id)
  }

  /** The period's posted transactions in order with running balance, between the balances before and after it. */
  ghost predicate IsCashboxLedger(txns: seq<Txn>, box: int, start: int, a: int, b: int, l: Ledger<Txn>) {
    && l.opening == CashboxBalance(txns, box, start, a)
    && (a <= b + 1 ==> l.closing == CashboxBalance(txns, box, start, b + 1))
    && exists items ::
         && multiset(items) == multiset(Filter(txns, During(PostedTxn(box), TxnDate(), a, b)))
         && InOrder(items)
         && RunsFrom(l.opening, items, TxnEffect(), l.rows)
         && l.closing == l.opening + Sum(items, TxnEffect())
  }

  datatype TreasuryError = CashboxMissing | BankAccountMissing

  /** cashbox_ledger; `boxes` holds each cashbox's opening balance. */
  method CashboxLedger(boxes: map<int, int>, txns: seq<Txn>, box: int, a: int, b: int)
    returns (r: Result<Ledger<Txn>, TreasuryError>)
    ensures r.Ok? <==> box in boxes
    ensures r.Ok? ==> IsCashboxLedger(txns, box, boxes[box], a, b, r.value)
  {
    if box !in boxes {
      return Err(CashboxMissing);
    }
    hide Sort, Filter, Sum, RunsFrom, IsCashboxLedger;
    var start := boxes[box];
    var inflows := Sum(txns, TypeBefore(box, {Inflow}, a));
    var outflows := Sum(txns, TypeBefore(box, {Outflow, Adjustment}, a));
    var opening := start + inflows - outflows;
    InflowsLessOutflows(txns, box, a);
    var items := Sort(Filter(txns, During(PostedTxn(box), TxnDate(), a, b)), TxnOrder);
    var rows, closing := Accumulate(opening, items, TxnEffect());
    SortedIsLedger(txns, box, start, a, b, items, Ledger(opening, rows, closing));
    r := Ok(Ledger(opening, rows, closing));
  }

  lemma TxnOrderTotal()
    ensures TotalPreorder(TxnOrder)
  {
  }

  /** The period's transactions, sorted and accumulated, make the ledger. */
  lemma SortedIsLedger(txns: seq<Txn>, box: int, start: int, a: int, b: int, items: seq<Txn>, l: Ledger<Txn>)
    requires items == Sort(Filter(txns, During(PostedTxn(box), TxnDate(), a, b)), TxnOrder)
    requires l.opening == CashboxBalance(txns, box, start, a)
    requires RunsFrom(l.opening, items, TxnEffect(), l.rows) && l.closing == l.opening + Sum(items, TxnEffect())
    ensures IsCashboxLedger(txns, box, start, a, b, l)
  {
    hide Sort, Filter, Sum, RunsFrom, PostedTxn, TxnDate, TxnEffect;
    var chosen := Filter(txns, During(PostedTxn(box), TxnDate(), a, b));
    TxnOrderTotal();
    SortPermutes(chosen, TxnOrder);
    SortSorts(chosen, TxnOrder);
    SumPermutation(items, chosen, TxnEffect());
    if a <= b + 1 {
      PeriodMoves(txns, PostedTxn(box), TxnDate(), TxnEffect(), a, b);
    }
  }

  /** The amounts of an owner's posted transactions dated before d, inflows or everything else. */
  function Posted(txns: seq<Txn>, owner: int, inflow: bool, d: int): int {
    Sum(txns, PostedIf(owner, inflow, d))
  }

  function PostedIf(owner: int, inflow: bool, d: int): Txn -> int {
    (t: Txn) => if t.posted && t.owner == owner && t.date < d && (t.kind == Inflow) == inflow then t.amount else 0
  }

  lemma PostedNets(txns: seq<Txn>, owner: int, d: int)
    ensures Sum(txns, Before(PostedTxn(owner), TxnDate(), TxnEffect(), d))
         == Posted(txns, owner, true, d) - Posted(txns, owner, false, d)
  {
    SumAdd(txns, PostedIf(owner, true, d), Before(PostedTxn(owner), TxnDate(), TxnEffect(), d),
           PostedIf(owner, false, d));
  }

  /** A cashbox ledger opens and closes at the opening balance plus posted inflows less posted outflows and
      adjustments, before its first day and up to its last. */
  lemma CashboxFromTxns(txns: seq<Txn>, box: int, start: int, a: int, b: int, l: Ledger<Txn>)
    requires IsCashboxLedger(txns, box, start, a, b, l) && a <= b + 1
    ensures l.opening == start + Posted(txns, box, true, a) - Posted(txns, box, false, a)
    ensures l.closing == start + Posted(txns, box, true, b + 1) - Posted(txns, box, false, b + 1)
  {
    PostedNets(txns, box, a);
    PostedNets(txns, box, b + 1);
    hide Posted, Sum;
  }

  // ----- bank account --------------------------------------------------------------

  datatype Movement = Movement(date: int, tag: string, inflow: int, outflow: int)

  function Delta(): Movement -> int { (m: Movement) => m.inflow - m.outflow }

  function TxnMovement(): Txn -> Movement {
    (t: Txn) => Movement(t.date, "TXN-" + Padded(t.id, 12), if t.kind == Inflow then t.amount else 0,
                         if t.kind != Inflow then t.amount else 0)
  }

  function ReceiptMovement(): Settlement -> Movement {
    (s: Settlement) => Movement(s.date, "RCP-" + Padded(s.id, 12), s.amount, 0)
  }

  function PaymentMovement(): Settlement -> Movement {
    (s: Settlement) => Movement(s.date, "VPAY-" + Padded(s.id, 12), 0, s.amount)
  }

  /** sort(key=lambda x: (x[0], x[1])): by date, then by tag as strings compare. */
  predicate MovementOrder(x: Movement, y: Movement) { x.date < y.date || (x.date == y.date && StringLe(x.tag, y.tag)) }

  lemma MovementOrderTotal()
    ensures TotalPreorder(MovementOrder)
  {
    StringLeOrder();
    hide StringLe;
  }

  function Mapped<T>(rows: seq<T>, f: T -> Movement): seq<Movement> {
    if rows == [] then [] else Mapped(rows[..|rows| - 1], f) + [f(rows[|rows| - 1])]
  }

  lemma {:induction false} MappedAt<T>(rows: seq<T>, f: T -> Movement)
    ensures |Mapped(rows, f)| == |rows| && forall i :: 0 <= i < |rows| ==> Mapped(rows, f)[i] == f(rows[i])
  {
    if rows != [] {
      MappedAt(rows[..|rows| - 1], f);
    }
  }

  /** One table's loop over its query. */
  method Collect<T>(rows: seq<T>, f: T -> Movement) returns (out: seq<Movement>)
    ensures out == Mapped(rows, f)
  {
    out := [];
    for i := 0 to |rows|
      invariant out == Mapped(rows[..i], f)
    {
      assert rows[..i + 1][..i] == rows[..i];
      out := out + [f(rows[i])];
    }
    assert rows[..|rows|] == rows;
  }

  lemma MappedSum<T>(rows: seq<T>, f: T -> Movement, effect: T -> int)
    requires forall x :: x in rows ==> f(x).inflow - f(x).outflow == effect(x)
    ensures Sum(Mapped(rows, f), Delta()) == Sum(rows, effect)
  {
    MappedAt(rows, f);
    SumVia(rows, Mapped(rows, f), effect, Delta());
  }

  datatype Tables = Tables(txns: seq<Txn>, receipts: seq<Settlement>, payments: seq<Settlement>)

  datatype Bank = Bank(id: int, glAccount: int, opening: int)

  /** A bank account's balance from everything posted to it before d. */
  function BankBalance(t: Tables, bank: Bank, d: int): int {
    bank.opening
    + Sum(t.txns, Before(PostedTxn(bank.id), TxnDate(), TxnEffect(), d))
    + Sum(t.receipts, Before(PostedSettlement(bank.glAccount), SettlementDate(), SettlementEffect(1), d))
    + Sum(t.payments, Before(PostedSettlement(bank.glAccount), SettlementDate(), SettlementEffect(-1), d))
  }

  /** The period's movements of all three tables. */
  function BankMovements(t: Tables, bank: Bank, a: int, b: int): seq<Movement> {
    Mapped(Filter(t.txns, During(PostedTxn(bank.id), TxnDate(), a, b)), TxnMovement())
    + Mapped(Filter(t.receipts, During(PostedSettlement(bank.glAccount), SettlementDate(), a, b)), ReceiptMovement())
    + Mapped(Filter(t.payments, During(PostedSettlement(bank.glAccount), SettlementDate(), a, b)), PaymentMovement())
  }

  lemma BankMovementsMove(t: Tables, bank: Bank, a: int, b: int)
    requires a <= b + 1
    ensures Sum(BankMovements(t, bank, a, b), Delta()) == BankBalance(t, bank, b + 1) - BankBalance(t, bank, a)
  {
    hide Mapped, Filter, Padded;
    var x := Filter(t.txns, During(PostedTxn(bank.id), TxnDate(), a, b));
    var y := Filter(t.receipts, During(PostedSettlement(bank.glAccount), SettlementDate(), a, b));
    var z := Filter(t.payments, During(PostedSettlement(bank.glAccount), SettlementDate(), a, b));
    SumConcat(Mapped(x, TxnMovement()) + Mapped(y, ReceiptMovement()), Mapped(z, PaymentMovement()), Delta());
    SumConcat(Mapped(x, TxnMovement()), Mapped(y, ReceiptMovement()), Delta());
    MappedSum(x, TxnMovement(), TxnEffect());
    MappedSum(y, ReceiptMovement(), SettlementEffect(1));
    MappedSum(z, PaymentMovement(), SettlementEffect(-1));
    PeriodMoves(t.txns, PostedTxn(bank.id), TxnDate(), TxnEffect(), a, b);
    PeriodMoves(t.receipts, PostedSettlement(bank.glAccount), SettlementDate(), SettlementEffect(1), a, b);
    PeriodMoves(t.payments, PostedSettlement(bank.glAccount), SettlementDate(), SettlementEffect(-1), a, b);
  }

  function SettledBefore(gl: int, d: int): Settlement -> int {
    (s: Settlement) => if s.glAccount == gl && s.posted && s.date < d then s.amount else 0
  }

  lemma {:induction false} SettledSigned(rows: seq<Settlement>, gl: int, d: int, sign: int)
    requires sign == 1 || sign == -1
    ensures Sum(rows, Before(PostedSettlement(gl), SettlementDate(), SettlementEffect(sign), d))
            == sign * Sum(rows, SettledBefore(gl, d))
  {
    if rows != [] {
      SettledSigned(rows[1..], gl, d, sign);
    }
  }

  /** By date, and by tag on the same date. */
  ghost predicate Merged(items: seq<Movement>) {
    forall i, j :: 0 <= i < j < |items| ==>
      items[i].date < items[j].date || (items[i].date == items[j].date && StringLe(items[i].tag, items[j].tag))
  }

  /** The period's movements by date and tag with running balance, between the balances before and after it. */
  ghost predicate IsBankLedger(t: Tables, bank: Bank, a: int, b: int, l: Ledger<Movement>) {
    && l.opening == BankBalance(t, bank, a)
    && (a <= b + 1 ==> l.closing == BankBalance(t, bank, b + 1))
    && exists items ::
         && multiset(items) == multiset(BankMovements(t, bank, a, b))
         && Merged(items)
         && RunsFrom(l.opening, items, Delta(), l.rows)
         && l.closing == l.opening + Sum(items, Delta())
  }

  lemma BankOpeningIs(t: Tables, bank: Bank, d: int)
    ensures bank.opening + Sum(t.txns, TypeBefore(bank.id, {Inflow}, d))
            - Sum(t.txns, TypeBefore(bank.id, {Outflow, Adjustment}, d))
          + Sum(t.receipts, SettledBefore(bank.glAccount, d)) - Sum(t.payments, SettledBefore(bank.glAccount, d))
         == BankBalance(t, bank, d)
  {
    InflowsLessOutflows(t.txns, bank.id, d);
    SettledSigned(t.receipts, bank.glAccount, d, 1);
    SettledSigned(t.payments, bank.glAccount, d, -1);
  }

  lemma MergedIsLedger(t: Tables, bank: Bank, a: int, b: int, items: seq<Movement>, l: Ledger<Movement>)
    requires items == Sort(BankMovements(t, bank, a, b), MovementOrder)
    requires l.opening == BankBalance(t, bank, a) && RunsFrom(l.opening, items, Delta(), l.rows)
    requires l.closing == l.opening + Sum(items, Delta())
    ensures IsBankLedger(t, bank, a, b, l)
  {
    hide BankMovements, BankBalance, Sort, Sum, StringLe, RunsFrom;
    var entries := BankMovements(t, bank, a, b);
    MovementOrderTotal();
    SortPermutes(entries, MovementOrder);
    SortSorts(entries, MovementOrder);
    SumPermutation(items, entries, Delta());
    if a <= b + 1 {
      BankMovementsMove(t, bank, a, b);
    }
  }

  /** bank_account_ledger: the aggregates of three tables open it, their period rows merged by date run it. */
  method BankLedger(banks: map<int, Bank>, t: Tables, id: int, a: int, b: int)
    returns (r: Result<Ledger<Movement>, TreasuryError>)
    requires forall x :: x in banks ==> banks[x].id == x
    ensures r.Ok? <==> id in banks
    ensures r.Ok? ==> IsBankLedger(t, banks[id], a, b, r.value)
  {
    if id !in banks {
      return Err(BankAccountMissing);
    }
    var bank := banks[id];
    hide Mapped, Filter, Padded, Sort, Sum, StringLe, BankBalance, IsBankLedger, RunsFrom;
    var txnInflows := Sum(t.txns, TypeBefore(bank.id, {Inflow}, a));
    var txnOutflows := Sum(t.txns, TypeBefore(bank.id, {Outflow, Adjustment}, a));
    var receiptInflows := Sum(t.receipts, SettledBefore(bank.glAccount, a));
    var paymentOutflows := Sum(t.payments, SettledBefore(bank.glAccount, a));
    var opening := bank.opening + txnInflows - txnOutflows + receiptInflows - paymentOutflows;
    BankOpeningIs(t, bank, a);
    var x := Collect(Filter(t.txns, During(PostedTxn(bank.id), TxnDate(), a, b)), TxnMovement());
    var y := Collect(Filter(t.receipts, During(PostedSettlement(bank.glAccount), SettlementDate(), a, b)),
                     ReceiptMovement());
    var z := Collect(Filter(t.payments, During(PostedSettlement(bank.glAccount), SettlementDate(), a, b)),
                     PaymentMovement());
    var items := Sort(x + y + z, MovementOrder);
    var rows, closing := Accumulate(opening, items, Delta());
    MergedIsLedger(t, bank, a, b, items, Ledger(opening, rows, closing));
    r := Ok(Ledger(opening, rows, closing));
  }

  /** The amounts of posted settlements on a GL account dated before d. */
  function Settled(rows: seq<Settlement>, gl: int, d: int): int {
    Sum(rows, (s: Settlement) => if s.posted && s.glAccount == gl && s.date < d then s.amount else 0)
  }

  lemma SettledIs(rows: seq<Settlement>, gl: int, d: int)
    ensures Sum(rows, Before(PostedSettlement(gl), SettlementDate(), SettlementEffect(1), d)) == Settled(rows, gl, d)
    ensures Sum(rows, Before(PostedSettlement(gl), SettlementDate(), SettlementEffect(-1), d)) == -Settled(rows, gl, d)
  {
    var settled := (s: Settlement) => if s.posted && s.glAccount == gl && s.date < d then s.amount else 0;
    SumScaled(rows, Before(PostedSettlement(gl), SettlementDate(), SettlementEffect(1), d), settled, 1);
    SumScaled(rows, Before(PostedSettlement(gl), SettlementDate(), SettlementEffect(-1), d), settled, -1);
  }

  /** A bank ledger opens and closes at the opening balance plus the account's posted inflows and receipts less its
      other transactions and payments. */
  lemma BankFromTables(t: Tables, bank: Bank, a: int, b: int, l: Ledger<Movement>)
    requires IsBankLedger(t, bank, a, b, l) && a <= b + 1
    ensures l.opening == bank.opening + Posted(t.txns, bank.id, true, a) - Posted(t.txns, bank.id, false, a)
                       + Settled(t.receipts, bank.glAccount, a) - Settled(t.payments, bank.glAccount, a)
    ensures l.closing == bank.opening + Posted(t.txns, bank.id, true, b + 1) - Posted(t.txns, bank.id, false, b + 1)
                       + Settled(t.receipts, bank.glAccount, b + 1) - Settled(t.payments, bank.glAccount, b + 1)
  {
    hide Sum, Posted, Settled;
    PostedNets(t.txns, bank.id, a);
    PostedNets(t.txns, bank.id, b + 1);
    SettledIs(t.receipts, bank.glAccount, a);
    SettledIs(t.receipts, bank.glAccount, b + 1);
    SettledIs(t.payments, bank.glAccount, a);
    SettledIs(t.payments, bank.glAccount, b + 1);
  }

  // ----- what the tag order amounts to ---------------------------------------------

  /** Strings of digits of one length stand in the order of the numbers they write. */
  lemma {:induction false} DigitsOrder(a: string, b: string)
    requires AllDigits(a) && AllDigits(b) && |a| == |b|
    ensures StringLe(a, b) <==> StringToNat(a) <= StringToNat(b)
  {
    hide StringToNat, Pow10;
    if a == [] {
      assert a == b;
    } else {
      ReadFirst(a);
      ReadFirst(b);
      ReadBelow(a[1..]);
      ReadBelow(b[1..]);
      DigitsOrder(a[1..], b[1..]);
      LeadingDigit(DigitValue(a[0]), DigitValue(b[0]), Pow10(|a| - 1), StringToNat(a[1..]), StringToNat(b[1..]));
    }
  }

  lemma LeadingDigit(x: nat, y: nat, p: nat, u: nat, v: nat)
    requires u < p && v < p
    ensures x * p + u <= y * p + v <==> x < y || (x == y && u <= v)
  {
    LargerLeads(x, y, p);
    LargerLeads(y, x, p);
  }

  lemma LargerLeads(x: nat, y: nat, p: nat)
    ensures x < y ==> x * p + p <= y * p
  {
    if x < y {
      var k := y - x - 1;
      assert y == x + 1 + k;
      assert (x + 1 + k) * p == x * p + p + k * p;
      assert k * p >= 0;
    }
  }

  lemma {:induction false} SamePrefix(prefix: string, a: string, b: string)
    ensures StringLe(prefix + a, prefix + b) <==> StringLe(a, b)
  {
    if prefix == [] {
      assert prefix + a == a && prefix + b == b;
    } else {
      assert (prefix + a)[1..] == prefix[1..] + a && (prefix + b)[1..] == prefix[1..] + b;
      SamePrefix(prefix[1..], a, b);
    }
  }

  const ID_LIMIT: nat := 1_000_000_000_000

  lemma LimitIs()
    ensures Pow10(12) == ID_LIMIT
  {
    assert Pow10(6) == 1_000_000;
    assert Pow10(9) == 1000 * Pow10(6);
    assert Pow10(12) == 1000 * Pow10(9);
  }

  lemma PaddedOrder(prefix: string, m: nat, n: nat)
    requires m < ID_LIMIT && n < ID_LIMIT
    ensures StringLe(prefix + Padded(m, 12), prefix + Padded(n, 12)) <==> m <= n
  {
    hide Padded, StringLe, Pow10, StringToNat;
    LimitIs();
    SamePrefix(prefix, Padded(m, 12), Padded(n, 12));
    DigitsFit(m, 12);
    DigitsFit(n, 12);
    PaddedLength(m, 12);
    PaddedLength(n, 12);
    ReadPadded(m, 12);
    ReadPadded(n, 12);
    DigitsOrder(Padded(m, 12), Padded(n, 12));
  }

  /** On one date the bank ledger shows receipts, then its own transactions, then payments, each table by id. */
  lemma TagsOrder(r: Settlement, s: Settlement, t: Txn, u: Txn)
    requires r.id < ID_LIMIT && s.id < ID_LIMIT && t.id < ID_LIMIT && u.id < ID_LIMIT
    ensures StringLe(ReceiptMovement()(r).tag, ReceiptMovement()(s).tag) <==> r.id <= s.id
    ensures StringLe(PaymentMovement()(r).tag, PaymentMovement()(s).tag) <==> r.id <= s.id
    ensures StringLe(TxnMovement()(t).tag, TxnMovement()(u).tag) <==> t.id <= u.id
    ensures StringLe(ReceiptMovement()(r).tag, TxnMovement()(t).tag)
         && !StringLe(TxnMovement()(t).tag, ReceiptMovement()(r).tag)
    ensures StringLe(TxnMovement()(t).tag, PaymentMovement()(s).tag)
         && !StringLe(PaymentMovement()(s).tag, TxnMovement()(t).tag)
  {
    hide Padded;
    PaddedOrder("RCP-", r.id, s.id);
    PaddedOrder("VPAY-", r.id, s.id);
    PaddedOrder("TXN-", t.id, u.id);
    FirstDecides(ReceiptMovement()(r).tag, TxnMovement()(t).tag);
    FirstDecides(TxnMovement()(t).tag, PaymentMovement()(s).tag);
  }

  lemma FirstDecides(a: string, b: string)
    requires a != [] && b != [] && a[0] < b[0]
    ensures StringLe(a, b) && !StringLe(b, a)
  {
  }
}
