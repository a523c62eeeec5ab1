/** Customer wallets: each operation posts a journal entry, logs a transaction and moves the stored balance. */
module Wallet {
  import opened Ledger
  import opened Results
  import opened Sums
  import opened ValueObjects

  datatype Operation = Deposit | Redeem | Refund | Adjustment

  datatype Spec = Spec(customer: int, operation: Operation, amount: Money, reference: string, signed: int) {
    /** balance_delta_sign */
    function Sign(): int {
      match operation
      case Deposit => 1
      case Redeem => -1
      case Refund => 1
      case Adjustment => signed
    }

    function Delta(): int { if Sign() >= 0 then amount.amount else -amount.amount }
  }

  datatype SpecError = InvalidWalletOperation

  predicate Blank(s: string) { forall c :: c in s ==> c in " \t\n\r" }

  function NewSpec(customer: int, operation: Operation, amount: Money, reference: string,
                   signed: int): Result<Spec, SpecError>
  {
    if customer <= 0 || amount.amount <= 0 || Blank(reference) then Err(InvalidWalletOperation)
    else if operation == Adjustment && signed != 1 && signed != -1 then Err(InvalidWalletOperation)
    else if operation != Adjustment && signed != 0 then Err(InvalidWalletOperation)
    else Ok(Spec(customer, operation, amount, reference, signed))
  }

  predicate ValidSpec(s: Spec) { NewSpec(s.customer, s.operation, s.amount, s.reference, s.signed).Ok? }

  /** A valid operation has a positive amount and a reference, and a sign exactly if it is an adjustment. */
  lemma ValidSpecIff(s: Spec)
    ensures ValidSpec(s) <==>
            && s.customer >= 1 && s.amount.amount >= 1
            && (exists i :: 0 <= i < |s.reference| && s.reference[i] !in " \t\n\r")
            && (s.signed == 0 || s.signed == 1 || s.signed == -1)
            && (s.operation == Adjustment <==> s.signed != 0)
  {
    assert Blank(s.reference) <==> forall i :: 0 <= i < |s.reference| ==> s.reference[i] in " \t\n\r";
  }

  /** Whether an operation adds to the wallet: deposits and refunds do, redemptions do not, adjustments say. */
  predicate AddsTo(spec: Spec) {
    || spec.operation == Deposit
    || spec.operation == Refund
    || (spec.operation == Adjustment && spec.signed == 1)
  }

  /** balance_delta_sign is 1 or -1 accordingly. */
  lemma SignIs(spec: Spec)
    requires ValidSpec(spec)
    ensures spec.Sign() == if AddsTo(spec) then 1 else -1
  {
  }

  datatype Command = Command(spec: Spec, date: int, counterparty: int)

  // ----- tables ----------------------------------------------------------------

  datatype WalletRow = WalletRow(customer: int, currency: string, balance: int, liability: int)

  datatype Tx = Tx(customer: int, currency: string, operation: Operation, amount: int, signedDelta: int,
                   reference: string, entryId: int)

  datatype State = State(wallets: seq<WalletRow>, txs: seq<Tx>, entries: seq<Entry>)

  /** What an operation reads but does not write. */
  datatype Env = Env(activeCustomers: set<int>, chart: map<int, Account>, closed: set<int>)

  /** The wallet row of a customer and currency, or |wallets| when there is none. */
  function Find(wallets: seq<WalletRow>, customer: int, currency: string): (i: nat)
    ensures i <= |wallets|
    ensures i < |wallets| ==> wallets[i].customer == customer && wallets[i].currency == currency
    ensures i == |wallets| ==> forall w :: w in wallets ==> !(w.customer == customer && w.currency == currency)
  {
    if wallets == [] then 0
    else if wallets[0].customer == customer && wallets[0].currency == currency then 0
    else 1 + Find(wallets[1..], customer, currency)
  }

  datatype WalletError = CustomerNotFound | WalletNotFound | InsufficientBalance | EntryRefused
                       | PostingRefused(reason: PostError) | DuplicateTransaction

  /** DR counterparty / CR liability when the balance grows, the reverse when it shrinks. */
  function PostingAccounts(sign: int, liability: int, counterparty: int): (int, int) {
    if sign >= 0 then (counterparty, liability) else (liability, counterparty)
  }

  function EntryDraft(cmd: Command, liability: int): Result<Draft, WalletError> {
    var (debit, credit) := PostingAccounts(cmd.spec.Sign(), liability, cmd.counterparty);
    var zero := Money(0, cmd.spec.amount.currency);
    match (NewLine(debit, cmd.spec.amount, zero), NewLine(credit, zero, cmd.spec.amount)) {
      case (Ok(x), Ok(y)) =>
        (match NewDraft(cmd.date, "WAL-" + cmd.spec.reference, [x, y])
         case Ok(d) => Ok(d)
         case Err(_) => Err(EntryRefused))
      case (_, _) => Err(EntryRefused)
    }
  }

  predicate Logged(txs: seq<Tx>, spec: Spec) {
    exists tx :: tx in txs && tx.customer == spec.customer && tx.currency == spec.amount.currency.code
      && tx.reference == spec.reference
  }

  function TxOf(spec: Spec, entryId: int): Tx {
    Tx(spec.customer, spec.amount.currency.code, spec.operation, spec.amount.amount, spec.Delta(), spec.reference,
       entryId)
  }

  /** One operation as a transaction: the state after it, or the error that leaves the state alone. */
  function Step(env: Env, s: State, cmd: Command): Result<State, WalletError> {
    var spec := cmd.spec;
    var i := Find(s.wallets, spec.customer, spec.amount.currency.code);
    if spec.customer !in env.activeCustomers then Err(CustomerNotFound)
    else if i == |s.wallets| then Err(WalletNotFound)
    else if s.wallets[i].balance + spec.Delta() < 0 then Err(InsufficientBalance)
    else
      match EntryDraft(cmd, s.wallets[i].liability)
      case Err(e) => Err(e)
      case Ok(draft) =>
        match Post(env.chart, d => d in env.closed, s.entries, draft, |s.entries| + 1, 1.0)
        case Err(e) => Err(PostingRefused(e))
        case Ok(entries) =>
          if Logged(s.txs, spec) then Err(DuplicateTransaction)
          else
            var w := s.wallets[i];
            Ok(State(s.wallets[i := w.(balance := w.balance + spec.Delta())], s.txs + [TxOf(spec, |s.entries| + 1)],
                     entries))
  }

  datatype Recorded = Recorded(entryId: int, newBalance: int)

  class WalletService {
    const env: Env
    var wallets: seq<WalletRow>
    var txs: seq<Tx>
    var entries: seq<Entry>

    constructor (env: Env, wallets: seq<WalletRow>, txs: seq<Tx>, entries: seq<Entry>)
      ensures this.env == env && Current() == State(wallets, txs, entries)
    {
      this.env, this.wallets, this.txs, this.entries := env, wallets, txs, entries;
    }

    function Current(): State
      reads this
    {
      State(wallets, txs, entries)
    }

    /** RecordWalletOperation.execute: the journal is posted before the transaction row is saved,
        so a refusal at the row rolls the posting back. */
    method Execute(cmd: Command) returns (r: Result<Recorded, WalletError>)
      modifies this`wallets, this`txs, this`entries
      ensures match Step(env, old(Current()), cmd)
              case Ok(after) => Current() == after && r.Ok?
                  && r.value.newBalance == old(Balance(cmd.spec)) + cmd.spec.Delta()
              case Err(e) => Current() == old(Current()) && r == Err(e)
      ensures r.Ok? && ValidSpec(cmd.spec) ==>
        r.value.newBalance
        == old(Balance(cmd.spec)) + if AddsTo(cmd.spec) then cmd.spec.amount.amount else -cmd.spec.amount.amount
      ensures r.Ok? ==> |entries| == |old(entries)| + 1 && r.value.entryId == entries[|old(entries)|].id
      ensures r.Ok? && ValidSpec(cmd.spec) && !AddsTo(cmd.spec) ==> old(Balance(cmd.spec)) >= cmd.spec.amount.amount
    {
      var spec := cmd.spec;
      if spec.customer !in env.activeCustomers {
        return Err(CustomerNotFound);
      }
      var i := Find(wallets, spec.customer, spec.amount.currency.code);
      if i == |wallets| {
        return Err(WalletNotFound);
      }
      var w := wallets[i];
      var delta := if spec.Sign() >= 0 then spec.amount.amount else -spec.amount.amount;
      var newBalance := w.balance + delta;
      if newBalance < 0 {
        return Err(InsufficientBalance);
      }
      var draft := EntryDraft(cmd, w.liability);
      if draft.Err? {
        return Err(draft.error);
      }
      var savepoint := entries;
      var posted := Post(env.chart, d => d in env.closed, entries, draft.value, |entries| + 1, 1.0);
      if posted.Err? {
        return Err(PostingRefused(posted.error));
      }
      entries := posted.value;
      if Logged(txs, spec) {
        entries := savepoint;
        return Err(DuplicateTransaction);
      }
      txs := txs + [TxOf(spec, |savepoint| + 1)];
      wallets := wallets[i := w.(balance := newBalance)];
      r := Ok(Recorded(|savepoint| + 1, newBalance));
    }

    function Balance(spec: Spec): int
      reads this
    {
      var i := Find(wallets, spec.customer, spec.amount.currency.code);
      if i < |wallets| then wallets[i].balance else 0
    }
  }

  // ----- what every run keeps ----------------------------------------------------

  /** A run: a refused operation leaves the state as it was. */
  function Run(env: Env, s: State, cmds: seq<Command>): State {
    if cmds == [] then s
    else
      var before := Run(env, s, cmds[..|cmds| - 1]);
      match Step(env, before, cmds[|cmds| - 1])
      case Ok(after) => after
      case Err(_) => before
  }

  function DeltaOf(customer: int, currency: string): Tx -> int {
    (tx: Tx) => if tx.customer == customer && tx.currency == currency then tx.signedDelta else 0
  }

  function BalanceOn(account: int, currency: string): WalletRow -> int {
    (w: WalletRow) => if w.liability == account && w.currency == currency then w.balance else 0
  }

  /** Credits less debits of one account in one currency. */
  function CreditOn(account: int, currency: string): Row -> int {
    (r: Row) => if r.posted && r.account.id == account && r.currency.code == currency then r.credit - r.debit else 0
  }

  /** How far the wallets backed by an account are from what the general ledger shows for it. */
  function Gap(s: State, account: int, currency: string): int {
    Sum(s.wallets, BalanceOn(account, currency)) - Sum(AllRows(s.entries), CreditOn(account, currency))
  }

  ghost predicate UniqueWallets(wallets: seq<WalletRow>) {
    forall i, j :: 0 <= i < j < |wallets| ==>
      !(wallets[i].customer == wallets[j].customer && wallets[i].currency == wallets[j].currency)
  }

  /** Each wallet's stored balance is non-negative and the sum of its logged movements; every
      logged reference has its journal entry, and no two transactions share one. */
  ghost predicate Sound(s: State) {
    && UniqueWallets(s.wallets)
    && (forall w :: w in s.wallets ==> w.balance >= 0 && w.balance == Sum(s.txs, DeltaOf(w.customer, w.currency)))
    && (forall tx :: tx in s.txs ==> exists e :: e in s.entries && e.reference == "WAL-" + tx.reference)
    && (forall i, j :: 0 <= i < j < |s.txs| ==> s.txs[i].reference != s.txs[j].reference)
    && Books(s.entries)
  }

  ghost predicate ChartById(chart: map<int, Account>) {
    forall id :: id in chart ==> chart[id].id == id
  }

  /** The entry an operation posts: a two-line draft moving the signed amount from counterparty to liability. */
  lemma DraftShape(cmd: Command, liability: int)
    requires ValidSpec(cmd.spec) && EntryDraft(cmd, liability).Ok?
    ensures var d, (debit, credit) := EntryDraft(cmd, liability).value,
            PostingAccounts(cmd.spec.Sign(), liability, cmd.counterparty);
      && ValidDraft(d) && d.reference == "WAL-" + cmd.spec.reference
      && d.lines == [JournalLine(debit, cmd.spec.amount, Money(0, cmd.spec.amount.currency)),
                     JournalLine(credit, Money(0, cmd.spec.amount.currency), cmd.spec.amount)]
  {
  }

  /** What an accepted operation does, step by step. */
  lemma StepShape(env: Env, s: State, cmd: Command)
    requires ValidSpec(cmd.spec) && Step(env, s, cmd).Ok?
    ensures var after, i := Step(env, s, cmd).value, Find(s.wallets, cmd.spec.customer, cmd.spec.amount.currency.code);
      && i < |s.wallets|
      && s.wallets[i].balance + cmd.spec.Delta() >= 0
      && after.wallets == s.wallets[i := s.wallets[i].(balance := s.wallets[i].balance + cmd.spec.Delta())]
      && after.txs == s.txs + [TxOf(cmd.spec, |s.entries| + 1)]
      && EntryDraft(cmd, s.wallets[i].liability).Ok?
      && Post(env.chart, d => d in env.closed, s.entries, EntryDraft(cmd, s.wallets[i].liability).value,
              |s.entries| + 1, 1.0) == Ok(after.entries)
  {
  }

  lemma PostedCredit(env: Env, cmd: Command, liability: int, entries: seq<Entry>, after: seq<Entry>, account: int,
                     currency: string)
    requires ValidSpec(cmd.spec) && ChartById(env.chart) && EntryDraft(cmd, liability).Ok?
    requires Post(env.chart, d => d in env.closed, entries, EntryDraft(cmd, liability).value, |entries| + 1, 1.0)
             == Ok(after)
    ensures Sum(AllRows(after), CreditOn(account, currency)) - Sum(AllRows(entries), CreditOn(account, currency))
         == if cmd.spec.amount.currency.code != currency then 0
            else
              (if account == liability then cmd.spec.Delta() else 0)
              - (if account == cmd.counterparty then cmd.spec.Delta() else 0)
  {
    hide EntryDraft, Post, ChartById, AllRows, Sum;
    PostedLines(env, cmd, liability, entries, after);
    var e := after[|entries|];
    assert after == entries + [e];
    AllRowsSnoc(entries, e);
    SumConcat(AllRows(entries), e.rows, CreditOn(account, currency));
    assert e.rows == [e.rows[0], e.rows[1]];
    SumTwo(e.rows[0], e.rows[1], CreditOn(account, currency));
    assert e.rows[0] in e.rows && e.rows[1] in e.rows;
  }

  /** An accepted operation moves the gap between wallets and ledger by its delta on the counterparty
      account, and by nothing anywhere else. */
  lemma GapMoves(env: Env, s: State, cmd: Command, account: int, currency: string)
    requires ValidSpec(cmd.spec) && ChartById(env.chart) && Step(env, s, cmd).Ok?
    ensures Gap(Step(env, s, cmd).value, account, currency) - Gap(s, account, currency)
         == if account == cmd.counterparty && currency == cmd.spec.amount.currency.code then cmd.spec.Delta() else 0
    ensures cmd.spec.Delta() != 0
  {
    hide Step, EntryDraft, Post;
    StepShape(env, s, cmd);
    var i := Find(s.wallets, cmd.spec.customer, cmd.spec.amount.currency.code);
    var w, after := s.wallets[i], Step(env, s, cmd).value;
    SumUpdate(s.wallets, i, w.(balance := w.balance + cmd.spec.Delta()), BalanceOn(account, currency));
    PostedCredit(env, cmd, w.liability, s.entries, after.entries, account, currency);
  }

  // ----- what each operation does ------------------------------------------------

  /** The entry has two lines: the amount debited to one account, then the amount credited to the other. */
  predicate Moves(e: Entry, debited: int, credited: int, amount: Money) {
    && |e.rows| == 2
    && e.rows[0].account.id == debited && e.rows[0].debit == amount.amount && e.rows[0].credit == 0
    && e.rows[1].account.id == credited && e.rows[1].credit == amount.amount && e.rows[1].debit == 0
    && (forall r :: r in e.rows ==> r.posted && r.currency == amount.currency)
  }

  lemma PostedLines(env: Env, cmd: Command, liability: int, entries: seq<Entry>, after: seq<Entry>)
    requires ValidSpec(cmd.spec) && ChartById(env.chart) && EntryDraft(cmd, liability).Ok?
    requires Post(env.chart, d => d in env.closed, entries, EntryDraft(cmd, liability).value, |entries| + 1, 1.0)
             == Ok(after)
    ensures |after| == |entries| + 1 && after[..|entries|] == entries
    ensures var e := after[|entries|];
      && e.id == |entries| + 1 && e.posted && e.date == cmd.date && e.reference == "WAL-" + cmd.spec.reference
      && if AddsTo(cmd.spec) then Moves(e, cmd.counterparty, liability, cmd.spec.amount)
         else Moves(e, liability, cmd.counterparty, cmd.spec.amount)
  {
    hide Functional;
    DraftShape(cmd, liability);
  }

  /** A deposit, refund or positive adjustment adds its amount to the wallet and credits the liability account;
      a redemption or negative adjustment, accepted only if the wallet holds the amount, takes it off and debits
      the account. No other wallet changes. */
  lemma OperationMoves(env: Env, s: State, cmd: Command)
    requires ValidSpec(cmd.spec) && ChartById(env.chart) && Step(env, s, cmd).Ok?
    ensures var spec, after := cmd.spec, Step(env, s, cmd).value;
      var i := Find(s.wallets, spec.customer, spec.amount.currency.code);
      && i < |s.wallets| && |after.wallets| == |s.wallets|
      && (forall j :: 0 <= j < |s.wallets| && j != i ==> after.wallets[j] == s.wallets[j])
      && |after.entries| == |s.entries| + 1 && after.entries[..|s.entries|] == s.entries
      && after.txs == s.txs + [Tx(spec.customer, spec.amount.currency.code, spec.operation, spec.amount.amount,
                                  if AddsTo(spec) then spec.amount.amount else -spec.amount.amount, spec.reference,
                                  after.entries[|s.entries|].id)]
      && var w, e := s.wallets[i], after.entries[|s.entries|];
         if AddsTo(spec) then
           after.wallets[i] == w.(balance := w.balance + spec.amount.amount)
           && Moves(e, cmd.counterparty, w.liability, spec.amount)
         else
           w.balance >= spec.amount.amount
           && after.wallets[i] == w.(balance := w.balance - spec.amount.amount)
           && Moves(e, w.liability, cmd.counterparty, spec.amount)
  {
    hide Step, EntryDraft, Post, Moves;
    StepShape(env, s, cmd);
    var w := s.wallets[Find(s.wallets, cmd.spec.customer, cmd.spec.amount.currency.code)];
    PostedLines(env, cmd, w.liability, s.entries, Step(env, s, cmd).value.entries);
  }

  lemma StepKeepsBalances(env: Env, s: State, cmd: Command)
    requires ValidSpec(cmd.spec) && Sound(s) && Step(env, s, cmd).Ok?
    ensures var after := Step(env, s, cmd).value;
      UniqueWallets(after.wallets)
      && forall w :: w in after.wallets ==>
           w.balance >= 0 && w.balance == Sum(after.txs, DeltaOf(w.customer, w.currency))
  {
    hide Step, EntryDraft, Post, Sum;
    StepShape(env, s, cmd);
    var i := Find(s.wallets, cmd.spec.customer, cmd.spec.amount.currency.code);
    var after := Step(env, s, cmd).value;
    forall j | 0 <= j < |after.wallets|
      ensures var w := after.wallets[j]; w.balance >= 0 && w.balance == Sum(after.txs, DeltaOf(w.customer, w.currency))
    {
      var w := s.wallets[j];
      assert w in s.wallets;
      SumSnoc(s.txs, TxOf(cmd.spec, |s.entries| + 1), DeltaOf(w.customer, w.currency));
    }
  }

  lemma StepKeepsReferences(env: Env, s: State, cmd: Command)
    requires ValidSpec(cmd.spec) && Sound(s) && Step(env, s, cmd).Ok?
    ensures var after := Step(env, s, cmd).value;
      && (forall tx :: tx in after.txs ==> exists e :: e in after.entries && e.reference == "WAL-" + tx.reference)
      && (forall i, j :: 0 <= i < j < |after.txs| ==> after.txs[i].reference != after.txs[j].reference)
      && Books(after.entries)
  {
    hide Step, EntryDraft;
    StepShape(env, s, cmd);
    var liability := s.wallets[Find(s.wallets, cmd.spec.customer, cmd.spec.amount.currency.code)].liability;
    var after, draft := Step(env, s, cmd).value, EntryDraft(cmd, liability).value;
    DraftShape(cmd, liability);
    PostKeepsBooks(env.chart, d => d in env.closed, s.entries, draft, |s.entries| + 1, 1.0);
    var n := |s.entries|;
    assert after.entries[n] in after.entries && after.entries[n].reference == "WAL-" + cmd.spec.reference;
    assert forall e :: e in s.entries ==> e in after.entries;
    forall tx | tx in s.txs
      ensures tx.reference != cmd.spec.reference
    {
      var e :| e in s.entries && e.reference == "WAL-" + tx.reference;
      assert e.reference != draft.reference;
    }
  }

  /** Over every run, with refused operations in between, balances stay non-negative and equal their logs. */
  lemma {:induction false} RunKeepsSound(env: Env, s: State, cmds: seq<Command>)
    requires Sound(s) && forall c :: c in cmds ==> ValidSpec(c.spec)
    ensures Sound(Run(env, s, cmds))
  {
    hide Step, Sound;
    if cmds != [] {
      var before, last := Run(env, s, cmds[..|cmds| - 1]), cmds[|cmds| - 1];
      RunKeepsSound(env, s, cmds[..|cmds| - 1]);
      if Step(env, before, last).Ok? {
        StepKeepsSound(env, before, last);
      }
    }
  }

  lemma StepKeepsSound(env: Env, s: State, cmd: Command)
    requires ValidSpec(cmd.spec) && Sound(s) && Step(env, s, cmd).Ok?
    ensures Sound(Step(env, s, cmd).value)
  {
    hide Step;
    StepKeepsBalances(env, s, cmd);
    StepKeepsReferences(env, s, cmd);
  }

  /** The deltas of a run's accepted operations whose counterparty is the account, in one currency. */
  function Drift(env: Env, s: State, cmds: seq<Command>, account: int, currency: string): int {
    if cmds == [] then 0
    else
      var before, last := Run(env, s, cmds[..|cmds| - 1]), cmds[|cmds| - 1];
      Drift(env, s, cmds[..|cmds| - 1], account, currency)
      + if Step(env, before, last).Ok? && last.counterparty == account && last.spec.amount.currency.code == currency
        then last.spec.Delta() else 0
  }

  /** Over every run, wallets and ledger drift apart by exactly that. */
  lemma {:induction false} RunMovesGap(env: Env, s: State, cmds: seq<Command>, account: int, currency: string)
    requires ChartById(env.chart) && forall c :: c in cmds ==> ValidSpec(c.spec)
    ensures Gap(Run(env, s, cmds), account, currency) == Gap(s, account, currency)
            + Drift(env, s, cmds, account, currency)
  {
    hide Step, Gap;
    if cmds != [] {
      var before, last := Run(env, s, cmds[..|cmds| - 1]), cmds[|cmds| - 1];
      RunMovesGap(env, s, cmds[..|cmds| - 1], account, currency);
      if Step(env, before, last).Ok? {
        GapMoves(env, before, last, account, currency);
      }
    }
  }

  lemma {:induction false} NoDrift(env: Env, s: State, cmds: seq<Command>, account: int, currency: string)
    requires forall c :: c in cmds ==> c.counterparty != account
    ensures Drift(env, s, cmds, account, currency) == 0
  {
    hide Step;
    if cmds != [] {
      NoDrift(env, s, cmds[..|cmds| - 1], account, currency);
    }
  }

  /** If no operation uses a liability account as its counterparty, the ledger keeps showing what the wallets hold. */
  lemma RunKeepsGap(env: Env, s: State, cmds: seq<Command>, account: int, currency: string)
    requires ChartById(env.chart) && forall c :: c in cmds ==> ValidSpec(c.spec) && c.counterparty != account
    ensures Gap(Run(env, s, cmds), account, currency) == Gap(s, account, currency)
  {
    RunMovesGap(env, s, cmds, account, currency);
    NoDrift(env, s, cmds, account, currency);
  }

  // ----- a deposit booked against the wallet's own liability account ---------------

  const ONE_ACCOUNT: Env := Env({1}, map[10 := Account(10, "2100", Liability, true, true)], {})

  const ONE_WALLET: State := State([WalletRow(1, "SAR", 0, 10)], [], [])

  const OWN_DEPOSIT: Command := Command(Spec(1, Deposit, Money(100, Currency("SAR", 2)), "R1", 0), 0, 10)

  lemma OwnDepositIsValid()
    ensures ValidSpec(OWN_DEPOSIT.spec) && Find(ONE_WALLET.wallets, 1, "SAR") == 0
  {
    assert OWN_DEPOSIT.spec.reference[0] in OWN_DEPOSIT.spec.reference;
  }

  lemma OneWalletIsSound()
    ensures Sound(ONE_WALLET) && Gap(ONE_WALLET, 10, "SAR") == Gap(ONE_WALLET, 11, "SAR") == 0
  {
    SumOne(ONE_WALLET.wallets[0], BalanceOn(10, "SAR"));
    SumOne(ONE_WALLET.wallets[0], BalanceOn(11, "SAR"));
  }

  lemma OwnDepositIsAccepted()
    ensures Step(ONE_ACCOUNT, ONE_WALLET, OWN_DEPOSIT).Ok?
  {
    hide Step, Sound, ValidSpec, Find;
    OwnDepositIsValid();
    OneWalletIsSound();
    AcceptedIffCovered(ONE_ACCOUNT, ONE_WALLET, OWN_DEPOSIT);
  }

  /** It is accepted, and the wallet then holds 100 that the ledger does not show. */
  lemma OwnLiabilityExample()
    ensures ValidSpec(OWN_DEPOSIT.spec) && Sound(ONE_WALLET) && Step(ONE_ACCOUNT, ONE_WALLET, OWN_DEPOSIT).Ok?
    ensures Gap(ONE_WALLET, 10, "SAR") == 0
    ensures Gap(Step(ONE_ACCOUNT, ONE_WALLET, OWN_DEPOSIT).value, 10, "SAR") == 100
  {
    hide Step, Sound, ValidSpec, Gap;
    OwnDepositIsValid();
    OneWalletIsSound();
    OwnDepositIsAccepted();
    GapMoves(ONE_ACCOUNT, ONE_WALLET, OWN_DEPOSIT, 10, "SAR");
  }

  predicate Postable(chart: map<int, Account>, id: int) {
    id > 0 && id in chart && chart[id].active && chart[id].postable
  }

  ghost predicate Journalled(entries: seq<Entry>, reference: string) {
    exists e :: e in entries && e.reference == "WAL-" + reference
  }

  /** With an open date and two postable accounts, an operation on an active customer's wallet is accepted
      exactly when the balance covers it and the journal does not hold its reference, for whatever wallet. */
  lemma AcceptedIffCovered(env: Env, s: State, cmd: Command)
    requires Sound(s) && ValidSpec(cmd.spec) && cmd.spec.customer in env.activeCustomers
    requires Find(s.wallets, cmd.spec.customer, cmd.spec.amount.currency.code) < |s.wallets|
    requires cmd.date !in env.closed && Postable(env.chart, cmd.counterparty)
    requires Postable(env.chart, s.wallets[Find(s.wallets, cmd.spec.customer, cmd.spec.amount.currency.code)].liability)
    ensures Step(env, s, cmd).Ok? <==>
            s.wallets[Find(s.wallets, cmd.spec.customer, cmd.spec.amount.currency.code)].balance + cmd.spec.Delta() >= 0
            && !Journalled(s.entries, cmd.spec.reference)
  {
    var liability := s.wallets[Find(s.wallets, cmd.spec.customer, cmd.spec.amount.currency.code)].liability;
    DraftAccepted(cmd, liability);
    DraftShape(cmd, liability);
    forall tx | tx in s.txs && tx.reference == cmd.spec.reference
      ensures Journalled(s.entries, cmd.spec.reference)
    {
      var e :| e in s.entries && e.reference == "WAL-" + tx.reference;
    }
  }

  lemma DraftAccepted(cmd: Command, liability: int)
    requires ValidSpec(cmd.spec) && cmd.counterparty > 0 && liability > 0
    ensures EntryDraft(cmd, liability).Ok?
  {
    var (debit, credit) := PostingAccounts(cmd.spec.Sign(), liability, cmd.counterparty);
    var zero := Money(0, cmd.spec.amount.currency);
    var x, y := JournalLine(debit, cmd.spec.amount, zero), JournalLine(credit, zero, cmd.spec.amount);
    assert [x, y] == [x] + [y];
    SumSnoc([x], y, (l: JournalLine) => l.debit.amount);
    SumSnoc([x], y, (l: JournalLine) => l.credit.amount);
    SumOne(x, (l: JournalLine) => l.debit.amount);
    SumOne(x, (l: JournalLine) => l.credit.amount);
  }

  /** The transaction row is refused for a reference its own wallet has logged, and for no other. */
  lemma LoggedIsRefused(env: Env, s: State, cmd: Command, tx: Tx)
    requires tx in s.txs && tx.customer == cmd.spec.customer && tx.currency == cmd.spec.amount.currency.code
    requires tx.reference == cmd.spec.reference
    ensures Step(env, s, cmd).Err?
  {
    hide EntryDraft, Post;
  }

  lemma RefusedIsLogged(env: Env, s: State, cmd: Command)
    requires Step(env, s, cmd) == Err(DuplicateTransaction)
    ensures exists t :: t in s.txs && t.customer == cmd.spec.customer && t.reference == cmd.spec.reference
                        && t.currency == cmd.spec.amount.currency.code
  {
    hide Post;
  }

  /** A reference the journal holds, from any wallet or from elsewhere, is refused at the posting; so in a sound
      state the uniqueness of references per wallet never decides. */
  lemma ReferenceUsedOnce(env: Env, s: State, cmd: Command)
    requires Sound(s) && ValidSpec(cmd.spec)
    ensures Journalled(s.entries, cmd.spec.reference) ==> Step(env, s, cmd).Err?
    ensures (exists tx :: tx in s.txs && tx.reference == cmd.spec.reference)
            ==> Journalled(s.entries, cmd.spec.reference)
    ensures Step(env, s, cmd) != Err(DuplicateTransaction)
  {
    var i := Find(s.wallets, cmd.spec.customer, cmd.spec.amount.currency.code);
    if i < |s.wallets| && EntryDraft(cmd, s.wallets[i].liability).Ok? {
      DraftShape(cmd, s.wallets[i].liability);
      assert Journalled(s.entries, cmd.spec.reference) ==>
        Post(env.chart, d => d in env.closed, s.entries, EntryDraft(cmd, s.wallets[i].liability).value,
             |s.entries| + 1, 1.0).Err?;
    }
  }
}
