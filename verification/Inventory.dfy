/** Stock movements, the item ledger, the on-hand projection and its rebuild. */
module Inventory {
  import opened Results
  import opened Running
  import opened Sorting
  import opened Sums

  datatype MovementType = Inbound | Outbound | TransferOut | TransferIn | Adjustment {
    /** MovementType.direction */
    function Direction(): int {
      match this
      case Inbound => 1
      case TransferIn => 1
      case Outbound => -1
      case TransferOut => -1
      case Adjustment => 0
    }
  }

  datatype Spec = Spec(product: int, warehouse: int, kind: MovementType, quantity: int, occurredAt: int,
                       transfer: Option<int>, signed: int) {
    /** MovementSpec.direction */
    function Direction(): int { if kind == Adjustment then signed else kind.Direction() }
  }

  datatype SpecError = InvalidMovement

  function NewSpec(product: int, warehouse: int, kind: MovementType, quantity: int, occurredAt: int,
                   transfer: Option<int>, signed: int)
    : Result<Spec, SpecError>
  {
    if product <= 0 || warehouse <= 0 || quantity <= 0 then Err(InvalidMovement)
    else if (kind == TransferOut || kind == TransferIn) != transfer.Some? then Err(InvalidMovement)
    else if kind == Adjustment && signed != 1 && signed != -1 then Err(InvalidMovement)
    else if kind != Adjustment && signed != 0 then Err(InvalidMovement)
    else Ok(Spec(product, warehouse, kind, quantity, occurredAt, transfer, signed))
  }

  predicate ValidSpec(s: Spec) {
    NewSpec(s.product, s.warehouse, s.kind, s.quantity, s.occurredAt, s.transfer, s.signed).Ok?
  }

  /** A valid movement has a positive quantity, a transfer id exactly if it is one half of a transfer, and a sign
      exactly if it is an adjustment. */
  lemma ValidSpecIff(s: Spec)
    ensures ValidSpec(s) <==>
            && s.product >= 1 && s.warehouse >= 1 && s.quantity >= 1
            && (s.transfer != None <==> s.kind != Inbound && s.kind != Outbound && s.kind != Adjustment)
            && (s.signed == 0 || s.signed == 1 || s.signed == -1)
            && (s.signed == 0 <==> s.kind != Adjustment)
  {
  }

  /** A stored row; `adjustmentSign` is 0 except on adjustments. */
  datatype Movement = Movement(id: int, product: int, warehouse: int, kind: MovementType, quantity: int,
                               occurredAt: int, adjustmentSign: int)

  function Stored(s: Spec, id: int): Movement {
    Movement(id, s.product, s.warehouse, s.kind, s.quantity, s.occurredAt, if s.kind == Adjustment then s.signed else 0)
  }

  predicate ValidRow(m: Movement) {
    m.quantity > 0
    && (if m.kind == Adjustment then m.adjustmentSign == 1 || m.adjustmentSign == -1 else m.adjustmentSign == 0)
  }

  // ----- item ledger -------------------------------------------------------------

  /** item_ledger's `_signed` */
  function Signed(): Movement -> int {
    (m: Movement) => if m.kind == Inbound || m.kind == TransferIn then m.quantity
                     else if m.kind == Outbound || m.kind == TransferOut then -m.quantity
                     else m.quantity * m.adjustmentSign
  }

  /** The ledger's sign rule is the movement's own direction. */
  lemma SignIsDirection(s: Spec, id: int)
    requires ValidSpec(s)
    ensures ValidRow(Stored(s, id)) && Signed()(Stored(s, id)) == s.Direction() * s.quantity
    ensures s.Direction() == 1 || s.Direction() == -1
  {
  }

  /** filter(product_id=...), and warehouse_id when one is given; 0 counts as none. */
  function OfItem(product: int, warehouse: Option<int>): Movement -> bool {
    (m: Movement) =>
      m.product == product && (warehouse == None || warehouse == Some(0) || warehouse == Some(m.warehouse))
  }

  const SECONDS_PER_DAY := 86400

  /** occurred_at__date, with timestamps in seconds. */
  function DayOf(): Movement -> int { (m: Movement) => m.occurredAt / SECONDS_PER_DAY }

  /** A day holds 24 hours of 60 minutes of 60 seconds. */
  lemma DayHolds(m: Movement, day: int)
    ensures DayOf()(m) == day <==> 24 * 60 * 60 * day <= m.occurredAt < 24 * 60 * 60 * (day + 1)
  {
  }

  /** order_by("occurred_at", "id") */
  predicate LedgerOrder(x: Movement, y: Movement) {
    x.occurredAt < y.occurredAt || (x.occurredAt == y.occurredAt && x.id <= y.id)
  }

  /** Quantity from the movements before a day. */
  function QuantityBefore(movements: seq<Movement>, product: int, warehouse: Option<int>, day: int): int {
    Sum(movements, Before(OfItem(product, warehouse), DayOf(), Signed(), day))
  }

  datatype Ledger = Ledger(dateFrom: int, dateTo: int, opening: int, rows: seq<Ran<Movement>>, closing: int)

  datatype LedgerError = ProductNotFound

  /** By time, and by id at the same time. */
  ghost predicate InOrder(items: seq<Movement>) {
    forall i, j :: 0 <= i < j < |items| ==>
      items[i].occurredAt < items[j].occurredAt
      || (items[i].occurredAt == items[j].occurredAt && items[i].id <= items[j].id)
  }

  /** The period's movements in order with running quantity, between the quantities before it and after it. */
  ghost predicate IsItemLedger(movements: seq<Movement>, product: int, warehouse: Option<int>, a: int, b: int,
                               l: Ledger) {
    && l.dateFrom == a && l.dateTo == b
    && l.opening == QuantityBefore(movements, product, warehouse, a)
    && (a <= b + 1 ==> l.closing == QuantityBefore(movements, product, warehouse, b + 1))
    && exists items ::
         && multiset(items) == multiset(Filter(movements, During(OfItem(product, warehouse), DayOf(), a, b)))
         && InOrder(items)
         && RunsFrom(l.opening, items, Signed(), l.rows)
  }

  /** item_ledger; `today` and `newYear` stand for the clock behind the default dates. */
  method ItemLedger(products: set<int>, movements: seq<Movement>, product: int, warehouse: Option<int>,
                    dateFrom: Option<int>, dateTo: Option<int>, today: int, newYear: int)
    returns (r: Result<Ledger, LedgerError>)
    ensures r.Ok? <==> product in products
    ensures r.Ok? ==>
      IsItemLedger(movements, product, warehouse, if dateFrom.Some? then dateFrom.value else newYear,
                   if dateTo.Some? then dateTo.value else today, r.value)
  {
    if product !in products {
      return Err(ProductNotFound);
    }
    hide Sort, Filter, Sum, RunsFrom, IsItemLedger;
    var a := if dateFrom.Some? then dateFrom.value else newYear;
    var b := if dateTo.Some? then dateTo.value else today;
    var mine := OfItem(product, warehouse);
    var opening := Sum(movements, Before(mine, DayOf(), Signed(), a));
    var items := Sort(Filter(movements, During(mine, DayOf(), a, b)), LedgerOrder);
    var rows, closing := Accumulate(opening, items, Signed());
    SortedIsLedger(movements, product, warehouse, items, Ledger(a, b, opening, rows, closing));
    r := Ok(Ledger(a, b, opening, rows, closing));
  }

  lemma LedgerOrderTotal()
    ensures TotalPreorder(LedgerOrder)
  {
  }

  /** The period's movements, sorted and accumulated, make the ledger. */
  lemma SortedIsLedger(movements: seq<Movement>, product: int, warehouse: Option<int>, items: seq<Movement>, l: Ledger)
    requires items
          == Sort(Filter(movements, During(OfItem(product, warehouse), DayOf(), l.dateFrom, l.dateTo)), LedgerOrder)
    requires l.opening == QuantityBefore(movements, product, warehouse, l.dateFrom)
    requires RunsFrom(l.opening, items, Signed(), l.rows) && l.closing == l.opening + Sum(items, Signed())
    ensures IsItemLedger(movements, product, warehouse, l.dateFrom, l.dateTo, l)
  {
    hide Sort, Filter, Sum, RunsFrom, OfItem, Signed, DayOf;
    var mine := OfItem(product, warehouse);
    var chosen := Filter(movements, During(mine, DayOf(), l.dateFrom, l.dateTo));
    LedgerOrderTotal();
    SortPermutes(chosen, LedgerOrder);
    SortSorts(chosen, LedgerOrder);
    SumPermutation(items, chosen, Signed());
    if l.dateFrom <= l.dateTo + 1 {
      PeriodMoves(movements, mine, DayOf(), Signed(), l.dateFrom, l.dateTo);
    }
  }

  function InWarehouses(movements: seq<Movement>, product: int, day: int): int -> int {
    w => QuantityBefore(movements, product, Some(w), day)
  }

  /** The quantity over all warehouses is the sum over the warehouses, however the all-warehouse query is asked. */
  lemma AllWarehouses(movements: seq<Movement>, product: int, day: int, warehouses: seq<int>)
    requires Distinct(warehouses) && 0 !in warehouses
    requires forall m :: m in movements && m.product == product ==> m.warehouse in warehouses
    ensures QuantityBefore(movements, product, None, day) == Sum(warehouses, InWarehouses(movements, product, day))
    ensures QuantityBefore(movements, product, Some(0), day) == QuantityBefore(movements, product, None, day)
  {
    var key := (m: Movement) => m.warehouse;
    var all := Before(OfItem(product, None), DayOf(), Signed(), day);
    SumByGroup(movements, key, warehouses, all, all);
    forall w | w in warehouses
      ensures InWarehouses(movements, product, day)(w) == GroupOf(movements, key, all)(w)
    {
      SumSame(movements, Before(OfItem(product, Some(w)), DayOf(), Signed(), day), KeyIf(key, w, all));
    }
    SumSame(warehouses, InWarehouses(movements, product, day), GroupOf(movements, key, all));
    SumSame(movements, Before(OfItem(product, Some(0)), DayOf(), Signed(), day), all);
  }

  /** A transfer of equal quantity leaves the all-warehouse quantity of the product as it was. */
  lemma TransferNeutral(movements: seq<Movement>, out: Movement, into: Movement, product: int, day: int)
    requires out.kind == TransferOut && into.kind == TransferIn
    requires out.product == into.product && out.quantity == into.quantity
    requires DayOf()(out) < day <==> DayOf()(into) < day
    ensures QuantityBefore(movements + [out, into], product, None, day) == QuantityBefore(movements, product, None, day)
  {
    var effect := Before(OfItem(product, None), DayOf(), Signed(), day);
    SumSnoc(movements, out, effect);
    SumSnoc(movements + [out], into, effect);
    assert movements + [out, into] == movements + [out] + [into];
  }

  // ----- the projection ------------------------------------------------------------

  datatype Key = Key(product: int, warehouse: int)

  function KeyOf(): Movement -> Key { (m: Movement) => Key(m.product, m.warehouse) }

  /** The quantity a (product, warehouse) has by its whole movement log. */
  function LogQuantity(movements: seq<Movement>, key: Key): int {
    GroupSum(movements, KeyOf(), key, Signed())
  }

  datatype Stock = Stock(movements: seq<Movement>, onHand: map<Key, int>)

  datatype StockError = NotStockable | WarehouseNotFound | InsufficientStock | NegativeOnHand

  datatype Env = Env(stockable: set<int>, warehouses: set<int>)

  function OnHand(s: Stock, key: Key): int { if key in s.onHand then s.onHand[key] else 0 }

  /** RecordStockMovement.execute as one transaction. */
  function Record(env: Env, s: Stock, spec: Spec, id: int): Result<Stock, StockError> {
    var key := Key(spec.product, spec.warehouse);
    var delta := if spec.Direction() >= 0 then spec.quantity else -spec.quantity;
    if spec.product !in env.stockable then Err(NotStockable)
    else if spec.warehouse !in env.warehouses then Err(WarehouseNotFound)
    else if OnHand(s, key) + delta < 0 then Err(InsufficientStock)
    else Ok(Stock(s.movements + [Stored(spec, id)], s.onHand[key := OnHand(s, key) + delta]))
  }

  /** Each on-hand row is the non-negative sum of its log, and every logged pair has a row. */
  ghost predicate Projected(s: Stock) {
    && (forall m :: m in s.movements ==> ValidRow(m) && KeyOf()(m) in s.onHand)
    && (forall k :: k in s.onHand ==> s.onHand[k] >= 0 && s.onHand[k] == LogQuantity(s.movements, k))
  }

  lemma UnloggedIsZero(s: Stock, key: Key)
    requires Projected(s)
    ensures OnHand(s, key) == LogQuantity(s.movements, key)
  {
    if key !in s.onHand {
      SumZero(s.movements, KeyIf(KeyOf(), key, Signed()));
    }
  }

  lemma RecordKeepsProjection(env: Env, s: Stock, spec: Spec, id: int)
    requires Projected(s) && ValidSpec(spec) && Record(env, s, spec, id).Ok?
    ensures Projected(Record(env, s, spec, id).value)
  {
    var after, row := Record(env, s, spec, id).value, Stored(spec, id);
    SignIsDirection(spec, id);
    forall k | k in after.onHand
      ensures after.onHand[k] >= 0 && after.onHand[k] == LogQuantity(after.movements, k)
    {
      SumSnoc(s.movements, row, KeyIf(KeyOf(), k, Signed()));
      UnloggedIsZero(s, k);
    }
  }

  datatype Call = Call(spec: Spec, id: int)

  function Run(env: Env, s: Stock, calls: seq<Call>): Stock {
    if calls == [] then s
    else
      var before := Run(env, s, calls[..|calls| - 1]);
      match Record(env, before, calls[|calls| - 1].spec, calls[|calls| - 1].id)
      case Ok(after) => after
      case Err(_) => before
  }

  /** Over every run of recorded and refused movements the projection agrees with the log and is never negative. */
  lemma {:induction false} RunKeepsProjection(env: Env, s: Stock, calls: seq<Call>)
    requires Projected(s) && forall c :: c in calls ==> ValidSpec(c.spec)
    ensures Projected(Run(env, s, calls))
  {
    hide Projected, Record;
    if calls != [] {
      RunKeepsProjection(env, s, calls[..|calls| - 1]);
      var before, last := Run(env, s, calls[..|calls| - 1]), calls[|calls| - 1];
      if Record(env, before, last.spec, last.id).Ok? {
        RecordKeepsProjection(env, before, last.spec, last.id);
      }
    }
  }

  /** A movement is accepted exactly when its product and warehouse exist and the stock does not go negative. */
  lemma RecordAcceptedIff(env: Env, s: Stock, spec: Spec, id: int)
    requires Projected(s) && ValidSpec(spec)
    ensures var key := Key(spec.product, spec.warehouse);
      Record(env, s, spec, id).Ok? <==>
        spec.product in env.stockable && spec.warehouse in env.warehouses
        && LogQuantity(s.movements, key) + spec.Direction() * spec.quantity >= 0
  {
    UnloggedIsZero(s, Key(spec.product, spec.warehouse));
    SignIsDirection(spec, id);
  }

  /** Once every movement of a pair is past, its item ledger closes at the on-hand quantity. */
  lemma LedgerClosesAtOnHand(s: Stock, product: int, warehouse: int, day: int)
    requires Projected(s) && warehouse != 0
    requires forall m :: m in s.movements ==> DayOf()(m) < day
    ensures QuantityBefore(s.movements, product, Some(warehouse), day) == OnHand(s, Key(product, warehouse))
  {
    UnloggedIsZero(s, Key(product, warehouse));
    LedgerClosesAtLog(s.movements, product, warehouse, day);
  }

  lemma LedgerClosesAtLog(movements: seq<Movement>, product: int, warehouse: int, day: int)
    requires warehouse != 0 && forall m :: m in movements ==> DayOf()(m) < day
    ensures QuantityBefore(movements, product, Some(warehouse), day) == LogQuantity(movements, Key(product, warehouse))
  {
    SumSame(movements, Before(OfItem(product, Some(warehouse)), DayOf(), Signed(), day),
            KeyIf(KeyOf(), Key(product, warehouse), Signed()));
  }

  // ----- the rebuild ---------------------------------------------------------------

  /** The rebuild's CASE: only INBOUND adds, every other type subtracts. */
  function RebuildSign(): Movement -> int {
    (m: Movement) => if m.kind == Inbound then m.quantity else -m.quantity
  }

  function RebuildQuantity(movements: seq<Movement>, key: Key): int {
    GroupSum(movements, KeyOf(), key, RebuildSign())
  }

  function Keys(movements: seq<Movement>): seq<Key> {
    if movements == [] then [] else [KeyOf()(movements[0])] + Keys(movements[1..])
  }

  lemma {:induction false} KeysAre(movements: seq<Movement>)
    ensures forall k :: k in Keys(movements) <==> exists m :: m in movements && KeyOf()(m) == k
  {
    if movements != [] {
      KeysAre(movements[1..]);
      assert movements == [movements[0]] + movements[1..];
    }
  }

  /** The rebuilt table: a row per logged pair, other rows kept. */
  function Rebuilt(s: Stock): map<Key, int> {
    s.onHand + map k | k in Keys(s.movements) :: RebuildQuantity(s.movements, k)
  }

  /** The table the rebuild documents: each pair's signed quantities summed. */
  function DocumentedRebuild(s: Stock): map<Key, int> {
    s.onHand + map k | k in Keys(s.movements) :: LogQuantity(s.movements, k)
  }

  predicate RebuildAccepted(s: Stock) {
    forall k :: k in Keys(s.movements) ==> RebuildQuantity(s.movements, k) >= 0
  }

  class StockStore {
    const env: Env
    var movements: seq<Movement>
    var onHand: map<Key, int>

    constructor (env: Env)
      ensures this.env == env && Current() == Stock([], map[])
    {
      this.env, movements, onHand := env, [], map[];
    }

    function Current(): Stock
      reads this
    {
      Stock(movements, onHand)
    }

    /** RecordStockMovement.execute: find or create the row, check, append the movement, write the quantity. */
    method RecordMovement(spec: Spec, id: int) returns (r: Result<int, StockError>)
      modifies this`movements, this`onHand
      ensures match Record(env, old(Current()), spec, id)
              case Ok(after) => Current() == after && r == Ok(after.onHand[Key(spec.product, spec.warehouse)])
              case Err(e) => Current() == old(Current()) && r == Err(e)
    {
      if spec.product !in env.stockable {
        return Err(NotStockable);
      }
      if spec.warehouse !in env.warehouses {
        return Err(WarehouseNotFound);
      }
      var key, savepoint := Key(spec.product, spec.warehouse), onHand;
      if key !in onHand {
        onHand := onHand[key := 0];
      }
      var newQty := onHand[key] + if spec.Direction() >= 0 then spec.quantity else -spec.quantity;
      if newQty < 0 {
        onHand := savepoint;
        return Err(InsufficientStock);
      }
      movements := movements + [Stored(spec, id)];
      onHand := onHand[key := newQty];
      r := Ok(newQty);
    }

    /** rebuild_stock_on_hand: update or create each pair's row in one transaction; the database refuses a
        negative quantity, and then nothing changes. */
    method Rebuild() returns (r: Result<(nat, nat), StockError>)
      modifies this`onHand
      ensures RebuildAccepted(old(Current())) ==>
        onHand == Rebuilt(old(Current())) && r.Ok? && r.value.1 == |onHand| - |old(onHand)|
        && r.value.0 + r.value.1 == |Dedup(Keys(movements))|
      ensures !RebuildAccepted(old(Current())) ==> onHand == old(onHand) && r == Err(NegativeOnHand)
    {
      hide RebuildQuantity, Keys, Dedup;
      var updated, created := 0, 0;
      var savepoint := onHand;
      var keys := Dedup(Keys(movements));
      DedupDistinct(Keys(movements));
      for i := 0 to |keys|
        invariant Overlaid(movements, savepoint, keys[..i], onHand)
        invariant updated + created == i && created == |onHand| - |savepoint|
        invariant forall k :: k in keys[..i] ==> RebuildQuantity(movements, k) >= 0
      {
        var k := keys[i];
        var net := RebuildQuantity(movements, k);
        if net < 0 {
          assert k in keys;
          onHand := savepoint;
          return Err(NegativeOnHand);
        }
        if k in onHand {
          updated := updated + 1;
        } else {
          created := created + 1;
        }
        assert keys[..i + 1] == keys[..i] + [k];
        Grow(onHand, k, net);
        onHand := onHand[k := net];
      }
      assert keys[..|keys|] == keys;
      OverlaidIsRebuilt(old(Current()), keys, onHand);
      r := Ok((updated, created));
    }
  }

  /** The rows after some of the pairs have been written. */
  ghost predicate Overlaid(movements: seq<Movement>, before: map<Key, int>, written: seq<Key>, after: map<Key, int>) {
    && (forall k :: k in after <==> k in before || k in written)
    && (forall k :: k in after ==> after[k] == if k in written then RebuildQuantity(movements, k) else before[k])
  }

  lemma OverlaidIsRebuilt(s: Stock, keys: seq<Key>, after: map<Key, int>)
    requires (forall k :: k in keys <==> k in Keys(s.movements)) && Overlaid(s.movements, s.onHand, keys, after)
    ensures after == Rebuilt(s)
  {
    hide RebuildQuantity, Keys;
  }

  lemma Grow(m: map<Key, int>, k: Key, v: int)
    ensures |m[k := v]| == |m| + if k in m then 0 else 1
  {
    assert m[k := v].Keys == m.Keys + {k};
    assert |m[k := v].Keys| == |m[k := v]| && |m.Keys| == |m|;
  }

  function Lost(): Movement -> int {
    (m: Movement) => if m.kind == TransferIn || (m.kind == Adjustment && m.adjustmentSign == 1) then m.quantity else 0
  }

  /** The rebuild undercounts each pair by twice its incoming transfers and positive adjustments. */
  lemma {:induction false} RebuildUndercounts(movements: seq<Movement>, key: Key)
    requires forall m :: m in movements ==> ValidRow(m)
    ensures RebuildQuantity(movements, key) == LogQuantity(movements, key)
            - 2 * GroupSum(movements, KeyOf(), key, Lost())
  {
    if movements != [] {
      RebuildUndercounts(movements[1..], key);
      assert movements[0] in movements;
    }
  }

  /** The rebuild agrees with the log on every pair exactly when the log has no incoming transfer and no
      positive adjustment. */
  lemma RebuildFaithfulIff(movements: seq<Movement>)
    requires forall m :: m in movements ==> ValidRow(m)
    ensures (forall key :: RebuildQuantity(movements, key) == LogQuantity(movements, key))
        <==> forall m :: m in movements ==> Lost()(m) == 0
  {
    hide RebuildQuantity, LogQuantity;
    if forall m :: m in movements ==> Lost()(m) == 0 {
      forall key
        ensures RebuildQuantity(movements, key) == LogQuantity(movements, key)
      {
        RebuildUndercounts(movements, key);
        SumZero(movements, KeyIf(KeyOf(), key, Lost()));
      }
    }
    if forall key :: RebuildQuantity(movements, key) == LogQuantity(movements, key) {
      forall m | m in movements
        ensures Lost()(m) == 0
      {
        var key := KeyOf()(m);
        RebuildUndercounts(movements, key);
        SumNonNegative(movements, KeyIf(KeyOf(), key, Lost()));
        assert KeyIf(KeyOf(), key, Lost())(m) == Lost()(m);
      }
    }
  }

  /** On a stock kept by recorded movements, a faithful rebuild is accepted and changes no row. */
  lemma FaithfulRebuildChangesNothing(s: Stock)
    requires Projected(s) && forall m :: m in s.movements ==> Lost()(m) == 0
    ensures RebuildAccepted(s) && Rebuilt(s) == s.onHand
  {
    hide RebuildQuantity, LogQuantity;
    RebuildFaithfulIff(s.movements);
    KeysAre(s.movements);
    forall k | k in Keys(s.movements)
      ensures k in s.onHand && RebuildQuantity(s.movements, k) == s.onHand[k]
    {
      var m :| m in s.movements && KeyOf()(m) == k;
    }
  }

  /** The documented rebuild writes each pair's item-ledger closing quantity and leaves a recorded stock as it is;
      the rebuild as written gives that table exactly when no movement is lost. */
  lemma DocumentedRebuildIs(s: Stock, day: int)
    requires forall m :: m in s.movements ==> ValidRow(m) && DayOf()(m) < day
    ensures forall k :: k in Keys(s.movements) && k.warehouse != 0 ==>
              DocumentedRebuild(s)[k] == QuantityBefore(s.movements, k.product, Some(k.warehouse), day)
    ensures Projected(s) ==> DocumentedRebuild(s) == s.onHand
    ensures Rebuilt(s) == DocumentedRebuild(s) <==> forall m :: m in s.movements ==> Lost()(m) == 0
  {
    hide RebuildQuantity, LogQuantity, QuantityBefore, Keys, Lost;
    KeysAre(s.movements);
    RebuildFaithfulIff(s.movements);
    forall k | k in Keys(s.movements) && k.warehouse != 0
      ensures LogQuantity(s.movements, k) == QuantityBefore(s.movements, k.product, Some(k.warehouse), day)
    {
      LedgerClosesAtLog(s.movements, k.product, k.warehouse, day);
    }
    if Rebuilt(s) == DocumentedRebuild(s) {
      forall key
        ensures RebuildQuantity(s.movements, key) == LogQuantity(s.movements, key)
      {
        if key in Keys(s.movements) {
          assert Rebuilt(s)[key] == DocumentedRebuild(s)[key];
        } else {
          UnloggedSums(s.movements, key);
        }
      }
    }
  }

  lemma UnloggedSums(movements: seq<Movement>, key: Key)
    requires key !in Keys(movements)
    ensures RebuildQuantity(movements, key) == 0 && LogQuantity(movements, key) == 0
  {
    KeysAre(movements);
    SumZero(movements, KeyIf(KeyOf(), key, RebuildSign()));
    SumZero(movements, KeyIf(KeyOf(), key, Signed()));
  }

  /** Rebuilding twice is rebuilding once. */
  lemma RebuildIdempotent(s: Stock)
    ensures RebuildAccepted(s) <==> RebuildAccepted(Stock(s.movements, Rebuilt(s)))
    ensures Rebuilt(Stock(s.movements, Rebuilt(s))) == Rebuilt(s)
  {
  }

  /** Ten received and three found in a count: the log says 13, the rebuild stores 7. */
  lemma RebuildMiscounts()
    ensures var log := [Movement(1, 1, 1, Inbound, 10, 0, 0), Movement(2, 1, 1, Adjustment, 3, 1, 1)];
      LogQuantity(log, Key(1, 1)) == 13 && RebuildQuantity(log, Key(1, 1)) == 7
  {
    var x, y := Movement(1, 1, 1, Inbound, 10, 0, 0), Movement(2, 1, 1, Adjustment, 3, 1, 1);
    assert [x, y] == [x] + [y];
    SumSnoc([x], y, KeyIf(KeyOf(), Key(1, 1), Signed()));
    SumSnoc([x], y, KeyIf(KeyOf(), Key(1, 1), RebuildSign()));
    SumOne(x, KeyIf(KeyOf(), Key(1, 1), Signed()));
    SumOne(x, KeyIf(KeyOf(), Key(1, 1), RebuildSign()));
  }
}
