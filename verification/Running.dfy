/** The running-balance loop shared by the ledgers and statements. */
module Running {
  import opened Sorting
  import opened Sums

  /** An entry of a report with the balance after it. */
  datatype Ran<T> = Ran(item: T, balance: int)

  /** The report lists the items in order, each with the opening balance plus every movement up to it. */
  ghost predicate RunsFrom<T>(opening: int, items: seq<T>, delta: T -> int, lines: seq<Ran<T>>) {
    && |lines| == |items|
    && forall i :: 0 <= i < |items| ==>
         lines[i].item == items[i] && lines[i].balance == opening + Sum(items[..i + 1], delta)
  }

  method Accumulate<T>(opening: int, items: seq<T>, delta: T -> int) returns (lines: seq<Ran<T>>, closing: int)
    ensures RunsFrom(opening, items, delta, lines)
    ensures closing == opening + Sum(items, delta)
  {
    lines := [];
    var running := opening;
    for i := 0 to |items|
      invariant running == opening + Sum(items[..i], delta)
      invariant |lines| == i
      invariant forall j :: 0 <= j < i ==>
                  lines[j].item == items[j] && lines[j].balance == opening + Sum(items[..j + 1], delta)
    {
      SumTake(items, i, delta);
      running := running + delta(items[i]);
      lines := lines + [Ran(items[i], running)];
    }
    assert items[..|items|] == items;
    closing := running;
  }

  /** What a row counts for in the balance of everything dated before d. */
  function Before<T>(mine: T -> bool, date: T -> int, effect: T -> int, d: int): T -> int {
    x => if mine(x) && date(x) < d then effect(x) else 0
  }

  /** The rows a period query selects. */
  function During<T>(mine: T -> bool, date: T -> int, a: int, b: int): T -> bool {
    x => mine(x) && a <= date(x) <= b
  }

  /** The period's rows move the balance from what stood before it to what stands after it. */
  lemma {:induction false} PeriodMoves<T>(rows: seq<T>, mine: T -> bool, date: T -> int, effect: T -> int, a: int,
                                          b: int)
    requires a <= b + 1
    ensures Sum(Filter(rows, During(mine, date, a, b)), effect)
         == Sum(rows, Before(mine, date, effect, b + 1)) - Sum(rows, Before(mine, date, effect, a))
  {
    if rows != [] {
      PeriodMoves(rows[1..], mine, date, effect, a, b);
      SumOne(rows[0], effect);
      SumConcat(if During(mine, date, a, b)(rows[0]) then [rows[0]] else [],
                Filter(rows[1..], During(mine, date, a, b)), effect);
    }
  }
}
