/** How many of a run's nodes may be held at once, and which ready ones go next. */
module Dispatch {
  import opened Wrappers
  import opened Store
  import opened Topology
  import opened Frontier

  /** The limit that hands out the whole ready frontier. */
  const UNLIMITED_CONCURRENCY := 0

  /** A validated limit, `None` for the refusal. `widest` is the target's largest machine size. */
  function CheckMaxConcurrent(value: int, widest: nat): (r: Option<nat>)
    ensures r.None? <==> value < 0
    ensures value == UNLIMITED_CONCURRENCY ==> r == Some(0)
    ensures value > 0 && widest > 0 ==> 0 < r.value <= value
  {
    if value < 0 then None else if value <= widest then Some(value) else Some(widest)
  }

  function HeldCount(rows: Rows): nat {
    |HeldIds(rows)|
  }

  function Room(rows: Rows, maxConcurrent: nat): nat {
    if HeldCount(rows) < maxConcurrent then maxConcurrent - HeldCount(rows) else 0
  }

  /** As many of the ready nodes as there is room for, from the front. */
  function SelectDispatch(ready: seq<string>, rows: Rows, maxConcurrent: nat): (r: seq<string>)
    ensures r <= ready
    ensures maxConcurrent == 0 ==> r == ready
    ensures maxConcurrent > 0 ==> |r| + HeldCount(rows) <= maxConcurrent || r == []
    ensures maxConcurrent > 0 ==> r == ready || |r| + HeldCount(rows) >= maxConcurrent
  {
    if maxConcurrent == 0 then ready
    else if Room(rows, maxConcurrent) < |ready| then ready[..Room(rows, maxConcurrent)]
    else ready
  }

  // ---- the budget over whole runs ---------------------------------------------------------------------

  /** One move of a driver that claims all it was handed before it asks again: a batch, or work coming back. */
  ghost predicate DriverStep(before: Rows, after: Rows, maxConcurrent: nat) {
    exists ready: seq<string> ::
      Once(ready) && forall id :: id in HeldIds(after) ==>
        id in HeldIds(before) || id in SelectDispatch(ready, before, maxConcurrent)
  }

  /** Such a driver never exceeds a positive cap it started within. */
  lemma {:induction false} BudgetHolds(run: seq<Rows>, maxConcurrent: nat, k: nat)
    requires maxConcurrent > 0 && k < |run| && HeldCount(run[0]) <= maxConcurrent
    requires forall i :: 0 <= i < |run| - 1 ==> DriverStep(run[i], run[i + 1], maxConcurrent)
    ensures HeldCount(run[k]) <= maxConcurrent
  {
    if k > 0 {
      BudgetHolds(run, maxConcurrent, k - 1);
      var before, after := run[k - 1], run[k];
      assert DriverStep(run[k - 1], run[k - 1 + 1], maxConcurrent);
      var ready: seq<string> :| Once(ready) && forall id :: id in HeldIds(after) ==>
        id in HeldIds(before) || id in SelectDispatch(ready, before, maxConcurrent);
      BatchFits(before, after, ready, maxConcurrent);
    }
  }

  lemma BatchFits(before: Rows, after: Rows, ready: seq<string>, maxConcurrent: nat)
    requires maxConcurrent > 0 && HeldCount(before) <= maxConcurrent && Once(ready)
    requires forall id :: id in HeldIds(after) ==>
      id in HeldIds(before) || id in SelectDispatch(ready, before, maxConcurrent)
    ensures HeldCount(after) <= maxConcurrent
  {
    hide HeldIds;
    var batch := SelectDispatch(ready, before, maxConcurrent);
    var ids := set i | 0 <= i < |batch| :: batch[i];
    DistinctSize(batch);
    SubsetSize(HeldIds(after), HeldIds(before) + ids);
  }
}
