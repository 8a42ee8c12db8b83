/** The dispatch cap over runs of many workers. */
module Budget {
  import opened Wrappers
  import opened Schema
  import opened Topology
  import opened Semantics
  import opened Store
  import opened Frontier
  import opened Dispatch
  import opened Retry
  import opened Replay
  import opened Jobs
  import opened Settling
  import opened Moves
  import opened Workers

  /** What a move leaves handed out and not yet claimed. */
  ghost function OwedAfter(sys: System, move: Move, owed: set<string>): set<string> {
    match move
    case Return(w, count) =>
      if PhaseOf(sys, w).Settling? && count <= |PhaseOf(sys, w).ready| then
        owed + (set i | 0 <= i < count :: PhaseOf(sys, w).ready[i])
      else owed
    case Claim(_, id, _) => owed - {id}
    case _ => owed
  }

  ghost function Owed(run: seq<System>, moves: seq<Move>, k: nat): set<string>
    requires |run| == |moves| + 1 && k <= |moves|
  {
    if k == 0 then {} else OwedAfter(run[k - 1], moves[k - 1], Owed(run, moves, k - 1))
  }

  ghost predicate NobodySettling(sys: System) {
    forall w {:trigger PhaseOf(sys, w)} :: !PhaseOf(sys, w).Settling?
  }

  /**
   * An advance begins with nothing owed a claim and no other under way, and hands out what there is room for. Whatever
   * executions end in, and whoever crashes, nothing else is asked.
   */
  ghost predicate Orderly(sys: System, move: Move, owed: set<string>, cap: nat) {
    match move
    case Read(_, _, _) => owed == {} && NobodySettling(sys)
    case Return(w, count) =>
      PhaseOf(sys, w).Settling? ==> count <= |SelectDispatch(PhaseOf(sys, w).ready, sys.rows, cap)|
    case Claim(w, id, _) => id in owed || id in sys.rows
    case _ => true
  }

  ghost predicate OneAtATime(run: seq<System>, moves: seq<Move>, cap: nat)
    requires |run| == |moves| + 1
  {
    forall k {:trigger moves[k]} :: 0 <= k < |moves| ==> Orderly(run[k], moves[k], Owed(run, moves, k), cap)
  }

  /** One advance at most is under way, and then nothing is owed; held and owed together are within the cap. */
  ghost predicate Within(sys: System, owed: set<string>, cap: nat) {
    && HeldCount(sys.rows) + |owed| <= cap
    && (forall w {:trigger PhaseOf(sys, w)} :: PhaseOf(sys, w).Settling? ==> owed == {})
    && (forall v, w {:trigger PhaseOf(sys, v), PhaseOf(sys, w)} ::
          PhaseOf(sys, v).Settling? && PhaseOf(sys, w).Settling? ==> v == w)
  }

  lemma FewerHeld(before: Rows, after: Rows)
    requires forall id :: id in HeldIds(after) ==> id in HeldIds(before)
    ensures HeldCount(after) <= HeldCount(before)
  {
    hide HeldIds;
    SubsetSize(HeldIds(after), HeldIds(before));
  }

  lemma OneMoreHeld(before: Rows, after: Rows, id: string)
    requires forall x :: x in HeldIds(after) ==> x in HeldIds(before) || x == id
    ensures HeldCount(after) <= HeldCount(before) + 1
  {
    hide HeldIds;
    SubsetSize(HeldIds(after), HeldIds(before) + {id});
  }

  /** A move that hands out nothing and starts no advance, and holds nothing new. */
  lemma StaysWithin(sys: System, after: System, owed: set<string>, cap: nat)
    requires Within(sys, owed, cap) && HeldCount(after.rows) <= HeldCount(sys.rows)
    requires forall w {:trigger PhaseOf(after, w)} ::
      PhaseOf(after, w).Settling? ==> PhaseOf(sys, w).Settling?
    ensures Within(after, owed, cap)
  {
    hide HeldIds;
  }

  lemma ReturnWithin(sys: System, w: string, count: nat, owed: set<string>, cap: nat)
    requires cap > 0 && Within(sys, owed, cap) && PhaseOf(sys, w).Settling? && count <= |PhaseOf(sys, w).ready|
    requires count <= |SelectDispatch(PhaseOf(sys, w).ready, sys.rows, cap)|
    ensures Within(DoReturn(sys, w, count), OwedAfter(sys, Return(w, count), owed), cap)
  {
    hide HeldIds;
    var ready, after := PhaseOf(sys, w).ready, DoReturn(sys, w, count);
    AtMost(ready, count);
    forall v ensures !PhaseOf(after, v).Settling? {
      assert v != w ==> PhaseOf(after, v) == PhaseOf(sys, v);
    }
  }

  lemma {:induction false} AtMost(ids: seq<string>, count: nat)
    requires count <= |ids|
    ensures |(set i | 0 <= i < count :: ids[i])| <= count
  {
    var all := set i | 0 <= i < count :: ids[i];
    if count > 0 {
      AtMost(ids, count - 1);
      assert all == (set i | 0 <= i < count - 1 :: ids[i]) + {ids[count - 1]};
    } else {
      assert all == {};
    }
  }

  lemma ClaimWithin(sys: System, w: string, id: string, now: int, owed: set<string>, cap: nat)
    requires Within(sys, owed, cap) && PhaseOf(sys, w).Free? && (id in owed || id in sys.rows)
    ensures Within(DoClaim(sys, w, id, now), owed - {id}, cap)
  {
    var after := DoClaim(sys, w, id, now);
    forall v ensures PhaseOf(after, v).Settling? ==> PhaseOf(sys, v) == PhaseOf(after, v) {
      assert PhaseOf(sys, v) == PhaseOf(after, v) || v == w;
    }
    if id in sys.rows {
      FewerHeld(sys.rows, after.rows);
      SubsetSize(owed - {id}, owed);
    } else {
      OneMoreHeld(sys.rows, after.rows, id);
    }
  }

  lemma FinishHolds(rows: Rows, id: string, ending: Ending, last: bool)
    requires id in rows && rows[id].status.Claimed?
    ensures HeldCount(Finish(rows, id, ending, last)) <= HeldCount(rows)
  {
    FewerHeld(rows, Finish(rows, id, ending, last));
  }

  lemma ReadWithin(sys: System, w: string, ready: seq<string>, skipped: seq<string>, cap: nat)
    requires Within(sys, {}, cap) && NobodySettling(sys)
    ensures Within(Put(sys, w, Phase.Settling(sys.rows, ready, skipped, 0, [])), {}, cap)
  {
    hide HeldIds;
    var after := Put(sys, w, Phase.Settling(sys.rows, ready, skipped, 0, []));
    forall v ensures PhaseOf(after, v).Settling? ==> v == w { assert !PhaseOf(sys, v).Settling?; }
  }

  lemma StepWithin(s: Setup, retry: RetryPolicy, sys: System, move: Move, owed: set<string>, cap: nat)
    requires cap > 0 && Safe(s.graph, sys) && Enabled(s.graph, sys, move)
    requires Within(sys, owed, cap) && Orderly(sys, move, owed, cap)
    ensures Within(After(s, retry, sys, move), OwedAfter(sys, move, owed), cap)
  {
    hide Safe, Answers, Within, Finish, AfterSkip, TriesOf, HeldIds, DoReturn, DoClaim, NobodySettling, SelectDispatch;
    var after := After(s, retry, sys, move);
    match move
    case Read(w, ready, skipped) =>
      ReadWithin(sys, w, ready, skipped, cap);
    case Skip(w) =>
      SkipHolds(sys.rows, PhaseOf(sys, w).skipped[PhaseOf(sys, w).next]);
      StaysWithin(sys, after, owed, cap);
    case Return(w, count) =>
      ReturnWithin(sys, w, count, owed, cap);
    case Claim(w, id, now) =>
      ClaimWithin(sys, w, id, now, owed, cap);
    case Load(w) =>
      StaysWithin(sys, after, owed, cap);
    case Write(w, ending) =>
      JobInOrder(s.graph, sys, w);
      var p := PhaseOf(sys, w);
      FinishHolds(sys.rows, p.node, ending, IsLastTry(TriesOf(s, retry, p.node), p.snapshot, p.node));
      StaysWithin(sys, after, owed, cap);
    case Crash(w) =>
      StaysWithin(sys, after, owed, cap);
    case Release(id) =>
      ReleaseHolds(sys.rows, id);
      StaysWithin(sys, after, owed, cap);
  }

  lemma SkipHolds(rows: Rows, id: string)
    ensures HeldCount(AfterSkip(rows, id)) <= HeldCount(rows)
  {
    FewerHeld(rows, AfterSkip(rows, id));
  }

  lemma ReleaseHolds(rows: Rows, id: string)
    ensures HeldCount(rows - {id}) <= HeldCount(rows)
  {
    FewerHeld(rows, rows - {id});
  }

  /** Over any such run, what is held and what is owed together stay within the cap. */
  lemma {:induction false} CapHolds(s: Setup, retry: RetryPolicy, run: seq<System>, moves: seq<Move>, cap: nat, k: nat)
    requires UniqueIds(s.graph) && IsRun(s, retry, run, moves) && k < |run|
    requires cap > 0 && OneAtATime(run, moves, cap)
    ensures HeldCount(run[k].rows) + |Owed(run, moves, k)| <= cap
    ensures Within(run[k], Owed(run, moves, k), cap)
  {
    hide Safe, Enabled, After, UniqueIds, Orderly, OwedAfter;
    if k > 0 {
      var last := k - 1;
      CapHolds(s, retry, run, moves, cap, last);
      RunSafe(s, retry, run, moves, last);
      assert run[last + 1] == After(s, retry, run[last], moves[last]);
      StepWithin(s, retry, run[last], moves[last], Owed(run, moves, last), cap);
    } else {
      NothingHeldYet();
    }
  }

  lemma NothingHeldYet()
    ensures HeldCount(Start().rows) == 0
  {
    assert HeldIds(Start().rows) == {};
  }
}
