/** Runs of many workers over one store. */
module Workers {
  import opened Wrappers
  import opened Values
  import opened Schema
  import opened Topology
  import opened Store
  import opened Frontier
  import opened Checkpoints
  import opened Replay
  import opened Retry
  import opened Semantics
  import opened Jobs
  import opened Settling
  import opened Moves
  import opened Ledgers

  // ---- whole runs -------------------------------------------------------------------------------------------

  /** Each system after the first comes from the one before it by the move between them. */
  ghost predicate IsRun(s: Setup, retry: RetryPolicy, run: seq<System>, moves: seq<Move>) {
    && |run| == |moves| + 1 && run[0] == Start()
    && forall i {:trigger moves[i]} :: 0 <= i < |moves| ==>
         Enabled(s.graph, run[i], moves[i]) && run[i + 1] == After(s, retry, run[i], moves[i])
  }

  lemma StartSafe(g: Graph)
    ensures Safe(g, Start())
  {
  }

  lemma {:induction false} RunSafe(s: Setup, retry: RetryPolicy, run: seq<System>, moves: seq<Move>, k: nat)
    requires UniqueIds(s.graph) && IsRun(s, retry, run, moves) && k < |run|
    ensures Safe(s.graph, run[k])
  {
    hide Safe, Enabled, After, UniqueIds;
    StartSafe(s.graph);
    if k > 0 {
      RunSafe(s, retry, run, moves, k - 1);
      assert run[k - 1 + 1] == After(s, retry, run[k - 1], moves[k - 1]);
      StepSafe(s, retry, run[k - 1], moves[k - 1]);
    }
  }

  /** Over any run, no settled row ever changes. */
  lemma {:induction false} SettledForever(
      s: Setup, retry: RetryPolicy, run: seq<System>, moves: seq<Move>, i: nat, j: nat)
    requires UniqueIds(s.graph) && IsRun(s, retry, run, moves) && i <= j < |run|
    ensures Later(run[i].rows, run[j].rows)
    decreases j
  {
    hide Safe, Enabled, After, UniqueIds;
    LaterRefl(run[i].rows);
    if i < j {
      SettledForever(s, retry, run, moves, i, j - 1);
      RunSafe(s, retry, run, moves, j - 1);
      assert run[j - 1 + 1] == After(s, retry, run[j - 1], moves[j - 1]);
      StepSafe(s, retry, run[j - 1], moves[j - 1]);
      LaterTrans(run[i].rows, run[j - 1].rows, run[j].rows);
    }
  }

  /**
   * Whatever the workers do in between, a later look at the frontier agrees with an earlier one: what was skipped is
   * not handed out, what was ready is not skipped, and is still ready until it has a row.
   */
  lemma DecisionsHold(
      s: Setup, retry: RetryPolicy, run: seq<System>, moves: seq<Move>, i: nat, j: nat,
      ready: seq<string>, skipped: seq<string>, ready2: seq<string>, skipped2: seq<string>, id: string)
    requires UniqueIds(s.graph) && IsRun(s, retry, run, moves) && i <= j < |run|
    requires Answers(s.graph, run[i].rows, ready, skipped) && Answers(s.graph, run[j].rows, ready2, skipped2)
    ensures id in skipped ==> id !in ready2
    ensures id in ready ==> id !in skipped2
    ensures id in ready && id !in run[j].rows ==> id in ready2
  {
    hide Enabled, After, UniqueIds, IsRun, Answers, Legit, Later;
    assert j < |run|;
    RunSafe(s, retry, run, moves, j);
    SettledForever(s, retry, run, moves, i, j);
    DecisionsStable(s.graph, run[i].rows, run[j].rows, ready, skipped, ready2, skipped2, id);
  }

  /** Move `i` checkpoints an output for `id`. */
  predicate CompletesAt(run: seq<System>, moves: seq<Move>, i: nat, id: string)
    requires |run| == |moves| + 1
  {
    && i < |moves| && moves[i].Write? && moves[i].ending.Produced?
    && PhaseOf(run[i], moves[i].worker).Replaying? && PhaseOf(run[i], moves[i].worker).node == id
  }

  lemma WriteCompletes(s: Setup, retry: RetryPolicy, sys: System, w: string, ending: Ending)
    requires PhaseOf(sys, w).Replaying? && ending.Produced?
    ensures Settled(DoWrite(s, retry, sys, w, ending).rows, PhaseOf(sys, w).node)
  {
    hide TriesOf;
  }

  /** Where a node is settled, no job holds it. */
  lemma NoJobOnSettled(g: Graph, sys: System, w: string)
    requires Safe(g, sys) && PhaseOf(sys, w).Replaying?
    ensures !Settled(sys.rows, PhaseOf(sys, w).node)
  {
    hide Legit, Startable;
    assert PhaseOk(g, sys.rows, w, PhaseOf(sys, w));
  }

  /** No node completes twice. */
  lemma CompletesOnce(s: Setup, retry: RetryPolicy, run: seq<System>, moves: seq<Move>, i: nat, j: nat, id: string)
    requires UniqueIds(s.graph) && IsRun(s, retry, run, moves)
    requires CompletesAt(run, moves, i, id) && CompletesAt(run, moves, j, id) && i <= j
    ensures i == j
  {
    hide Safe, Enabled, UniqueIds, Settled, DoWrite;
    RunSafe(s, retry, run, moves, j);
    NoJobOnSettled(s.graph, run[j], moves[j].worker);
    WriteCompletes(s, retry, run[i], moves[i].worker, moves[i].ending);
    assert run[i + 1] == After(s, retry, run[i], moves[i]);
    if i < j { SettledThen(s, retry, run, moves, i + 1, j, id); }
  }

  lemma SettledThen(
      s: Setup, retry: RetryPolicy, run: seq<System>, moves: seq<Move>, i: nat, j: nat, id: string)
    requires UniqueIds(s.graph) && IsRun(s, retry, run, moves) && i <= j < |run| && Settled(run[i].rows, id)
    ensures Settled(run[j].rows, id)
  {
    hide Enabled, After, UniqueIds, IsRun;
    assert j < |run|;
    SettledForever(s, retry, run, moves, i, j);
  }

  // ---- claims over a run --------------------------------------------------------------------------------------

  /** Unless its row is dropped, a node keeps its owner and its retry clock through every move. */
  lemma OwnerKept(s: Setup, retry: RetryPolicy, sys: System, move: Move, id: string)
    requires Enabled(s.graph, sys, move) && id in sys.rows
    ensures var after := After(s, retry, sys, move).rows;
      if move == Release(id) then id !in after
      else id in after && after[id].owner == sys.rows[id].owner && after[id].firstAttemptAt == sys.rows[id].firstAttemptAt
  {
    hide TriesOf, Answers;
  }

  /** Between two releases, over any run, a row keeps its owner and its retry clock. */
  lemma {:induction false} OwnerHeld(
      s: Setup, retry: RetryPolicy, run: seq<System>, moves: seq<Move>, i: nat, j: nat, id: string)
    requires IsRun(s, retry, run, moves) && i <= j < |run| && id in run[i].rows
    requires forall k :: i <= k < j ==> moves[k] != Release(id)
    ensures id in run[j].rows
    ensures run[j].rows[id].owner == run[i].rows[id].owner
    ensures run[j].rows[id].firstAttemptAt == run[i].rows[id].firstAttemptAt
    decreases j
  {
    hide Enabled, After;
    if i < j {
      OwnerHeld(s, retry, run, moves, i, j - 1, id);
      assert run[j - 1 + 1] == After(s, retry, run[j - 1], moves[j - 1]);
      OwnerKept(s, retry, run[j - 1], moves[j - 1], id);
    }
  }

  // ---- what is counted ------------------------------------------------------------------------------------------

  /** However many advances race on however stale snapshots, no skip is announced twice. */
  lemma {:induction false} ToldOnce(s: Setup, retry: RetryPolicy, run: seq<System>, moves: seq<Move>, k: nat)
    requires UniqueIds(s.graph) && IsRun(s, retry, run, moves) && k < |run|
    ensures Announced(run[k]) && Once(run[k].told)
  {
    hide Safe, Enabled, After, UniqueIds, Settled, Later;
    if k > 0 {
      ToldOnce(s, retry, run, moves, k - 1);
      RunSafe(s, retry, run, moves, k - 1);
      assert run[k - 1 + 1] == After(s, retry, run[k - 1], moves[k - 1]);
      StepAnnounced(s, retry, run[k - 1], moves[k - 1]);
    }
  }

  /**
   * On any run, however flaky the executors, the executions of a node that end in failure between two releases
   * number at most its tries, and a failed row has had at least one of them and all its attempts.
   */
  lemma {:induction false} FailuresBounded(
      s: Setup, retry: RetryPolicy, run: seq<System>, moves: seq<Move>, k: nat, id: string)
    requires UniqueIds(s.graph) && IsRun(s, retry, run, moves) && k < |run|
    ensures Bounded(s, retry, run[k])
    ensures Failures(run[k], id) <= TriesOf(s, retry, id)
    ensures id in run[k].rows && run[k].rows[id].status.Failed? ==>
      Failures(run[k], id) > 0 && run[k].rows[id].attempts >= TriesOf(s, retry, id)
  {
    hide Safe, Enabled, After, TriesOf, UniqueIds;
    if k == 0 {
      StartBounded(s, retry);
    } else {
      FailuresBounded(s, retry, run, moves, k - 1, id);
      RunSafe(s, retry, run, moves, k - 1);
      assert run[k - 1 + 1] == After(s, retry, run[k - 1], moves[k - 1]);
      StepBounded(s, retry, run[k - 1], moves[k - 1]);
    }
    TalliedAt(s, retry, run[k], id);
  }
}
