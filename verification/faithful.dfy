/** What many workers write when executions are the engine's. */
module Faithful {
  import opened Wrappers
  import opened Values
  import opened Schema
  import opened Topology
  import opened Semantics
  import opened Engine
  import opened Store
  import opened Frontier
  import opened Retry
  import opened Checkpoints
  import opened Replay
  import opened Jobs
  import opened Settling
  import opened Varying
  import opened Coordinator
  import opened Moves
  import opened Workers

  /** The execution of a job ends as the replay of its snapshot does. */
  ghost predicate Executed(s: Setup, sys: System, move: Move) {
    move.Write? && PhaseOf(sys, move.worker).Replaying? ==>
      var p := PhaseOf(sys, move.worker);
      exists r :: FromReplay(s, Some(p.node), CompletedOutputs(p.snapshot), r) && move.ending == Classify(r, p.node)
  }

  /** One executor answers differently from now on: that of a node with no row, or with one that is claimed. */
  ghost predicate ChangedAt(s: Setup, t: Setup, rows: Rows, id: string) {
    SameButFor(s, t, id) && (id in rows ==> rows[id].status.Claimed?)
  }

  /** At most one executor changes: a person answered a gate and its row was dropped, or a retry will go otherwise. */
  ghost predicate Changed(s: Setup, t: Setup, rows: Rows) {
    t == s || exists id :: ChangedAt(s, t, rows, id)
  }

  /** Each move is the engine's, with the executors as they are by then: `setups` has them between the moves. */
  ghost predicate ByTheEngine(setups: seq<Setup>, run: seq<System>, moves: seq<Move>)
    requires |run| == |moves| + 1
  {
    && |setups| == |run|
    && forall i {:trigger moves[i]} :: 0 <= i < |moves| ==>
         Executed(setups[i], run[i], moves[i]) && Changed(setups[i], setups[i + 1], run[i + 1].rows)
  }

  // ---- what is settled in a snapshot ------------------------------------------------------------------------

  function SettledRows(rows: Rows): Rows {
    map id | id in rows && Settled(rows, id) :: rows[id]
  }

  lemma SettledSame(rows: Rows)
    ensures SettledPorts(SettledRows(rows)) == SettledPorts(rows)
    ensures CompletedOutputs(SettledRows(rows)) == CompletedOutputs(rows)
  {
  }

  lemma SettledSound(s: Setup, rows: Rows)
    requires Sound(s, rows)
    ensures Sound(s, SettledRows(rows))
  {
    hide Meaning, RowFits, Doomed, Into;
    var left := SettledRows(rows);
    forall id | id in left ensures SourcesSettled(s.graph, left, id) {
      assert SourcesSettled(s.graph, rows, id);
      forall e | e in Incoming(s.graph, id) ensures Settled(left, e.source) { assert Settled(rows, e.source); }
    }
  }

  lemma SettledStartable(g: Graph, rows: Rows, id: string)
    requires Startable(g, rows, id)
    ensures Startable(g, SettledRows(rows), id)
  {
    hide Into, Runnable, SettledPorts;
    SettledSame(rows);
    forall e | e in Incoming(g, id) ensures Settled(SettledRows(rows), e.source) { assert Settled(rows, e.source); }
  }

  lemma SettledTells(s: Setup, seen: Rows)
    requires Sound(s, SettledRows(seen))
    ensures Tells(s, seen)
  {
    hide Sound, Meaning, Agrees, SettledPorts;
    SettledSame(seen);
    SoundTells(s, SettledRows(seen));
  }

  ghost predicate PhaseTrue(s: Setup, phase: Phase) {
    match phase
    case Settling(seen, _, _, _, _) => Sound(s, SettledRows(seen))
    case Replaying(_, seen) => Sound(s, SettledRows(seen))
    case _ => true
  }

  /** The rows, and what is settled in every snapshot still in use, tell the truth. */
  ghost predicate Truthful(s: Setup, sys: System) {
    Sound(s, sys.rows) && forall w {:trigger PhaseOf(sys, w)} :: PhaseTrue(s, PhaseOf(sys, w))
  }

  /** A node that settled rows make live is one the run looks at. */
  lemma StartableDispatchable(s: Setup, rows: Rows, id: string)
    requires Configured(s) && Sound(s, rows) && Startable(s.graph, rows, id)
    ensures Dispatchable(s, rows, id)
  {
    hide Runnable, Collapses, Meaning, RowFits, Doomed, Into, SettledPorts, Agrees, Solves;
    if Sortable(s.graph) {
      var node :| node in s.graph.nodes && node.id == id && Runnable(s.graph, SettledPorts(rows), node);
      FitsAgree(s, Meaning(s), rows);
      DecideAgrees(s, Meaning(s), SettledPorts(rows), node);
    }
  }

  lemma PhaseTrueAt(s: Setup, sys: System, w: string)
    requires Truthful(s, sys)
    ensures PhaseTrue(s, PhaseOf(sys, w)) && Sound(s, sys.rows)
  {
  }

  lemma PhaseOkAt(g: Graph, sys: System, w: string)
    requires Safe(g, sys)
    ensures PhaseOk(g, sys.rows, w, PhaseOf(sys, w)) && Legit(g, sys.rows)
  {
  }

  // ---- the moves ------------------------------------------------------------------------------------------------

  /** A job writes what the run means for its node, however old the snapshot it replays from. */
  lemma WriteMeans(s: Setup, sys: System, w: string, ending: Ending)
    requires Configured(s) && Safe(s.graph, sys) && Truthful(s, sys) && PhaseOf(sys, w).Replaying?
    requires Executed(s, sys, Write(w, ending))
    ensures ending == Ends(s, PhaseOf(sys, w).node)
  {
    hide Sound, Startable, Dispatchable, Classify, Kept, Ends, IsReplayRun, Safe, Truthful, Legit, SettledRows,
         CompletedOutputs, SettledPorts;
    var p := PhaseOf(sys, w);
    var base := SettledRows(p.snapshot);
    JobInOrder(s.graph, sys, w);
    PhaseTrueAt(s, sys, w);
    SettledSame(p.snapshot);
    SettledStartable(s.graph, p.snapshot, p.node);
    StartableDispatchable(s, base, p.node);
    assert !Settled(base, p.node) by { NotSettledThere(p.snapshot, p.node); }
    var r :| FromReplay(s, Some(p.node), CompletedOutputs(base), r) && ending == Classify(r, p.node);
    var run, order, stop :| IsReplayRun(s, Some(p.node), CompletedOutputs(base), run, order, stop)
      && r == Kept(s, Some(p.node), CompletedOutputs(base), run);
    JobConcludes(s, base, p.node, run, order, stop);
  }

  lemma NotSettledThere(rows: Rows, id: string)
    requires !Settled(rows, id)
    ensures !Settled(SettledRows(rows), id)
  {
  }

  lemma WriteTruthful(s: Setup, retry: RetryPolicy, sys: System, w: string, ending: Ending)
    requires Configured(s) && Safe(s.graph, sys) && Truthful(s, sys) && PhaseOf(sys, w).Replaying?
    requires Executed(s, sys, Write(w, ending))
    ensures Sound(s, DoWrite(s, retry, sys, w, ending).rows)
  {
    hide Sound, Startable, Dispatchable, Ends, Safe, Truthful, Legit, TriesOf, Finish, Later, Executed;
    var p := PhaseOf(sys, w);
    WriteMeans(s, sys, w, ending);
    JobInOrder(s.graph, sys, w);
    PhaseTrueAt(s, sys, w);
    StartableDispatchable(s, sys.rows, p.node);
    EndingSound(s, sys.rows, p.node, TriesOf(s, retry, p.node));
  }

  lemma SkipTruthful(s: Setup, sys: System, w: string)
    requires Configured(s) && Safe(s.graph, sys) && Truthful(s, sys)
    requires PhaseOf(sys, w).Settling? && PhaseOf(sys, w).next < |PhaseOf(sys, w).skipped|
    ensures Sound(s, DoSkip(sys, w).rows)
  {
    hide Sound, Startable, Safe, Truthful, Legit, Answers, Later, AfterSkip, Tells, SettledRows;
    var p := PhaseOf(sys, w);
    PhaseOkAt(s.graph, sys, w);
    PhaseTrueAt(s, sys, w);
    SettledTells(s, p.seen);
    SkipLands(s, p.seen, sys.rows, p.ready, p.skipped, p.next);
  }

  lemma ClaimTruthful(s: Setup, sys: System, w: string, id: string, now: int)
    requires Configured(s) && Safe(s.graph, sys) && Truthful(s, sys) && id in sys.handed
    ensures Sound(s, DoClaim(sys, w, id, now).rows)
  {
    hide Sound, Dispatchable, Legit, PhaseTrue, SourcesSettled, Live;
    assert Startable(s.graph, sys.rows, id);
    StartableDispatchable(s, sys.rows, id);
    if MayClaim(sys.rows, id, w) { ClaimSound(s, sys.rows, id, w, now); }
  }

  /** Sound rows after a move, and snapshots taken from what was sound: the system stays truthful. */
  lemma StaysTruthful(s: Setup, before: System, after: System)
    requires Truthful(s, before) && Sound(s, after.rows)
    requires forall w {:trigger PhaseOf(after, w)} ::
      PhaseOf(after, w) == PhaseOf(before, w) || PhaseTrue(s, PhaseOf(after, w))
    ensures Truthful(s, after)
  {
    hide Sound, PhaseTrue;
    forall w ensures PhaseTrue(s, PhaseOf(after, w)) {
      assert PhaseTrue(s, PhaseOf(before, w));
    }
  }

  lemma StepTruthful(s: Setup, retry: RetryPolicy, sys: System, move: Move)
    requires Configured(s) && Safe(s.graph, sys) && Truthful(s, sys)
    requires Enabled(s.graph, sys, move) && Executed(s, sys, move)
    ensures Truthful(s, After(s, retry, sys, move))
  {
    hide Sound, Safe, Truthful, Answers, Configured, Sortable, Executed, Finish, TriesOf, AfterSkip, AfterClaim,
         SettledRows;
    PhaseTrueAt(s, sys, "");
    SettledSound(s, sys.rows);
    var after := After(s, retry, sys, move);
    match move
    case Read(w, _, _) =>
      StaysTruthful(s, sys, after);
    case Skip(w) =>
      PhaseTrueAt(s, sys, w);
      SkipTruthful(s, sys, w);
      StaysTruthful(s, sys, after);
    case Return(w, _) =>
      StaysTruthful(s, sys, after);
    case Claim(w, id, now) =>
      ClaimTruthful(s, sys, w, id, now);
      StaysTruthful(s, sys, after);
    case Load(w) =>
      StaysTruthful(s, sys, after);
    case Write(w, ending) =>
      WriteTruthful(s, retry, sys, w, ending);
      StaysTruthful(s, sys, after);
    case Crash(w) =>
      StaysTruthful(s, sys, after);
    case Release(id) =>
      ReleaseSound(s, sys.rows, id);
      StaysTruthful(s, sys, after);
  }

  // ---- executors that change --------------------------------------------------------------------------------------

  lemma RowsChanged(s: Setup, t: Setup, rows: Rows, id: string)
    requires UniqueIds(s.graph) && ChangedAt(s, t, rows, id) && Sound(s, rows)
    ensures Sound(t, rows)
  {
    hide Sound, SameButFor;
    if id in rows {
      ClaimKeepsSound(s, t, rows, id);
    } else {
      ChangeKeepsSound(s, t, id, rows);
      assert rows - {id} == rows;
    }
  }

  /** What a snapshot has settled still fits: the changed node is not among it. */
  lemma SnapshotChanged(s: Setup, t: Setup, seen: Rows, rows: Rows, id: string)
    requires UniqueIds(s.graph) && ChangedAt(s, t, rows, id) && Later(seen, rows) && Sound(s, SettledRows(seen))
    ensures Sound(t, SettledRows(seen))
  {
    hide Sound, SameButFor;
    assert Settled(seen, id) ==> Settled(rows, id);
    ChangeKeepsSound(s, t, id, SettledRows(seen));
    assert SettledRows(seen) - {id} == SettledRows(seen);
  }

  lemma PhaseChanged(s: Setup, t: Setup, sys: System, w: string, id: string)
    requires UniqueIds(s.graph) && Safe(s.graph, sys) && ChangedAt(s, t, sys.rows, id)
    requires PhaseTrue(s, PhaseOf(sys, w))
    ensures PhaseTrue(t, PhaseOf(sys, w))
  {
    hide Sound, ChangedAt, Safe, Answers, Startable, HoldsClaim, Later, SettledRows;
    PhaseOkAt(s.graph, sys, w);
    match PhaseOf(sys, w)
    case Settling(seen, _, _, _, _) => SnapshotChanged(s, t, seen, sys.rows, id);
    case Replaying(_, seen) => SnapshotChanged(s, t, seen, sys.rows, id);
    case _ =>
  }

  /** An executor may change at a node with no row or a claimed one: the system tells the truth about the new run. */
  lemma ChangeTruthful(s: Setup, t: Setup, sys: System)
    requires Configured(s) && Safe(s.graph, sys) && Truthful(s, sys) && Changed(s, t, sys.rows)
    ensures Truthful(t, sys) && Configured(t) && t.graph == s.graph
  {
    hide Sound, ChangedAt, Safe, PhaseTrue;
    if t != s {
      var id :| ChangedAt(s, t, sys.rows, id);
      ChangedIsSame(s, t, sys.rows, id);
      RowsChanged(s, t, sys.rows, id);
      forall w ensures PhaseTrue(t, PhaseOf(sys, w)) {
        assert PhaseTrue(s, PhaseOf(sys, w));
        PhaseChanged(s, t, sys, w, id);
      }
    }
  }

  lemma ChangedIsSame(s: Setup, t: Setup, rows: Rows, id: string)
    requires ChangedAt(s, t, rows, id)
    ensures t == s.(run := t.run)
  {
  }

  // ---- whole runs -------------------------------------------------------------------------------------------------

  lemma StartTruthful(s: Setup)
    ensures Truthful(s, Start())
  {
    EmptySound(s);
  }

  /** Only executors change along a run. */
  lemma {:induction false} SameRun(setups: seq<Setup>, run: seq<System>, moves: seq<Move>, k: nat)
    requires |run| == |moves| + 1 && ByTheEngine(setups, run, moves) && k < |run|
    ensures setups[k] == setups[0].(run := setups[k].run)
  {
    hide SameButFor, Executed;
    if k > 0 {
      SameRun(setups, run, moves, k - 1);
      var last := k - 1;
      assert Executed(setups[last], run[last], moves[last]);
      if setups[k] != setups[last] {
        var id :| ChangedAt(setups[last], setups[k], run[k].rows, id);
        ChangedIsSame(setups[last], setups[k], run[k].rows, id);
      }
    }
  }

  /** Tries and moves hang on the graph and the kinds, not on what executors answer. */
  lemma AfterAlike(s: Setup, t: Setup, retry: RetryPolicy, sys: System, move: Move)
    requires t == s.(run := t.run) && Enabled(s.graph, sys, move)
    ensures After(t, retry, sys, move) == After(s, retry, sys, move)
  {
    hide Enabled, Answers;
    assert forall id :: TriesOf(t, retry, id) == TriesOf(s, retry, id);
  }

  lemma {:induction false} RunTruthful(
      retry: RetryPolicy, setups: seq<Setup>, run: seq<System>, moves: seq<Move>, k: nat)
    requires |run| == |moves| + 1 && ByTheEngine(setups, run, moves) && k < |run|
    requires Configured(setups[0]) && IsRun(setups[0], retry, run, moves)
    ensures Truthful(setups[k], run[k]) && Configured(setups[k]) && setups[k].graph == setups[0].graph
  {
    hide Truthful, Safe, Sortable, Enabled, After, Executed, Changed, NoFenceReads, UniqueIds;
    StartTruthful(setups[0]);
    if k > 0 {
      var last, s := k - 1, setups[0];
      RunTruthful(retry, setups, run, moves, last);
      RunSafe(s, retry, run, moves, last);
      RunSafe(s, retry, run, moves, k);
      SameRun(setups, run, moves, last);
      assert run[last + 1] == After(s, retry, run[last], moves[last]);
      AfterAlike(s, setups[last], retry, run[last], moves[last]);
      StepTruthful(setups[last], retry, run[last], moves[last]);
      ChangeTruthful(setups[last], setups[k], run[k]);
    }
  }

  /**
   * Every settled row of any such run is the one the graph means for the node, with the executors as they are by then:
   * answers given and retries that went otherwise included.
   */
  lemma SettledMeans(
      retry: RetryPolicy, setups: seq<Setup>, run: seq<System>, moves: seq<Move>, k: nat, id: string)
    requires |run| == |moves| + 1 && ByTheEngine(setups, run, moves) && k < |run|
    requires Configured(setups[0]) && Sortable(setups[0].graph) && IsRun(setups[0], retry, run, moves)
    requires Settled(run[k].rows, id)
    ensures setups[k].graph == setups[0].graph && RowFits(setups[k], Meaning(setups[k]), id, run[k].rows[id])
  {
    hide RowFits, Meaning, IsRun, ByTheEngine, PhaseTrue, Sortable;
    RunTruthful(retry, setups, run, moves, k);
  }

  /**
   * A run the workers finish is of a graph that can be sorted, and ends as that meaning does: the same success, and
   * the same outputs node for node.
   */
  lemma FinishedMeans(retry: RetryPolicy, setups: seq<Setup>, run: seq<System>, moves: seq<Move>, k: nat)
    requires |run| == |moves| + 1 && ByTheEngine(setups, run, moves) && k < |run|
    requires Configured(setups[0]) && IsRun(setups[0], retry, run, moves)
    requires IsComplete(setups[0].graph, run[k].rows)
    ensures Sortable(setups[0].graph) && setups[k].graph == setups[0].graph
    ensures FirstFailed(setups[k].graph.nodes, run[k].rows).None? <==> Succeeds(Meaning(setups[k]))
    ensures forall id :: Get(OutputsInGraphOrder(setups[k].graph.nodes, run[k].rows), id)
                      == OutputOf(Meaning(setups[k]), id)
  {
    hide RowFits, Meaning, IsRun, PhaseTrue, Sortable, IsComplete, Grounded, Doomed, Executed, Changed;
    RunTruthful(retry, setups, run, moves, k);
    var s := setups[k];
    if !Sortable(s.graph) {
      NeverComplete(s, run[k].rows);
    } else {
      CompleteMeans(s, Meaning(s), run[k].rows);
    }
  }
}
