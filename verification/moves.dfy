/**
 * Many workers over one store, as a machine whose every move is one store call.
 *
 * A worker reads a snapshot and settles its cascade skip by skip, claims a node it was handed, reads the rows its job
 * replays from, and writes what the job ended in. It may crash at any point, and a parked row may be dropped. Snapshots
 * may be as old as you like and endings anything at all. A system is safe when its rows are in order, every id handed out
 * may be started, and every worker's snapshot is one the rows have only grown from; every move keeps it so, leaves
 * settled rows as they are, and nobody else's claim is touched.
 */
module Moves {
  import opened Wrappers
  import opened Values
  import opened Schema
  import opened Topology
  import opened Store
  import opened Frontier
  import opened Checkpoints
  import opened Replay
  import opened Retry
  import opened Semantics
  import opened Jobs
  import opened Settling

  /**
   * What a worker, known by its owner token, is in the middle of. A snapshot may be as old as you like, and an execution
   * may end in anything at all.
   */
  datatype Phase =
    | Free
    /** An advance: it read `seen`, and has written the first `next` skips; `mine` are those it was first to settle. */
    | Settling(seen: Rows, ready: seq<string>, skipped: seq<string>, next: nat, mine: seq<string>)
    /** A job that has won its claim and not yet read the rows it replays from. */
    | Loading(node: string)
    /** A job replaying from the rows it read. */
    | Replaying(node: string, snapshot: Rows)

  datatype System = System(
    rows: Rows,
    /** Every id some advance has returned. */
    handed: set<string>,
    workers: map<string, Phase>,
    /** The nodes whose skip diagnostics were delivered, in order. */
    told: seq<string>,
    /** How many executions of a node have ended in failure since its row was last dropped. */
    failures: map<string, nat>)

  function PhaseOf(sys: System, w: string): Phase {
    if w in sys.workers then sys.workers[w] else Free
  }

  function Failures(sys: System, id: string): nat {
    if id in sys.failures then sys.failures[id] else 0
  }

  datatype Move =
    | Read(worker: string, ready: seq<string>, skipped: seq<string>)
    | Skip(worker: string)
    | Return(worker: string, count: nat)
    | Claim(worker: string, node: string, now: int)
    | Load(worker: string)
    | Write(worker: string, ending: Ending)
    | Crash(worker: string)
    | Release(node: string)

  function Put(sys: System, w: string, phase: Phase): System {
    sys.(workers := sys.workers[w := phase])
  }

  /** When a move is possible. */
  ghost predicate Enabled(g: Graph, sys: System, move: Move) {
    match move
    case Read(w, ready, skipped) => PhaseOf(sys, w).Free? && Answers(g, sys.rows, ready, skipped)
    case Skip(w) => PhaseOf(sys, w).Settling? && PhaseOf(sys, w).next < |PhaseOf(sys, w).skipped|
    case Return(w, count) =>
      PhaseOf(sys, w).Settling? && PhaseOf(sys, w).next == |PhaseOf(sys, w).skipped| && count <= |PhaseOf(sys, w).ready|
    case Claim(w, id, _) => PhaseOf(sys, w).Free? && id in sys.handed
    case Load(w) => PhaseOf(sys, w).Loading?
    case Write(w, _) => PhaseOf(sys, w).Replaying?
    case Crash(_) => true
    case Release(id) => id in sys.rows && sys.rows[id].status.Paused?
  }

  // ---- the moves ------------------------------------------------------------------------------------------

  ghost function DoSkip(sys: System, w: string): System
    requires PhaseOf(sys, w).Settling? && PhaseOf(sys, w).next < |PhaseOf(sys, w).skipped|
  {
    var p := PhaseOf(sys, w);
    var id := p.skipped[p.next];
    var mine := if Settled(sys.rows, id) then p.mine else p.mine + [id];
    Put(sys, w, p.(next := p.next + 1, mine := mine)).(rows := AfterSkip(sys.rows, id))
  }

  ghost function DoReturn(sys: System, w: string, count: nat): System
    requires PhaseOf(sys, w).Settling? && count <= |PhaseOf(sys, w).ready|
  {
    var p := PhaseOf(sys, w);
    Put(sys, w, Free).(handed := sys.handed + (set i | 0 <= i < count :: p.ready[i]), told := sys.told + p.mine)
  }

  ghost function DoClaim(sys: System, w: string, id: string, now: int): System {
    if MayClaim(sys.rows, id, w) then Put(sys, w, Loading(id)).(rows := AfterClaim(sys.rows, id, w, now)) else sys
  }

  /** A job is on its last attempt by what its own snapshot says. */
  function IsLastTry(tries: U32, seen: Rows, id: string): bool {
    Entry(seen, id).attempts >= tries
  }

  ghost function DoWrite(s: Setup, retry: RetryPolicy, sys: System, w: string, ending: Ending): System
    requires PhaseOf(sys, w).Replaying?
  {
    var p := PhaseOf(sys, w);
    Put(sys, w, Free).(
      rows := Finish(sys.rows, p.node, ending, IsLastTry(TriesOf(s, retry, p.node), p.snapshot, p.node)),
      failures := if ending.Broke? then sys.failures[p.node := Failures(sys, p.node) + 1] else sys.failures)
  }

  ghost function DoRelease(sys: System, id: string): System {
    sys.(rows := sys.rows - {id}, failures := sys.failures - {id})
  }

  ghost function After(s: Setup, retry: RetryPolicy, sys: System, move: Move): System
    requires Enabled(s.graph, sys, move)
  {
    match move
    case Read(w, ready, skipped) => Put(sys, w, Settling(sys.rows, ready, skipped, 0, []))
    case Skip(w) => DoSkip(sys, w)
    case Return(w, count) => DoReturn(sys, w, count)
    case Claim(w, id, now) => DoClaim(sys, w, id, now)
    case Load(w) => Put(sys, w, Replaying(PhaseOf(sys, w).node, sys.rows))
    case Write(w, ending) => DoWrite(s, retry, sys, w, ending)
    case Crash(w) => Put(sys, w, Free)
    case Release(id) => DoRelease(sys, id)
  }

  // ---- what every move keeps ------------------------------------------------------------------------------

  /** The node is claimed, and by this worker. */
  predicate HoldsClaim(rows: Rows, w: string, id: string) {
    id in rows && rows[id].status.Claimed? && rows[id].owner == Some(w)
  }

  /** What a worker believes is still so. */
  ghost predicate PhaseOk(g: Graph, rows: Rows, w: string, phase: Phase) {
    match phase
    case Free => true
    case Settling(seen, ready, skipped, next, mine) =>
      && Later(seen, rows) && Answers(g, seen, ready, skipped) && next <= |skipped|
      && (forall j :: 0 <= j < next ==> Settled(rows, skipped[j]))
    case Loading(id) => HoldsClaim(rows, w, id) && Startable(g, rows, id)
    case Replaying(id, seen) =>
      Later(seen, rows) && Startable(g, seen, id) && HoldsClaim(rows, w, id) && id in seen && seen[id] == rows[id]
  }

  ghost predicate Safe(g: Graph, sys: System) {
    && Legit(g, sys.rows)
    && (forall id {:trigger Startable(g, sys.rows, id)} :: id in sys.handed ==> Startable(g, sys.rows, id))
    && (forall w {:trigger PhaseOf(sys, w)} :: PhaseOk(g, sys.rows, w, PhaseOf(sys, w)))
  }

  /** Nobody else's claim is touched, and everything settled stays. */
  ghost predicate Polite(before: Rows, after: Rows, mover: string) {
    && Later(before, after)
    && (forall w, id {:trigger HoldsClaim(before, w, id)} ::
          w != mover && HoldsClaim(before, w, id) ==> id in after && after[id] == before[id])
  }

  lemma PhaseKept(g: Graph, before: Rows, after: Rows, mover: string, w: string, phase: Phase)
    requires Polite(before, after, mover) && w != mover && PhaseOk(g, before, w, phase)
    ensures PhaseOk(g, after, w, phase)
  {
    hide Startable, Answers;
    match phase
    case Free =>
    case Settling(seen, ready, skipped, next, mine) =>
      LaterTrans(seen, before, after);
      forall j | 0 <= j < next ensures Settled(after, skipped[j]) { assert Settled(before, skipped[j]); }
    case Loading(id) =>
      assert HoldsClaim(before, w, id);
      StartableLater(g, before, after, id);
    case Replaying(id, seen) =>
      assert HoldsClaim(before, w, id);
      LaterTrans(seen, before, after);
  }

  lemma LaterTrans(a: Rows, b: Rows, c: Rows)
    requires Later(a, b) && Later(b, c)
    ensures Later(a, c)
  {
    forall id | Settled(a, id) ensures id in c && c[id] == a[id] { assert Settled(b, id); }
  }

  lemma LaterRefl(rows: Rows)
    ensures Later(rows, rows)
  {
  }

  /** A move that is polite, keeps the rows legitimate and leaves its own worker in good order keeps the system safe. */
  lemma MoveSafe(g: Graph, before: System, after: System, mover: string)
    requires Safe(g, before) && Polite(before.rows, after.rows, mover) && Legit(g, after.rows)
    requires PhaseOk(g, after.rows, mover, PhaseOf(after, mover))
    requires forall w :: w != mover ==> PhaseOf(after, w) == PhaseOf(before, w)
    requires forall id :: id in after.handed ==> id in before.handed || Startable(g, after.rows, id)
    ensures Safe(g, after)
  {
    hide Legit, Startable, PhaseOk, Polite;
    PoliteLater(before.rows, after.rows, mover);
    forall id | id in after.handed ensures Startable(g, after.rows, id) {
      if id in before.handed {
        assert Startable(g, before.rows, id);
        StartableLater(g, before.rows, after.rows, id);
      }
    }
    forall w ensures PhaseOk(g, after.rows, w, PhaseOf(after, w)) {
      if w != mover {
        assert PhaseOk(g, before.rows, w, PhaseOf(before, w));
        PhaseKept(g, before.rows, after.rows, mover, w, PhaseOf(before, w));
      }
    }
  }

  lemma PoliteLater(before: Rows, after: Rows, mover: string)
    requires Polite(before, after, mover)
    ensures Later(before, after)
  {
  }

  lemma PoliteRefl(rows: Rows, mover: string)
    ensures Polite(rows, rows, mover)
  {
  }

  lemma ReadSafe(g: Graph, sys: System, w: string, ready: seq<string>, skipped: seq<string>)
    requires Safe(g, sys) && Answers(g, sys.rows, ready, skipped)
    ensures Safe(g, Put(sys, w, Settling(sys.rows, ready, skipped, 0, [])))
  {
    hide Legit, Startable, Polite, Answers;
    LaterRefl(sys.rows);
    PoliteRefl(sys.rows, w);
    MoveSafe(g, sys, Put(sys, w, Settling(sys.rows, ready, skipped, 0, [])), w);
  }

  lemma SkipSafe(g: Graph, sys: System, w: string)
    requires UniqueIds(g) && Safe(g, sys)
    requires PhaseOf(sys, w).Settling? && PhaseOf(sys, w).next < |PhaseOf(sys, w).skipped|
    ensures Safe(g, DoSkip(sys, w)) && Polite(sys.rows, DoSkip(sys, w).rows, w)
    ensures var id := PhaseOf(sys, w).skipped[PhaseOf(sys, w).next];
      DoSkip(sys, w).rows == if id in sys.rows then sys.rows else sys.rows[id := NewRow(Skipped)]
  {
    hide Legit, Startable, Answers, UniqueIds;
    var p, after := PhaseOf(sys, w), DoSkip(sys, w);
    assert PhaseOk(g, sys.rows, w, p);
    StaleSkipLands(g, p.seen, sys.rows, p.ready, p.skipped, p.next);
    LaterSkip(sys.rows, p.skipped[p.next]);
    LaterTrans(p.seen, sys.rows, after.rows);
    forall j | 0 <= j < p.next + 1 ensures Settled(after.rows, p.skipped[j]) {
      if j < p.next { assert Settled(sys.rows, p.skipped[j]); }
    }
    MoveSafe(g, sys, after, w);
  }

  lemma LaterSkip(rows: Rows, id: string)
    ensures Later(rows, AfterSkip(rows, id)) && Settled(AfterSkip(rows, id), id)
  {
  }

  lemma ReturnSafe(g: Graph, sys: System, w: string, count: nat)
    requires UniqueIds(g) && Safe(g, sys)
    requires PhaseOf(sys, w).Settling? && PhaseOf(sys, w).next == |PhaseOf(sys, w).skipped|
    requires count <= |PhaseOf(sys, w).ready|
    ensures Safe(g, DoReturn(sys, w, count))
  {
    hide Legit, Startable, Answers, Polite, UniqueIds;
    var p, after := PhaseOf(sys, w), DoReturn(sys, w, count);
    assert PhaseOk(g, sys.rows, w, p);
    PoliteRefl(sys.rows, w);
    forall i | 0 <= i < count ensures Startable(g, sys.rows, p.ready[i]) {
      ReadyStarts(g, p.seen, sys.rows, p.ready, p.skipped, i);
    }
    MoveSafe(g, sys, after, w);
  }

  lemma ClaimSafe(g: Graph, sys: System, w: string, id: string, now: int)
    requires Safe(g, sys) && PhaseOf(sys, w).Free? && id in sys.handed
    ensures Safe(g, DoClaim(sys, w, id, now)) && Polite(sys.rows, DoClaim(sys, w, id, now).rows, w)
  {
    hide Legit, SourcesSettled, Live;
    assert Startable(g, sys.rows, id);
    if MayClaim(sys.rows, id, w) {
      var after := DoClaim(sys, w, id, now);
      PutLegit(g, sys.rows, id, ClaimRow(sys.rows, id, w, now));
      StartableLater(g, sys.rows, after.rows, id);
      MoveSafe(g, sys, after, w);
    }
  }

  lemma LoadSafe(g: Graph, sys: System, w: string)
    requires Safe(g, sys) && PhaseOf(sys, w).Loading?
    ensures Safe(g, Put(sys, w, Replaying(PhaseOf(sys, w).node, sys.rows)))
  {
    hide Legit, Startable, Polite;
    var id := PhaseOf(sys, w).node;
    assert PhaseOk(g, sys.rows, w, Loading(id));
    LaterRefl(sys.rows);
    PoliteRefl(sys.rows, w);
    MoveSafe(g, sys, Put(sys, w, Replaying(id, sys.rows)), w);
  }

  lemma JobInOrder(g: Graph, sys: System, w: string)
    requires Safe(g, sys) && PhaseOf(sys, w).Replaying?
    ensures var p := PhaseOf(sys, w);
      && Legit(g, sys.rows) && HoldsClaim(sys.rows, w, p.node)
      && Startable(g, p.snapshot, p.node) && Startable(g, sys.rows, p.node) && Later(p.snapshot, sys.rows)
      && p.node in p.snapshot && p.snapshot[p.node] == sys.rows[p.node]
  {
    hide Legit, Startable;
    assert PhaseOk(g, sys.rows, w, PhaseOf(sys, w));
    StartableLater(g, PhaseOf(sys, w).snapshot, sys.rows, PhaseOf(sys, w).node);
  }

  lemma FinishRow(rows: Rows, id: string, ending: Ending, last: bool)
    requires id in rows
    ensures var after := Finish(rows, id, ending, last); id in after && after == rows[id := after[id]]
  {
  }

  /** What a job writes, whatever its execution came to, changes the one row it holds. */
  lemma WriteSafe(s: Setup, retry: RetryPolicy, sys: System, w: string, ending: Ending)
    requires Safe(s.graph, sys) && PhaseOf(sys, w).Replaying?
    ensures Safe(s.graph, DoWrite(s, retry, sys, w, ending))
    ensures Polite(sys.rows, DoWrite(s, retry, sys, w, ending).rows, w)
  {
    hide Legit, SourcesSettled, Live, Safe, PhaseOk, Polite, TriesOf, Finish;
    var p, after := PhaseOf(sys, w), DoWrite(s, retry, sys, w, ending);
    JobInOrder(s.graph, sys, w);
    FinishRow(sys.rows, p.node, ending, IsLastTry(TriesOf(s, retry, p.node), p.snapshot, p.node));
    PutLegit(s.graph, sys.rows, p.node, after.rows[p.node]);
    OwnRowPolite(sys.rows, after.rows, w, p.node);
    FreeOk(s.graph, after.rows, w);
    MoveSafe(s.graph, sys, after, w);
  }

  lemma FreeOk(g: Graph, rows: Rows, w: string)
    ensures PhaseOk(g, rows, w, Free)
  {
  }

  /** A worker that changes only the row it holds is polite. */
  lemma OwnRowPolite(before: Rows, after: Rows, w: string, id: string)
    requires HoldsClaim(before, w, id) && id in after && after == before[id := after[id]]
    ensures Polite(before, after, w)
  {
  }

  lemma CrashSafe(g: Graph, sys: System, w: string)
    requires Safe(g, sys)
    ensures Safe(g, Put(sys, w, Free))
  {
    hide Legit, Startable, Polite;
    PoliteRefl(sys.rows, w);
    MoveSafe(g, sys, Put(sys, w, Free), w);
  }

  lemma ReleaseSafe(g: Graph, sys: System, id: string)
    requires Safe(g, sys) && id in sys.rows && sys.rows[id].status.Paused?
    ensures Safe(g, DoRelease(sys, id)) && Later(sys.rows, sys.rows - {id})
  {
    hide Legit, Startable;
    var after := DoRelease(sys, id);
    ReleaseLegit(g, sys.rows, id);
    forall x | x in after.handed ensures Startable(g, after.rows, x) {
      assert Startable(g, sys.rows, x);
      StartableLater(g, sys.rows, after.rows, x);
    }
    forall w ensures PhaseOk(g, after.rows, w, PhaseOf(after, w)) {
      assert PhaseOk(g, sys.rows, w, PhaseOf(sys, w));
      PhaseKept(g, sys.rows, after.rows, w + "x", w, PhaseOf(sys, w));
    }
  }

  /** Every move of every worker keeps the system safe and every settled row as it is. */
  lemma StepSafe(s: Setup, retry: RetryPolicy, sys: System, move: Move)
    requires UniqueIds(s.graph) && Safe(s.graph, sys) && Enabled(s.graph, sys, move)
    ensures Safe(s.graph, After(s, retry, sys, move))
    ensures Later(sys.rows, After(s, retry, sys, move).rows)
  {
    hide Safe, Answers, DoSkip, DoClaim, DoWrite, UniqueIds;
    LaterRefl(sys.rows);
    match move
    case Read(w, ready, skipped) => ReadSafe(s.graph, sys, w, ready, skipped);
    case Skip(w) => SkipSafe(s.graph, sys, w);
    case Return(w, count) => ReturnSafe(s.graph, sys, w, count);
    case Claim(w, id, now) => ClaimSafe(s.graph, sys, w, id, now);
    case Load(w) => LoadSafe(s.graph, sys, w);
    case Write(w, ending) => WriteSafe(s, retry, sys, w, ending);
    case Crash(w) => CrashSafe(s.graph, sys, w);
    case Release(id) => ReleaseSafe(s.graph, sys, id);
  }

  // ---- where a run starts -----------------------------------------------------------------------------------

  function Start(): System {
    System(map[], {}, map[], [], map[])
  }
}
