/**
 * What is kept count of along a run of many workers.
 *
 * Every skip is some worker's to announce until it is announced, and nobody else's: that is why none is announced twice.
 * And a node's failed executions since its row was last dropped never outrun the attempts the row counts, an execution
 * under way being an attempt no failure has used, so that they stop at the node's tries: a job knows that it is the last
 * from its own snapshot, and its claim keeps others from adding to the count meanwhile. Each move is shown to keep both.
 */
module Ledgers {
  import opened Wrappers
  import opened Values
  import opened Schema
  import opened Topology
  import opened Store
  import opened Frontier
  import opened Checkpoints
  import opened Replay
  import opened Retry
  import opened Semantics
  import opened Jobs
  import opened Settling
  import opened Moves

  // ---- skips announced ------------------------------------------------------------------------------------------

  /** The skips a worker has settled and not yet announced. */
  function Mine(sys: System, w: string): seq<string> {
    if PhaseOf(sys, w).Settling? then PhaseOf(sys, w).mine else []
  }

  ghost predicate AllSettled(rows: Rows, ids: seq<string>) {
    forall i :: 0 <= i < |ids| ==> Settled(rows, ids[i])
  }

  ghost predicate Apart(a: seq<string>, b: seq<string>) {
    forall i, j :: 0 <= i < |a| && 0 <= j < |b| ==> a[i] != b[j]
  }

  /** Whatever was announced, or is about to be, is settled, and is announced by one worker once. */
  ghost predicate Announced(sys: System) {
    && Once(sys.told) && AllSettled(sys.rows, sys.told)
    && (forall w {:trigger Mine(sys, w)} ::
          Once(Mine(sys, w)) && AllSettled(sys.rows, Mine(sys, w)) && Apart(Mine(sys, w), sys.told))
    && (forall w, v {:trigger Mine(sys, w), Mine(sys, v)} :: w != v ==> Apart(Mine(sys, w), Mine(sys, v)))
  }

  lemma SettledLater(before: Rows, after: Rows, ids: seq<string>)
    requires Later(before, after) && AllSettled(before, ids)
    ensures AllSettled(after, ids)
  {
    forall i | 0 <= i < |ids| ensures Settled(after, ids[i]) { assert Settled(before, ids[i]); }
  }

  /** A move that lets go of announcements, or keeps them, announces nothing twice. */
  lemma AnnouncedKept(before: System, after: System)
    requires Announced(before) && Later(before.rows, after.rows) && after.told == before.told
    requires forall w {:trigger Mine(after, w)} :: Mine(after, w) == Mine(before, w) || Mine(after, w) == []
    ensures Announced(after)
  {
    hide Later, Once;
    SettledLater(before.rows, after.rows, before.told);
    forall w
      ensures Once(Mine(after, w)) && AllSettled(after.rows, Mine(after, w)) && Apart(Mine(after, w), after.told)
    {
      assert Once(Mine(before, w)) && AllSettled(before.rows, Mine(before, w));
      if Mine(after, w) == Mine(before, w) { SettledLater(before.rows, after.rows, Mine(before, w)); }
      assert Once([]) by { OnceEmpty(); }
    }
    forall w, v | w != v ensures Apart(Mine(after, w), Mine(after, v)) {
      assert Apart(Mine(before, w), Mine(before, v));
    }
  }

  lemma OnceEmpty()
    ensures Once([])
  {
  }

  lemma OnceMore(ids: seq<string>, more: seq<string>)
    requires Once(ids) && Once(more) && Apart(ids, more)
    ensures Once(ids + more)
  {
  }

  lemma SkipAnnounced(sys: System, w: string)
    requires Announced(sys) && PhaseOf(sys, w).Settling? && PhaseOf(sys, w).next < |PhaseOf(sys, w).skipped|
    ensures Announced(DoSkip(sys, w))
  {
    var p, after := PhaseOf(sys, w), DoSkip(sys, w);
    var id := p.skipped[p.next];
    LaterSkip(sys.rows, id);
    if Settled(sys.rows, id) {
      AnnouncedKept(sys, after);
    } else {
      var mine := Mine(sys, w);
      assert Once(mine) && AllSettled(sys.rows, mine) && Apart(mine, sys.told);
      assert Apart(mine, [id]);
      OnceMore(mine, [id]);
      SettledLater(sys.rows, after.rows, mine);
      SettledLater(sys.rows, after.rows, sys.told);
      hide Once, Later;
      forall v ensures Once(Mine(after, v)) && AllSettled(after.rows, Mine(after, v)) && Apart(Mine(after, v), sys.told) {
        if v != w {
          assert Once(Mine(sys, v)) && AllSettled(sys.rows, Mine(sys, v)) && Apart(Mine(sys, v), sys.told);
          SettledLater(sys.rows, after.rows, Mine(sys, v));
        }
      }
      forall v, u | v != u ensures Apart(Mine(after, v), Mine(after, u)) {
        assert Apart(Mine(sys, v), Mine(sys, u));
        assert AllSettled(sys.rows, Mine(sys, v)) && AllSettled(sys.rows, Mine(sys, u));
      }
    }
  }

  lemma ReturnAnnounced(sys: System, w: string, count: nat)
    requires Announced(sys) && PhaseOf(sys, w).Settling? && count <= |PhaseOf(sys, w).ready|
    ensures Announced(DoReturn(sys, w, count))
  {
    var mine, after := Mine(sys, w), DoReturn(sys, w, count);
    assert Once(mine) && AllSettled(sys.rows, mine) && Apart(mine, sys.told);
    OnceMore(sys.told, mine);
    hide Once, Settled;
    forall v ensures Once(Mine(after, v)) && AllSettled(sys.rows, Mine(after, v)) && Apart(Mine(after, v), after.told) {
      if v == w {
        OnceEmpty();
      } else {
        assert Once(Mine(sys, v)) && AllSettled(sys.rows, Mine(sys, v)) && Apart(Mine(sys, v), sys.told);
        assert Apart(Mine(sys, v), Mine(sys, w));
      }
    }
    forall v, u | v != u ensures Apart(Mine(after, v), Mine(after, u)) {
      assert Apart(Mine(sys, v), Mine(sys, u));
    }
  }

  lemma StepAnnounced(s: Setup, retry: RetryPolicy, sys: System, move: Move)
    requires UniqueIds(s.graph) && Safe(s.graph, sys) && Enabled(s.graph, sys, move) && Announced(sys)
    ensures Announced(After(s, retry, sys, move))
  {
    hide Safe, Answers, Announced, Later, TriesOf, Finish, AfterSkip, AfterClaim, DoSkip, DoReturn, UniqueIds;
    StepSafe(s, retry, sys, move);
    match move
    case Skip(w) => SkipAnnounced(sys, w);
    case Return(w, count) => ReturnAnnounced(sys, w, count);
    case _ => AnnouncedKept(sys, After(s, retry, sys, move));
  }

  // ---- failures counted ---------------------------------------------------------------------------

  /** The job a worker has, if it has one. */
  function JobOf(sys: System, w: string): Option<string> {
    match PhaseOf(sys, w)
    case Loading(id) => Some(id)
    case Replaying(id, _) => Some(id)
    case _ => None
  }

  /** Failures of a node are attempts its row has counted; while it may still be tried they fall short of its tries. */
  ghost predicate Tallied(s: Setup, retry: RetryPolicy, sys: System, id: string) {
    var f, tries := Failures(sys, id), TriesOf(s, retry, id);
    && f <= tries
    && (id !in sys.rows ==> f == 0)
    && (id in sys.rows && sys.rows[id].status.IsHeld() ==> f < tries && f <= sys.rows[id].attempts)
    && (id in sys.rows && sys.rows[id].status.Failed? ==> f > 0 && sys.rows[id].attempts >= tries)
  }

  /** An execution under way is an attempt no failure has used. */
  ghost predicate Unspent(sys: System, w: string) {
    JobOf(sys, w).Some? ==>
      var id := JobOf(sys, w).value; id in sys.rows && Failures(sys, id) < sys.rows[id].attempts
  }

  ghost predicate Bounded(s: Setup, retry: RetryPolicy, sys: System) {
    && (forall id {:trigger Failures(sys, id)} :: Tallied(s, retry, sys, id))
    && (forall w {:trigger JobOf(sys, w)} :: Unspent(sys, w))
  }

  /** A job's row is claimed by the worker that has the job. */
  lemma JobHolds(g: Graph, sys: System, w: string)
    requires Safe(g, sys) && JobOf(sys, w).Some?
    ensures HoldsClaim(sys.rows, w, JobOf(sys, w).value)
  {
    hide Legit, Startable;
    assert PhaseOk(g, sys.rows, w, PhaseOf(sys, w));
  }

  lemma AllJobsHold(g: Graph, sys: System)
    requires Safe(g, sys)
    ensures forall w {:trigger JobOf(sys, w)} :: JobOf(sys, w).Some? ==> HoldsClaim(sys.rows, w, JobOf(sys, w).value)
  {
    hide Safe, JobOf;
    forall w | JobOf(sys, w).Some? ensures HoldsClaim(sys.rows, w, JobOf(sys, w).value) { JobHolds(g, sys, w); }
  }

  /** A skip adds a row or nothing. */
  lemma SkipBounded(s: Setup, retry: RetryPolicy, sys: System, w: string)
    requires UniqueIds(s.graph) && Safe(s.graph, sys) && Bounded(s, retry, sys)
    requires PhaseOf(sys, w).Settling? && PhaseOf(sys, w).next < |PhaseOf(sys, w).skipped|
    ensures Bounded(s, retry, DoSkip(sys, w))
  {
    hide Safe, AfterSkip, TriesOf, UniqueIds;
    SkipSafe(s.graph, sys, w);
    AllJobsHold(s.graph, sys);
    var after := DoSkip(sys, w);
    forall id ensures Tallied(s, retry, after, id) {
      assert Failures(after, id) == Failures(sys, id);
      assert Tallied(s, retry, sys, id);
    }
    forall v ensures Unspent(after, v) {
      assert JobOf(after, v) == JobOf(sys, v);
      assert Unspent(sys, v);
    }
  }

  lemma SameRowsBounded(s: Setup, retry: RetryPolicy, before: System, after: System)
    requires Bounded(s, retry, before) && after.rows == before.rows && after.failures == before.failures
    requires forall w {:trigger JobOf(after, w)} :: JobOf(after, w) == JobOf(before, w) || JobOf(after, w).None?
    ensures Bounded(s, retry, after)
  {
    hide TriesOf, JobOf;
    forall id ensures Tallied(s, retry, after, id) {
      assert Failures(after, id) == Failures(before, id);
      assert Tallied(s, retry, before, id);
    }
    forall w ensures Unspent(after, w) {
      assert Unspent(before, w) by { assert JobOf(before, w) == JobOf(before, w); }
      assert JobOf(after, w) == JobOf(before, w) || JobOf(after, w).None?;
    }
  }

  lemma ReleaseBounded(s: Setup, retry: RetryPolicy, sys: System, id: string)
    requires Safe(s.graph, sys) && Bounded(s, retry, sys) && id in sys.rows && sys.rows[id].status.Paused?
    ensures Bounded(s, retry, DoRelease(sys, id))
  {
    hide Safe, TriesOf;
    AllJobsHold(s.graph, sys);
    var after := DoRelease(sys, id);
    forall x ensures Tallied(s, retry, after, x) {
      assert Failures(after, x) == if x == id then 0 else Failures(sys, x);
      assert Tallied(s, retry, sys, x);
    }
    forall v ensures Unspent(after, v) {
      assert JobOf(after, v) == JobOf(sys, v);
      assert Unspent(sys, v);
    }
  }

  lemma ClaimBounded(s: Setup, retry: RetryPolicy, sys: System, w: string, id: string, now: int)
    requires Safe(s.graph, sys) && Bounded(s, retry, sys) && PhaseOf(sys, w).Free?
    ensures Bounded(s, retry, DoClaim(sys, w, id, now))
  {
    hide TriesOf, Safe;
    TriesPositive(s, retry, id);
    AllJobsHold(s.graph, sys);
    var after := DoClaim(sys, w, id, now);
    TalliedAt(s, retry, sys, id);
    forall x ensures Tallied(s, retry, after, x) {
      assert Failures(after, x) == Failures(sys, x);
      assert Tallied(s, retry, sys, x);
    }
    forall v ensures Unspent(after, v) {
      if v != w && JobOf(after, v).Some? {
        assert JobOf(after, v) == JobOf(sys, v);
        assert Unspent(sys, v);
      }
    }
  }

  lemma TalliedAt(s: Setup, retry: RetryPolicy, sys: System, id: string)
    requires Bounded(s, retry, sys)
    ensures Tallied(s, retry, sys, id)
  {
    assert Failures(sys, id) >= 0;
  }

  /** The tally once a job for `id` has written, whatever its execution came to. */
  lemma WriteTally(
      s: Setup, retry: RetryPolicy, before: System, after: System, w: string, id: string, ending: Ending, x: string)
    requires Tallied(s, retry, before, x) && HoldsClaim(before.rows, w, id)
    requires Failures(before, id) < before.rows[id].attempts
    requires after.rows == Finish(before.rows, id, ending, before.rows[id].attempts >= TriesOf(s, retry, id))
    requires Failures(after, x) == Failures(before, x) + if x == id && ending.Broke? then 1 else 0
    ensures Tallied(s, retry, after, x)
  {
    hide TriesOf, Failures;
  }

  /** What a write does besides the row. */
  lemma WriteShape(s: Setup, retry: RetryPolicy, sys: System, w: string, ending: Ending, x: string)
    requires PhaseOf(sys, w).Replaying?
    ensures var id := PhaseOf(sys, w).node; var after := DoWrite(s, retry, sys, w, ending);
      && Failures(after, x) == Failures(sys, x) + (if x == id && ending.Broke? then 1 else 0)
      && JobOf(after, x) == if x == w then None else JobOf(sys, x)
  {
    hide Finish, TriesOf;
  }

  lemma WriteUnspent(g: Graph, sys: System, after: System, w: string, v: string)
    requires Safe(g, sys) && PhaseOf(sys, w).Replaying? && Unspent(sys, v) && v != w && JobOf(after, v) == JobOf(sys, v)
    requires var id := PhaseOf(sys, w).node; id in after.rows && after.rows == sys.rows[id := after.rows[id]]
    requires forall x :: x != PhaseOf(sys, w).node ==> Failures(after, x) == Failures(sys, x)
    ensures Unspent(after, v)
  {
    hide Safe;
    JobHolds(g, sys, w);
    if JobOf(sys, v).Some? { JobHolds(g, sys, v); }
  }

  lemma WriteBounded(s: Setup, retry: RetryPolicy, sys: System, w: string, ending: Ending)
    requires Safe(s.graph, sys) && Bounded(s, retry, sys) && PhaseOf(sys, w).Replaying?
    ensures Bounded(s, retry, DoWrite(s, retry, sys, w, ending))
  {
    hide TriesOf, Safe, Finish, Tallied, Legit, Startable, Later;
    var p, after := PhaseOf(sys, w), DoWrite(s, retry, sys, w, ending);
    var id := p.node;
    JobInOrder(s.graph, sys, w);
    assert JobOf(sys, w) == Some(id);
    assert Unspent(sys, w);
    FinishRow(sys.rows, id, ending, IsLastTry(TriesOf(s, retry, id), p.snapshot, id));
    forall x ensures Tallied(s, retry, after, x) {
      TalliedAt(s, retry, sys, x);
      WriteShape(s, retry, sys, w, ending, x);
      WriteTally(s, retry, sys, after, w, id, ending, x);
    }
    forall v ensures Unspent(after, v) {
      WriteShape(s, retry, sys, w, ending, v);
      assert Unspent(sys, v) by { assert JobOf(sys, v) == JobOf(sys, v); }
      forall x | x != id ensures Failures(after, x) == Failures(sys, x) { WriteShape(s, retry, sys, w, ending, x); }
      if v != w { WriteUnspent(s.graph, sys, after, w, v); }
    }
  }

  lemma StepBounded(s: Setup, retry: RetryPolicy, sys: System, move: Move)
    requires UniqueIds(s.graph) && Safe(s.graph, sys) && Enabled(s.graph, sys, move) && Bounded(s, retry, sys)
    ensures Bounded(s, retry, After(s, retry, sys, move))
  {
    hide Safe, Answers, Bounded, TriesOf, Finish, DoSkip, DoWrite, DoClaim, DoRelease, UniqueIds;
    match move
    case Claim(w, id, now) => ClaimBounded(s, retry, sys, w, id, now);
    case Write(w, ending) => WriteBounded(s, retry, sys, w, ending);
    case Skip(w) => SkipBounded(s, retry, sys, w);
    case Release(id) => ReleaseBounded(s, retry, sys, id);
    case _ => SameRowsBounded(s, retry, sys, After(s, retry, sys, move));
  }

  lemma StartBounded(s: Setup, retry: RetryPolicy)
    ensures Bounded(s, retry, Start())
  {
    hide TriesOf;
    forall id ensures Tallied(s, retry, Start(), id) {}
    forall w ensures Unspent(Start(), w) { assert JobOf(Start(), w) == None; }
  }
}
