/** One row a node, and the store that claims and settles them. */
module Store {
  import opened Wrappers
  import opened Values
  import opened Semantics

  datatype Status = Claimed | Completed | Skipped | Failed | Paused
  {
    /** The frontier may treat the node as decided. */
    predicate IsSettled() {
      Completed? || Skipped? || Failed?
    }

    /** The node occupies one of the run's dispatch slots. */
    predicate IsHeld() {
      Claimed? || Paused?
    }
  }

  datatype Row = Row(
    status: Status, ports: seq<string>, output: Option<Json>, error: Option<Reason>,
    owner: Option<string>, attempts: U32, firstAttemptAt: Option<int>)

  type Rows = map<string, Row>

  /** The attempt counter saturates. */
  function Bump(attempts: U32): U32 {
    if attempts < MAX_U32 then attempts + 1 else attempts
  }

  function NewRow(status: Status): Row {
    Row(status, [], None, None, None, 0, None)
  }

  // ---- one run's rows -------------------------------------------------------------------------------

  function Settled(rows: Rows, id: string): bool {
    id in rows && rows[id].status.IsSettled()
  }

  function Held(rows: Rows, id: string): bool {
    id in rows && rows[id].status.IsHeld()
  }

  /** Everything settled in `seen` is still there, unchanged. A snapshot is never wrong about what it saw settled. */
  ghost predicate Later(seen: Rows, rows: Rows) {
    forall id {:trigger Settled(seen, id)} :: Settled(seen, id) ==> id in rows && rows[id] == seen[id]
  }

  /** The row itself, or the claimed one a write to an unclaimed node creates. */
  function Entry(rows: Rows, id: string): Row {
    if id in rows then rows[id] else NewRow(Claimed)
  }

  /** A free node, or a claim re-entered by its own owner. */
  predicate MayClaim(rows: Rows, id: string, owner: string) {
    id !in rows || (rows[id].status.IsHeld() && rows[id].owner == Some(owner))
  }

  /** The retry clock is the first claim's: a re-entry counts an attempt and leaves the clock alone. */
  function ClaimRow(rows: Rows, id: string, owner: string, now: int): Row {
    if id in rows then rows[id].(attempts := Bump(rows[id].attempts), status := Claimed)
    else Row(Claimed, [], None, None, Some(owner), 1, Some(now))
  }

  function AfterClaim(rows: Rows, id: string, owner: string, now: int): Rows {
    if MayClaim(rows, id, owner) then rows[id := ClaimRow(rows, id, owner, now)] else rows
  }

  function AfterComplete(rows: Rows, id: string, output: Json, ports: seq<string>): Rows {
    rows[id := Entry(rows, id).(status := Completed, output := Some(output), ports := ports, error := None)]
  }

  function AfterSkip(rows: Rows, id: string): Rows {
    if Settled(rows, id) then rows else rows[id := Entry(rows, id).(status := Skipped, ports := [])]
  }

  function AfterFail(rows: Rows, id: string, error: Reason): Rows {
    rows[id := Entry(rows, id).(status := Failed, error := Some(error), ports := [])]
  }

  function AfterPause(rows: Rows, id: string, reason: Reason): Rows {
    rows[id := Entry(rows, id).(status := Paused, error := Some(reason), ports := [])]
  }

  // ---- histories of one run, between two releases ---------------------------------------------------

  /** One call on the store. */
  datatype Op =
    | ClaimOp(node: string, owner: string, now: int)
    | CompleteOp(node: string, output: Json, ports: seq<string>)
    | SkipOp(node: string)
    | FailOp(node: string, reason: Reason)
    | PauseOp(node: string, reason: Reason)

  function Apply(rows: Rows, op: Op): Rows {
    match op
    case ClaimOp(id, owner, now) => AfterClaim(rows, id, owner, now)
    case CompleteOp(id, output, ports) => AfterComplete(rows, id, output, ports)
    case SkipOp(id) => AfterSkip(rows, id)
    case FailOp(id, reason) => AfterFail(rows, id, reason)
    case PauseOp(id, reason) => AfterPause(rows, id, reason)
  }

  function AfterAll(rows: Rows, ops: seq<Op>): Rows {
    if ops == [] then rows else Apply(AfterAll(rows, ops[..|ops| - 1]), ops[|ops| - 1])
  }

  /** Call `k` is a claim of `id` that succeeds. */
  predicate Wins(rows: Rows, ops: seq<Op>, k: nat, id: string)
    requires k < |ops|
  {
    ops[k].ClaimOp? && ops[k].node == id && MayClaim(AfterAll(rows, ops[..k]), id, ops[k].owner)
  }

  function WinCount(rows: Rows, ops: seq<Op>, k: nat, id: string): nat
    requires k <= |ops|
  {
    if k == 0 then 0 else WinCount(rows, ops, k - 1, id) + if Wins(rows, ops, k - 1, id) then 1 else 0
  }

  /** Without a release, a row never disappears, changes hands, or moves its retry clock. */
  lemma {:induction false} ClaimKept(rows: Rows, ops: seq<Op>, id: string)
    requires id in rows
    ensures id in AfterAll(rows, ops)
    ensures AfterAll(rows, ops)[id].owner == rows[id].owner
    ensures AfterAll(rows, ops)[id].firstAttemptAt == rows[id].firstAttemptAt
  {
    if ops != [] {
      ClaimKept(rows, ops[..|ops| - 1], id);
    }
  }

  /** Whatever rows there are, a node's attempts go up by its successful claims, up to the counter's limit. */
  lemma {:induction false} AttemptsCountClaims(rows: Rows, ops: seq<Op>, id: string)
    ensures var after, wins := AfterAll(rows, ops), WinCount(rows, ops, |ops|, id);
      var total := wins + if id in rows then rows[id].attempts else 0;
      if id in after then after[id].attempts == if total < MAX_U32 then total else MAX_U32
      else id !in rows && wins == 0
  {
    if ops != [] {
      var front := ops[..|ops| - 1];
      AttemptsCountClaims(rows, front, id);
      WinsPrefix(rows, ops, |front|, id);
    }
  }

  lemma {:induction false} WinsPrefix(rows: Rows, ops: seq<Op>, k: nat, id: string)
    requires k <= |ops|
    ensures WinCount(rows, ops[..k], k, id) == WinCount(rows, ops, k, id)
  {
    WinCountPrefix(rows, ops, k, k, id);
  }

  lemma {:induction false} WinCountPrefix(rows: Rows, ops: seq<Op>, k: nat, j: nat, id: string)
    requires j <= k <= |ops|
    ensures WinCount(rows, ops[..k], j, id) == WinCount(rows, ops, j, id)
  {
    if j > 0 {
      WinCountPrefix(rows, ops, k, j - 1, id);
      assert ops[..k][..j - 1] == ops[..j - 1];
    }
  }

  /** The claim is a unique constraint: between two releases only one owner ever wins a node. */
  lemma OneWinner(rows: Rows, ops: seq<Op>, i: nat, j: nat, id: string)
    requires i < j < |ops| && Wins(rows, ops, i, id) && Wins(rows, ops, j, id)
    ensures ops[i].owner == ops[j].owner
  {
    var before := AfterAll(rows, ops[..i]);
    var won := Apply(before, ops[i]);
    assert ops[..i + 1][..i] == ops[..i];
    assert won == AfterAll(rows, ops[..i + 1]);
    assert won[id].owner == Some(ops[i].owner);
    AfterSplit(rows, ops[..j], i + 1);
    assert ops[..j][..i + 1] == ops[..i + 1];
    ClaimKept(won, ops[..j][i + 1..], id);
  }

  lemma {:induction false} AfterSplit(rows: Rows, ops: seq<Op>, k: nat)
    requires k <= |ops|
    ensures AfterAll(rows, ops) == AfterAll(AfterAll(rows, ops[..k]), ops[k..])
  {
    if k == |ops| {
      assert ops[..k] == ops;
    } else {
      var front := ops[..|ops| - 1];
      AfterSplit(rows, front, k);
      assert front[..k] == ops[..k] && front[k..] == ops[k..][..|ops[k..]| - 1];
    }
  }

  /** The operations that can meet a settled row by accident: a lost claim and a late skip. */
  predicate Harmless(op: Op, id: string) {
    op.node != id || op.ClaimOp? || op.SkipOp?
  }

  /** Neither a late claim nor a stale skip disturbs a settled row. */
  lemma {:induction false} SettledSurvives(rows: Rows, ops: seq<Op>, id: string)
    requires Settled(rows, id) && forall k :: 0 <= k < |ops| ==> Harmless(ops[k], id)
    ensures id in AfterAll(rows, ops) && AfterAll(rows, ops)[id] == rows[id]
  {
    if ops != [] {
      assert Harmless(ops[|ops| - 1], id);
      SettledSurvives(rows, ops[..|ops| - 1], id);
    }
  }

  // ---- the in-memory store ----------------------------------------------------------------------------

  class InMemoryClaimStore {
    var runs: map<string, Rows>

    constructor ()
      ensures runs == map[]
    {
      runs := map[];
    }

    /** Every row of one run. */
    function State(run: string): Rows
      reads this
    {
      if run in runs then runs[run] else map[]
    }

    method Put(run: string, id: string, row: Row)
      modifies this
      ensures runs == old(runs)[run := old(State(run))[id := row]]
    {
      runs := runs[run := State(run)[id := row]];
    }

    /** Take exclusive ownership of a node. A lost race changes nothing. */
    method Claim(run: string, id: string, owner: string, now: int) returns (won: bool)
      modifies this
      ensures won <==> MayClaim(old(State(run)), id, owner)
      ensures State(run) == AfterClaim(old(State(run)), id, owner, now)
      ensures !won ==> runs == old(runs)
      ensures forall other :: other != run ==> State(other) == old(State(other))
    {
      var rows := State(run);
      if id !in rows {
        Put(run, id, Row(Claimed, [], None, None, Some(owner), 1, Some(now)));
        return true;
      }
      var existing := rows[id];
      if !(existing.status.IsHeld() && existing.owner == Some(owner)) {
        return false;
      }
      Put(run, id, existing.(attempts := Bump(existing.attempts), status := Claimed));
      return true;
    }

    /** Checkpoint an output and the ports it activated. */
    method Complete(run: string, id: string, output: Json, ports: seq<string>)
      modifies this
      ensures State(run) == AfterComplete(old(State(run)), id, output, ports)
      ensures forall other :: other != run ==> State(other) == old(State(other))
    {
      Put(run, id, Entry(State(run), id).(status := Completed, output := Some(output), ports := ports, error := None));
    }

    /** Settle a node as skipped, unless it is settled already. */
    method Skip(run: string, id: string) returns (settled: bool)
      modifies this
      ensures settled <==> !Settled(old(State(run)), id)
      ensures State(run) == AfterSkip(old(State(run)), id)
      ensures forall other :: other != run ==> State(other) == old(State(other))
    {
      if Settled(State(run), id) {
        return false;
      }
      Put(run, id, Entry(State(run), id).(status := Skipped, ports := []));
      return true;
    }

    /** Settle a node as failed. */
    method Fail(run: string, id: string, error: Reason)
      modifies this
      ensures State(run) == AfterFail(old(State(run)), id, error)
      ensures forall other :: other != run ==> State(other) == old(State(other))
    {
      Put(run, id, Entry(State(run), id).(status := Failed, error := Some(error), ports := []));
    }

    /** Park a node on a person. */
    method Pause(run: string, id: string, reason: Reason)
      modifies this
      ensures State(run) == AfterPause(old(State(run)), id, reason)
      ensures forall other :: other != run ==> State(other) == old(State(other))
    {
      Put(run, id, Entry(State(run), id).(status := Paused, error := Some(reason), ports := []));
    }

    /** Drop a node's row, so that a recorded answer can run it again. */
    method Release(run: string, id: string)
      modifies this
      ensures State(run) == old(State(run)) - {id}
      ensures forall other :: other != run ==> State(other) == old(State(other))
    {
      if run in runs {
        runs := runs[run := runs[run] - {id}];
      }
    }
  }
}
