/** Settling a cascade and doing one job, as changes to the rows. */
module Jobs {
  import opened Wrappers
  import opened Values
  import opened Schema
  import opened Activation
  import opened Topology
  import opened Semantics
  import opened Diagnostics
  import opened Store
  import opened Frontier
  import opened Checkpoints
  import opened Replay
  import opened Retry
  import opened Settling

  /** A job for `id` may be started: its sources are settled and the run means it to be looked at. */
  ghost predicate Dispatchable(s: Setup, rows: Rows, id: string) {
    id in Ids(s.graph) && SourcesSettled(s.graph, rows, id) && (Sortable(s.graph) ==> !Collapses(s, Meaning(s), id))
  }

  lemma DispatchableLater(s: Setup, seen: Rows, rows: Rows, id: string)
    requires Dispatchable(s, seen, id) && Later(seen, rows)
    ensures Dispatchable(s, rows, id)
  {
    hide Meaning, Into, Collapses;
    forall e | e in Incoming(s.graph, id) ensures Settled(rows, e.source) {
      assert Settled(seen, e.source);
    }
  }

  // ---- settling a cascade -------------------------------------------------------------------------------

  /** A settled node of the snapshot, or an earlier skip, is settled now. */
  lemma SourcesNow(
      g: Graph, seen: Rows, rows: Rows, skipped: seq<string>, k: nat, id: string)
    requires Later(seen, rows) && k <= |skipped| && forall j :: 0 <= j < k ==> Settled(rows, skipped[j])
    requires forall j :: 0 <= j < k ==> skipped[j] !in SettledPorts(seen)
    requires Unblocked(With(SettledPorts(seen), skipped[..k]), Incoming(g, id))
    ensures SourcesSettled(g, rows, id)
  {
    hide Into;
    forall e | e in Incoming(g, id) ensures Settled(rows, e.source) {
      WithKeys(SettledPorts(seen), skipped[..k], e.source);
      assert e.source in SettledPorts(seen) ==> Settled(seen, e.source);
    }
  }

  /** Where the run has a meaning, what is settled in the snapshot lit the ports it means. */
  ghost predicate Tells(s: Setup, seen: Rows) {
    Sortable(s.graph) ==> Agrees(s, Meaning(s), SettledPorts(seen))
  }

  lemma SoundTells(s: Setup, rows: Rows)
    requires Sound(s, rows)
    ensures Tells(s, rows)
  {
    hide Meaning, Agrees, SettledPorts, RowFits;
    if Sortable(s.graph) { FitsAgree(s, Meaning(s), rows); }
  }

  /** A skip that finds no row leaves one that fits the run. */
  lemma SkipSound(s: Setup, seen: Rows, rows: Rows, ready: seq<string>, skipped: seq<string>, k: nat)
    requires UniqueIds(s.graph) && s.resume == map[] && Tells(s, seen) && Sound(s, rows) && Later(seen, rows)
    requires Answers(s.graph, seen, ready, skipped) && k < |skipped| && skipped[k] !in rows
    requires forall j :: 0 <= j < k ==> Settled(rows, skipped[j])
    ensures Sound(s, AfterSkip(rows, skipped[k]))
  {
    hide Skippable, Runnable, Collapses, Meaning, RowFits, PortsOf, Doomed, Into, Agrees;
    var id, base := skipped[k], SettledPorts(seen);
    SkippedHaveNoRow(s.graph, seen, ready, skipped);
    assert Dies(s.graph, With(base, skipped[..k]), HeldIds(seen), id);
    DiesUnblocked(s.graph, With(base, skipped[..k]), HeldIds(seen), id);
    SourcesNow(s.graph, seen, rows, skipped, k, id);
    if Sortable(s.graph) {
      FrontierAgrees(s, Meaning(s), seen, ready, skipped);
      SkippedFits(s, Meaning(s), id);
    }
    PutSound(s, rows, id, NewRow(Skipped));
  }

  /** Where the run has a meaning, rows that fit it are rows the moves can reach. */
  lemma SoundLegit(s: Setup, rows: Rows)
    requires UniqueIds(s.graph) && s.resume == map[] && Sortable(s.graph) && Sound(s, rows)
    ensures Legit(s.graph, rows)
  {
    hide Meaning, RowFits, Doomed, SourcesSettled, Live, Into;
    forall id | id in rows
      ensures id in Ids(s.graph) && SourcesSettled(s.graph, rows, id)
      ensures rows[id].status.Skipped? || Live(s.graph, rows, id)
    {
      assert SourcesSettled(s.graph, rows, id);
      assert RowFits(s, Meaning(s), id, rows[id]);
      if !rows[id].status.Skipped? { FittingIsLive(s, Meaning(s), rows, id); }
    }
  }

  lemma FittingIsLive(s: Setup, m: Verdicts, rows: Rows, id: string)
    requires UniqueIds(s.graph) && s.resume == map[] && Solves(s, m) && Fits(s, m, rows) && id in Ids(s.graph)
    requires id in rows && !rows[id].status.Skipped? && SourcesSettled(s.graph, rows, id)
    ensures Live(s.graph, rows, id)
  {
    hide Collapses, Solves, PortsOf, Agrees, Into;
    var i := IndexOf(s.graph, id);
    var node := s.graph.nodes[i];
    assert RowFits(s, m, id, rows[id]);
    if Collapses(s, m, id) { NotesAreQuiet(s, m, id); }
    FitsAgree(s, m, rows);
    DecideAgrees(s, m, SettledPorts(rows), node);
    assert Runnable(s.graph, SettledPorts(rows), node);
  }

  /** A stale skip lands as it does whatever executions end in, and the rows still fit the run. */
  lemma SkipLands(s: Setup, seen: Rows, rows: Rows, ready: seq<string>, skipped: seq<string>, k: nat)
    requires UniqueIds(s.graph) && s.resume == map[] && Tells(s, seen) && Sound(s, rows) && Later(seen, rows)
    requires Legit(s.graph, rows) && Answers(s.graph, seen, ready, skipped) && k < |skipped|
    requires forall j :: 0 <= j < k ==> Settled(rows, skipped[j])
    ensures skipped[k] in rows ==> rows[skipped[k]].status.Skipped?
    ensures AfterSkip(rows, skipped[k]) == if skipped[k] in rows then rows else rows[skipped[k] := NewRow(Skipped)]
    ensures Sound(s, AfterSkip(rows, skipped[k]))
  {
    hide Sound, Legit, Answers, Later, Tells;
    StaleSkipLands(s.graph, seen, rows, ready, skipped, k);
    if skipped[k] !in rows { SkipSound(s, seen, rows, ready, skipped, k); }
  }

  lemma SkippedFits(s: Setup, m: Verdicts, id: string)
    requires Solves(s, m) && s.resume == map[] && Collapses(s, m, id)
    ensures RowFits(s, m, id, NewRow(Skipped))
  {
    hide Collapses, Solves;
    NotesAreQuiet(s, m, id);
  }

  lemma DiesUnblocked(g: Graph, settled: Ports, held: set<string>, id: string)
    requires Dies(g, settled, held, id)
    ensures id in Ids(g) && Unblocked(settled, Incoming(g, id))
  {
    var node :| node in g.nodes && node.id == id && Skippable(g, settled, node);
    var i :| 0 <= i < |g.nodes| && g.nodes[i] == node;
    IdsHas(g, i);
  }

  lemma ReadyUnblocked(g: Graph, settled: Ports, held: set<string>, id: string)
    requires Ready(g, settled, held, id)
    ensures id in Ids(g) && Unblocked(settled, Incoming(g, id))
  {
    var node :| node in g.nodes && node.id == id && Runnable(g, settled, node);
    var i :| 0 <= i < |g.nodes| && g.nodes[i] == node;
    IdsHas(g, i);
  }

  /** Once the cascade is settled, each ready node may have a job, then and ever after. */
  lemma ReadyLands(s: Setup, seen: Rows, rows: Rows, ready: seq<string>, skipped: seq<string>, i: nat)
    requires UniqueIds(s.graph) && s.resume == map[] && Sound(s, seen) && Later(seen, rows)
    requires Answers(s.graph, seen, ready, skipped) && i < |ready|
    requires forall j :: 0 <= j < |skipped| ==> Settled(rows, skipped[j])
    ensures Dispatchable(s, rows, ready[i]) && ready[i] !in seen && ready[i] !in skipped
  {
    hide Skippable, Runnable, Collapses, Meaning, RowFits, PortsOf, Doomed, Into;
    var base := SettledPorts(seen);
    SkippedHaveNoRow(s.graph, seen, ready, skipped);
    assert ready[i] in ready;
    ReadyUnblocked(s.graph, With(base, skipped), HeldIds(seen), ready[i]);
    assert skipped[..|skipped|] == skipped;
    SourcesNow(s.graph, seen, rows, skipped, |skipped|, ready[i]);
    WithKeys(base, skipped, ready[i]);
    SoundTells(s, seen);
    if Sortable(s.graph) { FrontierAgrees(s, Meaning(s), seen, ready, skipped); }
  }

  // ---- one job --------------------------------------------------------------------------------------------

  /** How a job for `id` ends: as the run means, or with the cycle every replay reports. */
  ghost function Ends(s: Setup, id: string): Ending {
    if Sortable(s.graph) then EndingOf(s, Meaning(s), id) else Broke(Cycle)
  }

  /** How many attempts the node gets, its kind resolved the way the walk's diagnostics resolve it. */
  function TriesOf(s: Setup, retry: RetryPolicy, id: string): U32 {
    match Find(s.graph.nodes, id)
    case None => 1
    case Some(node) => TriesFor(retry, node, KindOf(s, node))
  }

  lemma TriesPositive(s: Setup, retry: RetryPolicy, id: string)
    ensures TriesOf(s, retry, id) >= 1
  {
    hide KindOf, Find, FirstOverride, Candidates;
  }

  /** The rows once a job has ended. A failure that is not the last keeps the claim. */
  function Finish(rows: Rows, id: string, ending: Ending, last: bool): Rows {
    match ending
    case Produced(output, ports) => AfterComplete(rows, id, output, ports)
    case Parked(reason) => AfterPause(rows, id, reason)
    case Unreached => AfterSkip(rows, id)
    case Broke(reason) => if last then AfterFail(rows, id, reason) else rows
  }

  function AfterEnding(rows: Rows, id: string, ending: Ending, tries: U32): Rows {
    Finish(rows, id, ending, Entry(rows, id).attempts >= tries)
  }

  lemma ClaimSound(s: Setup, rows: Rows, id: string, owner: string, now: int)
    requires Sound(s, rows) && Dispatchable(s, rows, id) && MayClaim(rows, id, owner)
    ensures Sound(s, AfterClaim(rows, id, owner, now))
    ensures Dispatchable(s, AfterClaim(rows, id, owner, now), id)
    ensures Later(rows, AfterClaim(rows, id, owner, now))
  {
    hide Meaning, Into, Collapses, Doomed, PortsOf;
    if Sortable(s.graph) && id in rows { assert RowFits(s, Meaning(s), id, rows[id]); }
    PutSound(s, rows, id, ClaimRow(rows, id, owner, now));
  }

  /** What a job writes fits the run, and settles, parks or keeps the one row it holds. */
  lemma EndingSound(s: Setup, rows: Rows, id: string, tries: U32)
    requires Sound(s, rows) && Dispatchable(s, rows, id) && id in rows && rows[id].status.Claimed?
    ensures Sound(s, AfterEnding(rows, id, Ends(s, id), tries))
    ensures Later(rows, AfterEnding(rows, id, Ends(s, id), tries))
    ensures var after := AfterEnding(rows, id, Ends(s, id), tries); id in after && after == rows[id := after[id]]
  {
    hide Meaning, Into, Doomed, PortsOf;
    if Sortable(s.graph) { assert RowFits(s, Meaning(s), id, rows[id]); }
    var after := AfterEnding(rows, id, Ends(s, id), tries);
    PutSound(s, rows, id, after[id]);
    assert after == rows[id := after[id]];
  }
}
