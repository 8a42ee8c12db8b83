/** The per-node driver: what to dispatch, how one job runs, and a driver over the two. */
module Coordinator {
  import opened Wrappers
  import opened Values
  import opened Schema
  import opened Activation
  import opened Topology
  import opened Semantics
  import opened Diagnostics
  import opened Engine
  import opened Store
  import opened Frontier
  import opened Dispatch
  import opened Retry
  import opened Checkpoints
  import opened Replay
  import opened Jobs
  import opened Varying
  import opened Numerals

  // ---- diagnostics read off the rows --------------------------------------------------------------------

  /** What the rows say about an edge's source. */
  function RowAnswer(rows: Rows, e: Edge): Answer {
    if e.source in rows && rows[e.source].status.Completed? then
      Answer(true, e.SourcePort() in rows[e.source].ports, Dedup(rows[e.source].ports))
    else Answer(false, false, [])
  }

  function RowAnswers(rows: Rows, edges: seq<Edge>): (r: seq<Answer>)
    ensures |r| == |edges|
  {
    if edges == [] then []
    else RowAnswers(rows, edges[..|edges| - 1]) + [RowAnswer(rows, edges[|edges| - 1])]
  }

  /** Each skipped node's warnings in turn. */
  function Deliver(s: Setup, rows: Rows, heard: Log, skipped: seq<string>): Log {
    if skipped == [] then heard
    else
      var id := skipped[|skipped| - 1];
      var front := Deliver(s, rows, heard, skipped[..|skipped| - 1]);
      WarnAll(front, Warnings(s, id, Incoming(s.graph, id), RowAnswers(rows, Incoming(s.graph, id))))
  }

  /** Where a source is decided, its row, or its having none yet, answers as the run does. */
  lemma RowAnswerMeans(s: Setup, m: Verdicts, rows: Rows, skipped: seq<string>, e: Edge)
    requires Solves(s, m) && s.resume == map[] && Fits(s, m, rows)
    requires (forall j :: 0 <= j < |skipped| ==> Collapses(s, m, skipped[j]))
    requires Settled(rows, e.source) || (e.source !in rows && e.source in skipped)
    ensures RowAnswer(rows, e) == MeaningAnswer(s, m, e)
  {
    hide Collapses, Solves, PublishedBy;
    if e.source in rows {
      assert RowFits(s, m, e.source, rows[e.source]);
      if !rows[e.source].status.Completed? { QuietPorts(s, m, e.source); }
    } else {
      NotesAreQuiet(s, m, e.source);
      QuietPorts(s, m, e.source);
    }
  }

  lemma {:induction false} RowAnswersMean(s: Setup, m: Verdicts, rows: Rows, edges: seq<Edge>)
    requires forall i :: 0 <= i < |edges| ==> RowAnswer(rows, edges[i]) == MeaningAnswer(s, m, edges[i])
    ensures RowAnswers(rows, edges) == MeaningAnswers(s, m, edges)
  {
    hide RowAnswer, MeaningAnswer;
    if edges != [] { RowAnswersMean(s, m, rows, edges[..|edges| - 1]); }
  }

  /** The skip diagnostics are the single-process run's. */
  lemma SkipWarningsMean(s: Setup, m: Verdicts, rows: Rows, ready: seq<string>, skipped: seq<string>, k: nat)
    requires UniqueIds(s.graph) && Solves(s, m) && s.resume == map[] && Fits(s, m, rows)
    requires Answers(s.graph, rows, ready, skipped) && k < |skipped|
    ensures var id := skipped[k]; var edges := Incoming(s.graph, id);
      Warnings(s, id, edges, RowAnswers(rows, edges)) == NodeWarnings(s, m, id)
  {
    hide Skippable, Runnable, Collapses, PortsOf, Solves, Fits, Agrees, Into, Warnings, RowAnswer, MeaningAnswer;
    var id, base := skipped[k], SettledPorts(rows);
    var edges := Incoming(s.graph, id);
    SkippedHaveNoRow(s.graph, rows, ready, skipped);
    FitsAgree(s, m, rows);
    FrontierAgrees(s, m, rows, ready, skipped);
    assert Dies(s.graph, With(base, skipped[..k]), HeldIds(rows), id);
    DiesUnblocked(s.graph, With(base, skipped[..k]), HeldIds(rows), id);
    forall i | 0 <= i < |edges| ensures RowAnswer(rows, edges[i]) == MeaningAnswer(s, m, edges[i]) {
      assert edges[i] in edges;
      WithKeys(base, skipped[..k], edges[i].source);
      RowAnswerMeans(s, m, rows, skipped, edges[i]);
    }
    RowAnswersMean(s, m, rows, edges);
  }

  // ---- the sink -----------------------------------------------------------------------------------------

  /** The events of `events` that are about `id`, or about no node, after those already heard. */
  function Forwarded(heard: Log, id: string, events: Log): Log {
    match events
    case Empty => heard
    case Then(earlier, last) =>
      var front := Forwarded(heard, id, earlier);
      if last.NodeId() == None || last.NodeId() == Some(id) then Then(front, last) else front
  }

  lemma {:induction false} ForwardedWarnings(heard: Log, id: string, events: Log, x: string)
    ensures WarningsFor(Forwarded(heard, id, events), x)
         == if x == id then WarningsFor(heard, x) + WarningsFor(events, x) else WarningsFor(heard, x)
  {
    match events
    case Empty =>
      EmptyRight(WarningsFor(heard, x));
    case Then(earlier, last) =>
      ForwardedWarnings(heard, id, earlier, x);
      if x == id && last.Warn? && last.warning.target == id {
        Regroup(WarningsFor(heard, x), WarningsFor(earlier, x), [last.warning]);
      }
  }

  /** The sink has had each recorded node's warnings, once, and no other node's. */
  ghost predicate Told(s: Setup, m: Verdicts, rows: Rows, heard: Log) {
    forall id {:trigger WarningsFor(heard, id)} :: id in Ids(s.graph) ==>
      WarningsFor(heard, id) == if id in rows then NodeWarnings(s, m, id) else []
  }

  lemma {:induction false} DeliverTells(
      s: Setup, m: Verdicts, rows: Rows, heard: Log, ready: seq<string>, skipped: seq<string>, k: nat)
    requires UniqueIds(s.graph) && Solves(s, m) && s.resume == map[] && Fits(s, m, rows)
    requires Answers(s.graph, rows, ready, skipped) && k <= |skipped|
    requires Told(s, m, rows, heard)
    ensures Told(s, m, AfterSkips(rows, skipped[..k]), Deliver(s, rows, heard, skipped[..k]))
  {
    hide Answers, Fits, Solves, NodeWarnings, Warnings, RowAnswers, WarningsFor, WarnAll;
    if k == 0 {
      assert skipped[..0] == [];
    } else {
      DeliverTells(s, m, rows, heard, ready, skipped, k - 1);
      assert skipped[..k][..k - 1] == skipped[..k - 1];
      TellOne(s, m, rows, heard, ready, skipped, k - 1);
    }
  }

  lemma TellOne(s: Setup, m: Verdicts, rows: Rows, heard: Log, ready: seq<string>, skipped: seq<string>, k: nat)
    requires UniqueIds(s.graph) && Solves(s, m) && s.resume == map[] && Fits(s, m, rows)
    requires Answers(s.graph, rows, ready, skipped) && k < |skipped|
    requires var before := Deliver(s, rows, heard, skipped[..k]); Told(s, m, AfterSkips(rows, skipped[..k]), before)
    ensures var id := skipped[k]; var edges := Incoming(s.graph, id);
      Told(s, m, AfterSkip(AfterSkips(rows, skipped[..k]), id),
        WarnAll(Deliver(s, rows, heard, skipped[..k]), Warnings(s, id, edges, RowAnswers(rows, edges))))
  {
    hide Answers, Fits, Solves, NodeWarnings, Warnings, RowAnswers, Deliver, WarnAll, Told, AfterSkips;
    var id, edges := skipped[k], Incoming(s.graph, skipped[k]);
    SkipWarningsMean(s, m, rows, ready, skipped, k);
    SkippedHaveNoRow(s.graph, rows, ready, skipped);
    SkipsAreNew(rows, skipped[..k], id);
    assert forall j :: 0 <= j < k ==> skipped[..k][j] == skipped[j];
    WarnedTarget(s, id, edges, RowAnswers(rows, edges));
    TellMore(s, m, AfterSkips(rows, skipped[..k]), Deliver(s, rows, heard, skipped[..k]), id);
  }

  lemma TellMore(s: Setup, m: Verdicts, rows: Rows, heard: Log, id: string)
    requires Told(s, m, rows, heard) && id !in rows
    requires forall w :: w in NodeWarnings(s, m, id) ==> w.target == id
    ensures Told(s, m, AfterSkip(rows, id), WarnAll(heard, NodeWarnings(s, m, id)))
  {
    hide NodeWarnings, WarnAll, WarningsFor;
    var after := WarnAll(heard, NodeWarnings(s, m, id));
    forall x | x in Ids(s.graph)
      ensures WarningsFor(after, x) == if x in AfterSkip(rows, id) then NodeWarnings(s, m, x) else []
    {
      WarnAllReadBack(heard, NodeWarnings(s, m, id), id, x);
      assert WarningsFor(heard, x) == if x in rows then NodeWarnings(s, m, x) else [];
      EmptyRight(NodeWarnings(s, m, x));
    }
  }

  // ---- outcomes -------------------------------------------------------------------------------------------

  datatype JobStatus = NotClaimed | JobCompleted | JobSkipped | JobPaused | JobFailed

  datatype NodeOutcome = NodeOutcome(
    node: string, status: JobStatus, attempt: U32, output: Option<Json>, ports: seq<string>,
    pause: Option<Reason>, error: Option<Reason>, retryable: bool)

  /** What a job that held its claim reports. */
  function OutcomeOf(id: string, ending: Ending, attempt: U32, tries: U32): NodeOutcome {
    match ending
    case Produced(output, ports) => NodeOutcome(id, JobCompleted, attempt, Some(output), ports, None, None, false)
    case Parked(reason) => NodeOutcome(id, JobPaused, attempt, None, [], Some(reason), None, false)
    case Unreached =>
      NodeOutcome(id, JobSkipped, attempt, None, [], None,
        Some(Failure("the engine skipped this node: no inbound edge was active")), false)
    case Broke(reason) => NodeOutcome(id, JobFailed, attempt, None, [], None, Some(reason), attempt < tries)
  }

  lemma RetryableIff(id: string, ending: Ending, attempt: U32, tries: U32)
    ensures OutcomeOf(id, ending, attempt, tries).retryable <==> ending.Broke? && attempt < tries
  {
  }

  /** A replay of a claimed, dispatchable node ends as the run means it to. */
  lemma JobConcludes(s: Setup, rows: Rows, id: string, run: RunResult, order: seq<Node>, stop: nat)
    requires UniqueIds(s.graph) && NoFenceReads(s.graph) && s.resume == map[]
    requires Sound(s, rows) && Dispatchable(s, rows, id) && !Settled(rows, id)
    requires IsReplayRun(s, Some(id), CompletedOutputs(rows), run, order, stop)
    ensures Classify(Kept(s, Some(id), CompletedOutputs(rows), run), id) == Ends(s, id)
  {
    hide Reports, Meaning, Collapses, RowFits, Known, FenceAll, Into;
    if Sortable(s.graph) {
      var t := Fenced(s, Some(id), CompletedOutputs(rows));
      SoundKnows(s, rows, id);
      JobEnds(s, Meaning(s), id, rows, t, Meaning(t), order, stop, run);
    }
  }

  /** The warnings the sink holds once a job for `id` has been heard. */
  ghost predicate HeardJob(s: Setup, m: Verdicts, before: Log, after: Log, id: string) {
    forall x {:trigger WarningsFor(after, x)} ::
      WarningsFor(after, x) == if x == id then WarningsFor(before, x) + NodeWarnings(s, m, id) else WarningsFor(before, x)
  }

  lemma JobHeard(s: Setup, rows: Rows, id: string, run: RunResult, order: seq<Node>, stop: nat, heard: Log)
    requires UniqueIds(s.graph) && NoFenceReads(s.graph) && s.resume == map[]
    requires Sound(s, rows) && Dispatchable(s, rows, id) && !Settled(rows, id)
    requires Sortable(s.graph) && AbortFree(Meaning(s))
    requires IsReplayRun(s, Some(id), CompletedOutputs(rows), run, order, stop)
    ensures HeardJob(s, Meaning(s), heard, Forwarded(heard, id, run.events), id)
  {
    hide Reports, Meaning, Collapses, RowFits, Known, FenceAll, Into, NodeWarnings, AbortFree, WarningsFor, Forwarded;
    var t := Fenced(s, Some(id), CompletedOutputs(rows));
    SoundKnows(s, rows, id);
    JobWarnings(s, Meaning(s), id, rows, t, Meaning(t), order, stop, run);
    forall x {
      ForwardedWarnings(heard, id, run.events, x);
    }
  }

  /** A free node once its one owner has claimed it `attempts` times. */
  function Attempted(rows: Rows, id: string, owner: string, first: int, attempts: U32): Rows {
    rows[id := Row(Claimed, [], None, None, Some(owner), attempts, Some(first))]
  }

  function Max(a: nat, b: nat): nat {
    if a < b then b else a
  }

  /** However often it is attempted, one claimed node is one more row held. */
  lemma AttemptHolds(rows: Rows, id: string, owner: string, first: int, attempts: U32)
    requires id !in rows
    ensures HeldCount(Attempted(rows, id, owner, first, attempts)) == HeldCount(rows) + 1
  {
    assert HeldIds(Attempted(rows, id, owner, first, attempts)) == HeldIds(rows) + {id};
  }

  /** A failure with attempts left leaves the claim as it was. */
  lemma ClaimStays(rows: Rows, id: string, owner: string, first: int, attempts: U32, ending: Ending, tries: U32)
    requires ending.Broke? && attempts < tries
    ensures var claimed := Attempted(rows, id, owner, first, attempts); AfterEnding(claimed, id, ending, tries) == claimed
  {
  }

  /** Whatever its executor answers this time, the node may be attempted. */
  lemma VaryingAttempt(s: Setup, t: Setup, before: Rows, rows: Rows, id: string, owner: string, first: int, made: U32)
    requires UniqueIds(s.graph) && SameButFor(s, t, id)
    requires Sound(s, before) && Dispatchable(s, before, id) && id !in before
    requires rows == if made == 0 then before else Attempted(before, id, owner, first, made)
    ensures Sound(t, rows) && Dispatchable(t, rows, id)
  {
    hide Sound, Dispatchable, SameButFor, UniqueIds;
    ChangeKeepsSound(s, t, id, before);
    assert before - {id} == before;
    DispatchableKept(s, t, before, id);
    if made > 0 {
      ClaimedSound(t, before, id, rows[id]);
      StillDispatchable(t, before, rows, id);
    }
  }

  lemma ClaimedSound(t: Setup, before: Rows, id: string, row: Row)
    requires Sound(t, before) && Dispatchable(t, before, id) && id !in before && row.status.Claimed? && row.ports == []
    ensures Sound(t, before[id := row])
  {
    hide Sound, Meaning, Collapses, SourcesSettled;
    PutSound(t, before, id, row);
  }

  /** Claiming again counts one more attempt, and leaves the clock. */
  lemma ReclaimIs(before: Rows, rows: Rows, id: string, owner: string, first: int, now: int, made: U32)
    requires id !in before && made < MAX_U32
    requires if made == 0 then rows == before && first == now else rows == Attempted(before, id, owner, first, made)
    ensures MayClaim(rows, id, owner) && AfterClaim(rows, id, owner, now) == Attempted(before, id, owner, first, made + 1)
  {
  }

  /** How many attempts a node is given: all of them if they fail, else one. */
  function AttemptsMade(ending: Ending, tries: U32): U32 {
    if ending.Broke? then tries else 1
  }

  /** An owner token: the run, the node, and the coordinator's unsigned 64-bit counter. */
  function OwnerToken(runKey: string, id: string, n: nat): string {
    runKey + ":" + id + ":" + Decimal(n)
  }

  const TOKENS := 0x1_0000_0000_0000_0000

  /** The token of a coordinator's `n`th mint: the counter wraps. */
  function NthToken(runKey: string, id: string, n: nat): string {
    OwnerToken(runKey, id, n % TOKENS)
  }

  /** One more mint. */
  lemma NextMint(runKey: string, id: string, n: nat, minted: nat)
    requires minted == n % TOKENS
    ensures OwnerToken(runKey, id, (minted + 1) % TOKENS) == NthToken(runKey, id, n + 1)
  {
    hide OwnerToken;
    assert (minted + 1) % TOKENS == (n + 1) % TOKENS;
  }

  /** Tokens of different counter values differ, whatever the ids hold. */
  lemma CountersTell(runKey: string, id: string, n: nat, other: string, k: nat)
    requires OwnerToken(runKey, id, n) == OwnerToken(runKey, other, k)
    ensures n == k && id == other
  {
    SuffixInjective(runKey + ":" + id, n, runKey + ":" + other, k);
    assert (runKey + ":" + id)[|runKey| + 1..] == id && (runKey + ":" + other)[|runKey| + 1..] == other;
  }

  /**
   * Two mints of one coordinator give one token exactly when they are for the same node and the counter has come round
   * to the same value between them.
   */
  lemma TokensDistinct(runKey: string, id: string, n: nat, other: string, k: nat)
    ensures NthToken(runKey, id, n) == NthToken(runKey, other, k) <==> id == other && n % TOKENS == k % TOKENS
  {
    if NthToken(runKey, id, n) == NthToken(runKey, other, k) {
      CountersTell(runKey, id, n % TOKENS, other, k % TOKENS);
    }
  }

  /** Where nothing aborts, no job breaks. */
  lemma NeverBreaks(s: Setup, id: string)
    requires Sortable(s.graph) && AbortFree(Meaning(s))
    ensures !Ends(s, id).Broke?
  {
    hide Meaning;
    assert id in Meaning(s) ==> !Meaning(s)[id].Halted?;
  }

  /** Writing a node's own row leaves its sources as they are. */
  lemma StillDispatchable(s: Setup, before: Rows, rows: Rows, id: string)
    requires Dispatchable(s, before, id) && id !in before && id in rows && rows == before[id := rows[id]]
    ensures Dispatchable(s, rows, id)
  {
    hide Meaning, Into, Collapses;
    forall e | e in Incoming(s.graph, id) ensures Settled(rows, e.source) {
      assert Settled(before, e.source);
    }
  }

  // ---- a whole run ----------------------------------------------------------------------------------------

  /** Every row is still there, and every new one is settled. */
  ghost predicate Advanced(before: Rows, after: Rows) {
    && (forall id {:trigger id in before} :: id in before ==> id in after && after[id] == before[id])
    && (forall id {:trigger id in after} :: id in after ==> id in before || after[id].status.IsSettled())
  }

  lemma AdvancedLater(before: Rows, after: Rows)
    requires Advanced(before, after)
    ensures Later(before, after)
    ensures HeldIds(after) <= HeldIds(before) && HeldCount(after) <= HeldCount(before)
    ensures |before| <= |after|
  {
    assert before.Keys <= after.Keys;
    SubsetSize(before.Keys, after.Keys);
    SubsetSize(HeldIds(after), HeldIds(before));
  }

  lemma AdvancedRefl(rows: Rows)
    ensures Advanced(rows, rows)
  {
  }

  lemma AdvancedTrans(a: Rows, b: Rows, c: Rows)
    requires Advanced(a, b) && Advanced(b, c)
    ensures Advanced(a, c)
  {
  }

  /** A person is waited for at `id`, and nothing else is left unsettled. */
  ghost predicate Parks(before: Rows, after: Rows, id: string) {
    id !in before && id in after && after[id].status.Paused? && Advanced(before, after - {id})
  }

  lemma ParksTrans(a: Rows, b: Rows, c: Rows, id: string)
    requires Advanced(a, b) && Parks(b, c, id)
    ensures Parks(a, c, id)
  {
  }

  /** A job that parks adds its own row and touches no other. */
  lemma JobParks(rows: Rows, id: string, owner: string, first: int, ending: Ending, tries: U32)
    requires id !in rows && ending.Parked?
    ensures Parks(rows, AfterEnding(Attempted(rows, id, owner, first, AttemptsMade(ending, tries)), id, ending, tries), id)
  {
  }

  /** A job parks on a pause its own node raised. */
  lemma ParkedIsOwn(s: Setup, id: string)
    requires Ends(s, id).Parked?
    ensures OwnPause(id, Ends(s, id).reason)
  {
    hide Meaning, PortsOf;
  }

  lemma SkipAdvances(rows: Rows, id: string)
    requires id !in rows
    ensures Advanced(rows, AfterSkip(rows, id)) && Settled(AfterSkip(rows, id), id)
  {
  }

  lemma SettledStays(before: Rows, after: Rows, ids: seq<string>, k: nat)
    requires Advanced(before, after) && k <= |ids| && forall j :: 0 <= j < k ==> Settled(before, ids[j])
    ensures forall j :: 0 <= j < k ==> Settled(after, ids[j])
  {
  }

  lemma CascadeStep(s: Setup, rows: Rows, now: Rows, ready: seq<string>, skipped: seq<string>, k: nat)
    requires UniqueIds(s.graph) && s.resume == map[] && Sound(s, rows) && Sound(s, now) && Advanced(rows, now)
    requires Answers(s.graph, rows, ready, skipped) && k < |skipped| && now == AfterSkips(rows, skipped[..k])
    requires forall j :: 0 <= j < k ==> Settled(now, skipped[j])
    ensures var next := AfterSkip(now, skipped[k]); Sound(s, next) && Advanced(rows, next)
    ensures forall j :: 0 <= j < k + 1 ==> Settled(AfterSkip(now, skipped[k]), skipped[j])
  {
    hide Sound, Answers, Advanced, AfterSkip, AfterSkips, Settled;
    AdvancedLater(rows, now);
    SkippedHaveNoRow(s.graph, rows, ready, skipped);
    SkipsAreNew(rows, skipped[..k], skipped[k]);
    SoundTells(s, rows);
    SkipSound(s, rows, now, ready, skipped, k);
    SkipAdvances(now, skipped[k]);
    AdvancedTrans(rows, now, AfterSkip(now, skipped[k]));
    SettledStays(now, AfterSkip(now, skipped[k]), skipped, k);
  }

  lemma {:induction false} CascadeSound(s: Setup, rows: Rows, ready: seq<string>, skipped: seq<string>, k: nat)
    requires UniqueIds(s.graph) && s.resume == map[] && Sound(s, rows)
    requires Answers(s.graph, rows, ready, skipped) && k <= |skipped|
    ensures Sound(s, AfterSkips(rows, skipped[..k]))
    ensures Advanced(rows, AfterSkips(rows, skipped[..k]))
    ensures forall j :: 0 <= j < k ==> Settled(AfterSkips(rows, skipped[..k]), skipped[j])
  {
    hide Sound, Answers, Advanced, AfterSkip, Settled, UniqueIds;
    if k > 0 {
      CascadeSound(s, rows, ready, skipped, k - 1);
      assert skipped[..k][..k - 1] == skipped[..k - 1];
      CascadeStep(s, rows, AfterSkips(rows, skipped[..k - 1]), ready, skipped, k - 1);
    } else {
      assert skipped[..0] == [];
      AdvancedRefl(rows);
    }
  }

  /** What an advance hands out may be run, and holding nothing with nothing to hand out means being done. */
  lemma AdvanceLands(s: Setup, rows: Rows, ready: seq<string>, skipped: seq<string>)
    requires UniqueIds(s.graph) && s.resume == map[] && Sound(s, rows) && Answers(s.graph, rows, ready, skipped)
    ensures var after := AfterSkips(rows, skipped);
      && Sound(s, after) && Advanced(rows, after)
      && (forall i :: 0 <= i < |ready| ==> Dispatchable(s, after, ready[i]) && ready[i] !in after)
      && (ready == [] && HeldIds(rows) == {} && Sortable(s.graph) ==> IsComplete(s.graph, after))
  {
    hide Sound, Dispatchable, InTurn, Exhausted, Cascade, Ready, Sortable, Settled, AfterSkips;
    CascadeSound(s, rows, ready, skipped, |skipped|);
    assert skipped[..|skipped|] == skipped;
    var after := AfterSkips(rows, skipped);
    AdvancedLater(rows, after);
    SkippedHaveNoRow(s.graph, rows, ready, skipped);
    forall i | 0 <= i < |ready| ensures Dispatchable(s, after, ready[i]) && ready[i] !in after {
      ReadyLands(s, rows, after, ready, skipped, i);
      SkipsAreNew(rows, skipped, ready[i]);
    }
    if ready == [] && HeldIds(rows) == {} && Sortable(s.graph) {
      AllDone(s.graph, rows, ready, skipped);
    }
  }

  lemma AllDone(g: Graph, rows: Rows, ready: seq<string>, skipped: seq<string>)
    requires Sortable(g) && Answers(g, rows, ready, skipped) && ready == [] && HeldIds(rows) == {}
    ensures IsComplete(g, AfterSkips(rows, skipped))
  {
    hide Answers, Sortable, AfterSkips;
    SkippedHaveNoRow(g, rows, ready, skipped);
    SettledAfterSkips(rows, skipped);
    forall i | 0 <= i < |g.nodes| ensures Settled(AfterSkips(rows, skipped), g.nodes[i].id) {
      IdsHas(g, i);
      NothingLeft(g, rows, ready, skipped, g.nodes[i].id);
    }
  }

  /** A finished job that did not park settles its row and touches no other. */
  lemma JobAdvances(rows: Rows, id: string, owner: string, first: int, ending: Ending, tries: U32)
    requires id !in rows && !ending.Parked? && tries >= 1
    ensures var after := AfterEnding(Attempted(rows, id, owner, first, AttemptsMade(ending, tries)), id, ending, tries);
      Advanced(rows, after) && after.Keys == rows.Keys + {id}
  {
  }

  lemma JobTold(s: Setup, m: Verdicts, rows: Rows, heard: Log, after: Rows, more: Log, id: string)
    requires Told(s, m, rows, heard) && HeardJob(s, m, heard, more, id) && id !in rows && id in Ids(s.graph)
    requires after.Keys == rows.Keys + {id}
    ensures Told(s, m, after, more)
  {
    hide NodeWarnings, WarningsFor;
    forall x | x in Ids(s.graph) ensures WarningsFor(more, x) == if x in after then NodeWarnings(s, m, x) else [] {
      assert WarningsFor(heard, x) == if x in rows then NodeWarnings(s, m, x) else [];
      EmptyRight(NodeWarnings(s, m, x));
    }
  }

  datatype StopError = NodeError(reason: Reason) | WaitingElsewhere | CannotProgress(unsettled: seq<string>)

  datatype DurableRunResult = DurableRunResult(ok: bool, outputs: Fields, error: Option<StopError>, pause: Option<Reason>)

  /** Completed outputs, in the graph's own node order. */
  function OutputsInGraphOrder(nodes: seq<Node>, rows: Rows): Fields {
    if nodes == [] then []
    else
      var id := nodes[|nodes| - 1].id;
      var front := OutputsInGraphOrder(nodes[..|nodes| - 1], rows);
      if id in rows && rows[id].status.Completed? then Insert(front, id, OrNull(rows[id].output)) else front
  }

  /** The error a run reports: that of the failed node the document lists first. */
  function FirstFailed(nodes: seq<Node>, rows: Rows): Option<Reason> {
    if nodes == [] then None
    else if nodes[0].id in rows && rows[nodes[0].id].status.Failed? then
      Some(if rows[nodes[0].id].error.Some? then rows[nodes[0].id].error.value else Failure("node failed"))
    else FirstFailed(nodes[1..], rows)
  }

  function Unsettled(nodes: seq<Node>, rows: Rows): seq<string> {
    if nodes == [] then []
    else (if Settled(rows, nodes[0].id) then [] else [nodes[0].id]) + Unsettled(nodes[1..], rows)
  }

  lemma {:induction false} OutputsByNode(nodes: seq<Node>, rows: Rows, id: string)
    ensures Get(OutputsInGraphOrder(nodes, rows), id)
         == if id in IdSet(nodes) && id in rows && rows[id].status.Completed? then Some(OrNull(rows[id].output)) else None
  {
    if nodes != [] { OutputsByNode(nodes[..|nodes| - 1], rows, id); }
  }

  lemma {:induction false} FailedIff(nodes: seq<Node>, rows: Rows)
    ensures FirstFailed(nodes, rows).Some? <==>
            exists i :: 0 <= i < |nodes| && nodes[i].id in rows && rows[nodes[i].id].status.Failed?
  {
    if nodes != [] {
      FailedIff(nodes[1..], rows);
      if i :| 0 <= i < |nodes| && nodes[i].id in rows && rows[nodes[i].id].status.Failed? {
        if i > 0 { assert nodes[1..][i - 1] == nodes[i]; }
      }
    }
  }

  /** No node ends in an error. An executor that aborts with the old boundary text does not count as one. */
  ghost predicate Succeeds(m: Verdicts) {
    forall id :: id in m && m[id].Halted? ==> m[id].reason == Boundary
  }

  /** What a run puts out for one node. */
  function OutputOf(m: Verdicts, id: string): Option<Json> {
    if At(m, id).Ran? then Some(At(m, id).value) else None
  }

  /** A complete run without a failed row is one in which nothing ends in an error, and reports its outputs. */
  lemma CompleteMeans(s: Setup, m: Verdicts, rows: Rows)
    requires Solves(s, m) && Fits(s, m, rows) && IsComplete(s.graph, rows)
    ensures FirstFailed(s.graph.nodes, rows).None? <==> Succeeds(m)
    ensures forall id :: Get(OutputsInGraphOrder(s.graph.nodes, rows), id) == OutputOf(m, id)
  {
    hide Collapses, Solves, PortsOf;
    assert m.Keys == Ids(s.graph) by { ShapeOf(s, m); }
    FailedIff(s.graph.nodes, rows);
    forall id | id in m ensures Settled(rows, id) && RowFits(s, m, id, rows[id]) {
      var i := IndexOf(s.graph, id);
      assert Settled(rows, s.graph.nodes[i].id);
    }
    forall id ensures Get(OutputsInGraphOrder(s.graph.nodes, rows), id) == OutputOf(m, id) {
      OutputsByNode(s.graph.nodes, rows, id);
    }
    if !Succeeds(m) {
      var id :| id in m && m[id].Halted? && m[id].reason != Boundary;
      var i := IndexOf(s.graph, id);
      assert RowFits(s, m, id, rows[id]);
      assert rows[s.graph.nodes[i].id].status.Failed?;
    }
    if i :| 0 <= i < |s.graph.nodes| && s.graph.nodes[i].id in rows && rows[s.graph.nodes[i].id].status.Failed? {
      IdsHas(s.graph, i);
      assert RowFits(s, m, s.graph.nodes[i].id, rows[s.graph.nodes[i].id]);
    }
  }

  lemma ShapeOf(s: Setup, m: Verdicts)
    requires Solves(s, m)
    ensures m.Keys == Ids(s.graph)
  {
  }

  /** A graph with no order has a node that never gets a row. */
  lemma NeverComplete(s: Setup, rows: Rows)
    requires UniqueIds(s.graph) && !Sortable(s.graph) && Sound(s, rows)
    ensures !IsComplete(s.graph, rows)
  {
    var stuck := UnsortableIsStuck(s.graph);
    var id :| id in stuck;
    assert Doomed(s.graph, id);
    var i := IndexOf(s.graph, id);
    assert s.graph.nodes[i].id !in rows;
  }

  lemma {:induction false} IdCount(nodes: seq<Node>)
    ensures |IdSet(nodes)| <= |nodes|
  {
    if nodes != [] { IdCount(nodes[..|nodes| - 1]); }
  }

  const DEFAULT_MAX_PASSES := 10_000

  /** One pass a node at least. */
  function DefaultPasses(nodes: nat): nat {
    if DEFAULT_MAX_PASSES < nodes + 1 then nodes + 1 else DEFAULT_MAX_PASSES
  }

  /** The first `i` nodes of a batch have been run, and the rest may still be. */
  ghost predicate Batched(s: Setup, before: Rows, rows: Rows, ready: seq<string>, i: nat) {
    && Advanced(before, rows)
    && (forall j :: 0 <= j < |ready| ==> Dispatchable(s, before, ready[j]))
    && (forall j :: 0 <= j < |ready| ==> (ready[j] in rows <==> j < i))
  }

  lemma BatchStart(s: Setup, rows: Rows, ready: seq<string>)
    requires forall i :: 0 <= i < |ready| ==> Dispatchable(s, rows, ready[i]) && ready[i] !in rows
    ensures Batched(s, rows, rows, ready, 0)
  {
    hide Dispatchable;
  }

  lemma BatchNext(s: Setup, before: Rows, rows: Rows, ready: seq<string>, i: nat)
    requires Batched(s, before, rows, ready, i) && i < |ready|
    ensures Dispatchable(s, rows, ready[i]) && ready[i] !in rows && Advanced(before, rows)
  {
    hide Dispatchable;
    AdvancedLater(before, rows);
    DispatchableLater(s, before, rows, ready[i]);
  }

  lemma BatchStep(s: Setup, before: Rows, rows: Rows, after: Rows, ready: seq<string>, i: nat)
    requires Batched(s, before, rows, ready, i) && i < |ready| && Once(ready)
    requires Advanced(rows, after) && after.Keys == rows.Keys + {ready[i]}
    ensures Batched(s, before, after, ready, i + 1)
  {
    hide Dispatchable;
    forall j | 0 <= j < |ready| ensures ready[j] in after <==> j < i + 1 {
      assert ready[j] in after.Keys <==> ready[j] in rows.Keys || ready[j] == ready[i];
    }
  }

  lemma BatchEnd(s: Setup, before: Rows, rows: Rows, ready: seq<string>)
    requires Batched(s, before, rows, ready, |ready|)
    ensures Advanced(before, rows) && forall i :: 0 <= i < |ready| ==> ready[i] in rows
  {
    hide Dispatchable;
  }

  // ---- the coordinator ------------------------------------------------------------------------------------

  class Coordinator {
    const s: Setup
    const runKey: string
    const store: InMemoryClaimStore
    const retry: RetryPolicy
    /** The dispatch cap: `0` is unlimited. */
    const maxConcurrent: nat
    /** Whether a sink was configured; `heard` is everything it was sent. */
    const listening: bool
    var heard: Log
    /** How many owner tokens have been minted. */
    var minted: nat
    /** The most rows of the run ever held at once, as far as this driver's claims have made them. */
    ghost var peak: nat

    constructor (s: Setup, runKey: string, store: InMemoryClaimStore, retry: RetryPolicy, maxConcurrent: nat, listening: bool)
      ensures this.s == s && this.runKey == runKey && this.store == store && this.retry == retry
      ensures this.maxConcurrent == maxConcurrent && this.listening == listening
      ensures heard == Empty && minted == 0 && peak == 0
    {
      this.s, this.runKey, this.store, this.retry := s, runKey, store, retry;
      this.maxConcurrent, this.listening := maxConcurrent, listening;
      heard, minted, peak := Empty, 0, 0;
    }

    function Rows(): Rows
      reads store
    {
      store.State(runKey)
    }

    function Tries(id: string): U32 {
      TriesOf(s, retry, id)
    }

    // -- what may be dispatched ---------------------------------------------------------------------------

    /** Send each skipped node's warnings to the sink. */
    method DeliverSkipDiagnostics(skipped: seq<string>, rows: Rows)
      modifies this`heard
      ensures heard == if listening then Deliver(s, rows, old(heard), skipped) else old(heard)
    {
      if !listening {
        return;
      }
      for i := 0 to |skipped|
        invariant heard == Deliver(s, rows, old(heard), skipped[..i])
      {
        assert skipped[..i + 1][..i] == skipped[..i];
        var incoming := Incoming(s.graph, skipped[i]);
        var run := AnswersFrom(rows, incoming);
        var warnings := UndeliveredEdgeWarnings(s, skipped[i], incoming, run);
        Send(warnings);
      }
      assert skipped[..|skipped|] == skipped;
    }

    method AnswersFrom(rows: Rows, incoming: seq<Edge>) returns (run: seq<Answer>)
      ensures run == RowAnswers(rows, incoming)
    {
      run := [];
      for i := 0 to |incoming|
        invariant run == RowAnswers(rows, incoming[..i])
      {
        assert incoming[..i + 1][..i] == incoming[..i];
        run := run + [RowAnswer(rows, incoming[i])];
      }
      assert incoming[..|incoming|] == incoming;
    }

    method Send(warnings: seq<Warning>)
      modifies this`heard
      ensures heard == WarnAll(old(heard), warnings)
    {
      for i := 0 to |warnings|
        invariant heard == WarnAll(old(heard), warnings[..i])
      {
        assert warnings[..i + 1][..i] == warnings[..i];
        heard := Then(heard, Warn(warnings[i]));
      }
      assert warnings[..|warnings|] == warnings;
    }

    /** Settle the skip cascade, deliver its diagnostics, and hand out what the budget has room for. */
    method Advance() returns (ready: seq<string>, ghost frontier: seq<string>, ghost skipped: seq<string>)
      requires Configured(s)
      modifies store, this`heard
      ensures Answers(s.graph, old(Rows()), frontier, skipped)
      ensures Rows() == AfterSkips(old(Rows()), skipped)
      ensures ready == SelectDispatch(frontier, Rows(), maxConcurrent)
      ensures heard == if listening then Deliver(s, old(Rows()), old(heard), skipped) else old(heard)
    {
      hide Answers, InTurn, FirstSettled, Deliver;
      var rows := Rows();
      var runnable, dead;
      ghost var readies, skips;
      runnable, dead, readies, skips := Compute(s.graph, rows);
      var settled := SettleSkips(store, runKey, dead);
      SkippedHaveNoRow(s.graph, rows, runnable, dead);
      AllMine(rows, dead);
      assert settled == dead;
      DeliverSkipDiagnostics(settled, rows);
      if dead != [] {
        rows := Rows();
      } else {
        assert AfterSkips(rows, []) == rows;
      }
      frontier, skipped := runnable, dead;
      ready := SelectDispatch(runnable, rows, maxConcurrent);
    }

    // -- one job ------------------------------------------------------------------------------------------

    /** Forward the events of `id`, and the run-level ones. */
    method Forward(id: string, events: Log)
      modifies this`heard
      ensures heard == if listening then Forwarded(old(heard), id, events) else old(heard)
    {
      if listening {
        heard := Forwarded(heard, id, events);
      }
    }

    /** Checkpoint what the replay says about the node this job holds. */
    method Conclude(id: string, replay: ReplayResult, attempt: U32) returns (outcome: NodeOutcome)
      requires id in Rows() && Rows()[id].status.Claimed? && attempt == Rows()[id].attempts
      modifies store
      ensures outcome == OutcomeOf(id, Classify(replay, id), attempt, Tries(id))
      ensures Rows() == AfterEnding(old(Rows()), id, Classify(replay, id), Tries(id))
    {
      hide TriesOf;
      var result := replay.result;
      if id in result.outputs {
        var output, ports := result.outputs[id], PortsSeen(replay.ports, id);
        store.Complete(runKey, id, output, ports);
        return NodeOutcome(id, JobCompleted, attempt, Some(output), ports, None, None, false);
      }
      // Three ways to end without an output, and they are not interchangeable.
      if result.error.Some? && OwnPause(id, result.error.value) {
        store.Pause(runKey, id, result.error.value);
        return NodeOutcome(id, JobPaused, attempt, None, [], result.error, None, false);
      }
      if result.error == Some(Boundary) || result.ok {
        var _ := store.Skip(runKey, id);
        return OutcomeOf(id, Unreached, attempt, Tries(id));
      }
      var error := if result.error.Some? then result.error.value else Failure("produced no output and no error");
      if attempt < Tries(id) {
        // The row stays claimed, so that the same owner can come back to it.
        return NodeOutcome(id, JobFailed, attempt, None, [], None, Some(error), true);
      }
      store.Fail(runKey, id, error);
      return NodeOutcome(id, JobFailed, attempt, None, [], None, Some(error), false);
    }

    /**
     * Claim, execute and checkpoint one node, its executor answering this time as it does in `t`. The claim is taken
     * first: a lost race does nothing.
     */
    method RunNode(id: string, owner: string, now: int, t: Setup) returns (outcome: NodeOutcome)
      requires Configured(s) && SameButFor(s, t, id) && Sound(t, Rows()) && Dispatchable(t, Rows(), id)
      modifies store, this`heard, this`peak
      ensures !MayClaim(old(Rows()), id, owner) ==>
        && outcome == NodeOutcome(id, NotClaimed, 0, None, [], None, None, false)
        && Rows() == old(Rows()) && heard == old(heard) && peak == old(peak)
      ensures MayClaim(old(Rows()), id, owner) ==>
        var claimed := AfterClaim(old(Rows()), id, owner, now);
        && outcome == OutcomeOf(id, Ends(t, id), claimed[id].attempts, Tries(id))
        && Rows() == AfterEnding(claimed, id, Ends(t, id), Tries(id))
        && peak == Max(old(peak), HeldCount(claimed))
      ensures Sound(t, Rows())
      ensures MayClaim(old(Rows()), id, owner) && listening && Sortable(t.graph) && AbortFree(Meaning(t)) ==>
        HeardJob(t, Meaning(t), old(heard), heard, id)
    {
      hide Meaning, Into, Collapses, PortsOf, Reports, Classify, Kept, Ends, AbortFree, TriesOf,
           HeardJob, Sortable, FenceAll, Forwarded, Sound, SourcesSettled, HeldCount;
      ghost var before, listened := Rows(), heard;
      var won := store.Claim(runKey, id, owner, now);
      if !won {
        return NodeOutcome(id, NotClaimed, 0, None, [], None, None, false);
      }
      peak := Max(peak, HeldCount(Rows()));
      ClaimSound(t, before, id, owner, now);
      var rows := Rows();
      var attempt := rows[id].attempts;
      var replay := ReplayUpTo(t, Some(id), CompletedOutputs(rows));
      ghost var run, order, stop :| IsReplayRun(t, Some(id), CompletedOutputs(rows), run, order, stop)
        && replay == Kept(t, Some(id), CompletedOutputs(rows), run);
      JobConcludes(t, rows, id, run, order, stop);
      if Sortable(t.graph) && AbortFree(Meaning(t)) { JobHeard(t, rows, id, run, order, stop, heard); }
      EndingSound(t, rows, id, Tries(id));
      assert replay.result.events == run.events by { TargetKept(t, id, CompletedOutputs(rows), run); }
      Forward(id, replay.result.events);
      outcome := Conclude(id, replay, attempt);
    }

    method MintOwner(id: string) returns (owner: string)
      modifies this`minted
      ensures minted == (old(minted) + 1) % TOKENS && owner == OwnerToken(runKey, id, minted)
    {
      minted := (minted + 1) % TOKENS;
      owner := OwnerToken(runKey, id, minted);
    }

    lemma AtLeastOneTry(id: string)
      ensures Tries(id) >= 1
    {
      TriesPositive(s, retry, id);
    }

    /** One more attempt at a node that was free before the first: the rows are as its earlier attempts left them. */
    method Attempt(id: string, owner: string, now: int, t: Setup, ghost before: Rows, ghost first: int, made: U32)
      returns (outcome: NodeOutcome)
      requires Configured(s) && SameButFor(s, t, id) && Sound(s, before) && Dispatchable(s, before, id) && id !in before
      requires made < Tries(id)
      requires if made == 0 then Rows() == before && first == now else Rows() == Attempted(before, id, owner, first, made)
      modifies store, this`heard, this`peak
      ensures peak == Max(old(peak), HeldCount(before) + 1)
      ensures outcome == OutcomeOf(id, Ends(t, id), made + 1, Tries(id))
      ensures Rows() == AfterEnding(Attempted(before, id, owner, first, made + 1), id, Ends(t, id), Tries(id))
      ensures Sound(t, Rows())
      ensures listening && Sortable(t.graph) && AbortFree(Meaning(t)) ==>
        HeardJob(t, Meaning(t), old(heard), heard, id)
    {
      hide Meaning, Ends, AbortFree, HeardJob, Sortable, Sound, Dispatchable, OutcomeOf, AfterEnding, Tries, HeldCount,
           SameButFor;
      AttemptHolds(before, id, owner, first, made + 1);
      VaryingAttempt(s, t, before, Rows(), id, owner, first, made);
      ReclaimIs(before, Rows(), id, owner, first, now, made);
      outcome := RunNode(id, owner, now, t);
    }

    /** A run in which no node aborts, with somebody listening. */
    ghost predicate Quiet() {
      listening && Sortable(s.graph) && AbortFree(Meaning(s))
    }

    /** Attempt `n` is the first not to end in failure, or the last there is. */
    ghost predicate EndsAt(id: string, runs: seq<Setup>, n: nat) {
      && 1 <= n <= |runs| && (forall k :: 0 <= k < n - 1 ==> Ends(runs[k], id).Broke?)
      && (n == |runs| || !Ends(runs[n - 1], id).Broke?)
    }

    /**
     * Run one free node until it ends or runs out of attempts, all under one owner token. Its executor may answer
     * differently each time: `runs` has it as it is at each attempt.
     */
    method RunNodeWithRetries(id: string, runs: seq<Setup>)
      returns (outcome: NodeOutcome, ghost owner: string, ghost first: int, ghost n: U32)
      requires Configured(s) && Sound(s, Rows()) && Dispatchable(s, Rows(), id) && id !in Rows()
      requires |runs| == Tries(id) && forall k :: 0 <= k < |runs| ==> SameButFor(s, runs[k], id)
      modifies store, this`heard, this`minted, this`peak
      ensures peak <= Max(old(peak), HeldCount(old(Rows())) + 1)
      ensures EndsAt(id, runs, n)
      ensures outcome == OutcomeOf(id, Ends(runs[n - 1], id), n, Tries(id))
      ensures Rows() == AfterEnding(Attempted(old(Rows()), id, owner, first, n), id, Ends(runs[n - 1], id), Tries(id))
      ensures Sound(runs[n - 1], Rows())
      ensures n == 1 && listening && Sortable(runs[0].graph) && AbortFree(Meaning(runs[0])) ==>
        HeardJob(runs[0], Meaning(runs[0]), old(heard), heard, id)
    {
      hide Meaning, Ends, AbortFree, HeardJob, Sortable, Sound, Dispatchable, Attempted, Tries, AfterEnding, HeldCount,
           SameButFor, OutcomeOf, Configured;
      AtLeastOneTry(id);
      ghost var before := Rows();
      var token := MintOwner(id);
      owner := token;
      var tries := Tries(id);
      var now: int := *;
      first := now;
      outcome := Attempt(id, token, now, runs[0], before, now, 0);
      var attempts: U32 := 1;
      while outcome.retryable && attempts < tries
        invariant 1 <= attempts <= tries && forall k :: 0 <= k < attempts - 1 ==> Ends(runs[k], id).Broke?
        invariant outcome == OutcomeOf(id, Ends(runs[attempts - 1], id), attempts, tries)
        invariant Rows() == AfterEnding(Attempted(before, id, owner, first, attempts), id, Ends(runs[attempts - 1], id), tries)
        invariant Sound(runs[attempts - 1], Rows()) && peak <= Max(old(peak), HeldCount(before) + 1)
        invariant attempts == 1 && listening && Sortable(runs[0].graph) && AbortFree(Meaning(runs[0])) ==>
          HeardJob(runs[0], Meaning(runs[0]), old(heard), heard, id)
      {
        now := *;
        RetryableIff(id, Ends(runs[attempts - 1], id), attempts, tries);
        ClaimStays(before, id, owner, first, attempts, Ends(runs[attempts - 1], id), tries);
        outcome := Attempt(id, token, now, runs[attempts], before, first, attempts);
        attempts := attempts + 1;
      }
      RetryableIff(id, Ends(runs[attempts - 1], id), attempts, tries);
      n := attempts;
    }

    // -- an in-process driver over the two ------------------------------------------------------------------

    /** The sink is up to date with the rows. */
    ghost predicate UpToDate()
      reads this, store
    {
      Sortable(s.graph) && Told(s, Meaning(s), Rows(), heard)
    }

    /** What a job that stops the driver reports is what the run means for its node. */
    ghost predicate StopsFor(stop: NodeOutcome) {
      && stop.node in Ids(s.graph)
      && if stop.status == JobPaused then
           stop.pause.Some? && Ends(s, stop.node) == Parked(stop.pause.value) && OwnPause(stop.node, stop.pause.value)
         else stop.error.Some? && Ends(s, stop.node) == Broke(stop.error.value)
    }

    /** One job of a batch. */
    method RunOne(id: string) returns (stop: Option<NodeOutcome>)
      requires Configured(s) && Sound(s, Rows()) && Dispatchable(s, Rows(), id) && id !in Rows()
      modifies store, this`heard, this`minted, this`peak
      ensures peak <= Max(old(peak), HeldCount(old(Rows())) + 1)
      ensures Sound(s, Rows())
      ensures stop.None? || stop.value.status != JobPaused ==>
        Advanced(old(Rows()), Rows()) && Rows().Keys == old(Rows()).Keys + {id}
      ensures stop.Some? ==> StopsFor(stop.value)
      ensures stop.Some? && stop.value.status == JobPaused ==> Parks(old(Rows()), Rows(), stop.value.node)
      ensures Quiet() && old(UpToDate()) && stop.None? ==> UpToDate()
    {
      hide Meaning, Ends, AbortFree, HeardJob, Sortable, Sound, Attempted, Tries, Told, AfterEnding,
           Advanced, Parks, TriesOf, TriesFor, KindOf, Find;
      AtLeastOneTry(id);
      ghost var before, ending := Rows(), Ends(s, id);
      ghost var owner, first, n;
      var outcome;
      outcome, owner, first, n := RunNodeWithRetries(id, seq(Tries(id), _ => s));
      assert n == AttemptsMade(ending, Tries(id));
      if Quiet() { NeverBreaks(s, id); }
      if !ending.Parked? {
        JobAdvances(before, id, owner, first, ending, Tries(id));
        if Quiet() && old(UpToDate()) { JobTold(s, Meaning(s), before, old(heard), Rows(), heard, id); }
      } else {
        JobParks(before, id, owner, first, ending, Tries(id));
        ParkedIsOwn(s, id);
      }
      if outcome.status == JobPaused || outcome.status == JobFailed {
        return Some(outcome);
      }
      return None;
    }

    /** Run everything an advance handed out, stopping at the first pause or failure. */
    method RunBatch(ready: seq<string>) returns (stop: Option<NodeOutcome>)
      requires Configured(s) && Sound(s, Rows()) && Once(ready)
      requires forall i :: 0 <= i < |ready| ==> Dispatchable(s, Rows(), ready[i]) && ready[i] !in Rows()
      modifies store, this`heard, this`minted, this`peak
      ensures peak <= Max(old(peak), HeldCount(old(Rows())) + 1)
      ensures Sound(s, Rows())
      ensures stop.None? || stop.value.status != JobPaused ==> Advanced(old(Rows()), Rows())
      ensures stop.Some? && stop.value.status == JobPaused ==> Parks(old(Rows()), Rows(), stop.value.node)
      ensures stop.None? ==> forall i :: 0 <= i < |ready| ==> ready[i] in Rows()
      ensures stop.Some? ==> StopsFor(stop.value)
      ensures Quiet() && old(UpToDate()) && stop.None? ==> UpToDate()
    {
      hide Meaning, Ends, AbortFree, Sortable, Sound, Told, Dispatchable, StopsFor, Advanced, Parks, Batched, Once, Tries;
      ghost var before := Rows();
      BatchStart(s, before, ready);
      for i := 0 to |ready|
        invariant Sound(s, Rows()) && Batched(s, before, Rows(), ready, i)
        invariant peak <= Max(old(peak), HeldCount(before) + 1)
        invariant Quiet() && old(UpToDate()) ==> UpToDate()
      {
        ghost var now := Rows();
        BatchNext(s, before, now, ready, i);
        AdvancedLater(before, now);
        stop := RunOne(ready[i]);
        if stop.Some? {
          if stop.value.status != JobPaused {
            AdvancedTrans(before, now, Rows());
          } else {
            ParksTrans(before, now, Rows(), stop.value.node);
          }
          return stop;
        }
        BatchStep(s, before, now, Rows(), ready, i);
      }
      BatchEnd(s, before, Rows(), ready);
      stop := None;
    }

    /** Advance once and run what it handed out. */
    method Pass() returns (idle: bool, stop: Option<NodeOutcome>)
      requires Configured(s) && Sound(s, Rows())
      modifies store, this`heard, this`minted, this`peak
      ensures maxConcurrent > 0 && HeldCount(old(Rows())) <= maxConcurrent ==> peak <= Max(old(peak), maxConcurrent)
      ensures Sound(s, Rows())
      ensures idle ==> stop.None?
      ensures idle && HeldIds(old(Rows())) == {} && Sortable(s.graph) ==> IsComplete(s.graph, Rows())
      ensures stop.None? || stop.value.status != JobPaused ==> Advanced(old(Rows()), Rows())
      ensures stop.Some? && stop.value.status == JobPaused ==> Parks(old(Rows()), Rows(), stop.value.node)
      ensures stop.None? && !idle ==> |Rows()| > |old(Rows())|
      ensures stop.Some? ==> StopsFor(stop.value)
      ensures Quiet() && old(UpToDate()) && stop.None? ==> UpToDate()
    {
      hide Meaning, Ends, AbortFree, Sortable, Sound, Told, Dispatchable, StopsFor, Answers, Deliver, AfterSkips,
           HeldIds, IsComplete, Parks;
      ghost var before := Rows();
      ghost var frontier, skipped;
      var ready;
      ready, frontier, skipped := Advance();
      AdvanceLands(s, before, frontier, skipped);
      ghost var now := Rows();
      AdvancedLater(before, now);
      if Quiet() && old(UpToDate()) { StillTold(before, old(heard), frontier, skipped); }
      if ready == [] {
        NobodyReady(frontier, now);
        return true, None;
      }
      assert Once(ready) by { OnceOf(before, frontier, skipped); }
      stop := RunBatch(ready);
      if stop.None? || stop.value.status != JobPaused {
        AdvancedTrans(before, now, Rows());
      } else {
        ParksTrans(before, now, Rows(), stop.value.node);
      }
      if stop.None? {
        assert ready[0] in Rows() && ready[0] !in now;
        AdvancedLater(now, Rows());
        MoreRows(now, Rows(), ready[0]);
      }
      idle := false;
    }

    lemma OnceOf(rows: Rows, frontier: seq<string>, skipped: seq<string>)
      requires Answers(s.graph, rows, frontier, skipped)
      ensures Once(frontier)
    {
    }

    lemma MoreRows(before: Rows, after: Rows, id: string)
      requires Advanced(before, after) && id in after && id !in before
      ensures |after| > |before|
    {
      assert before.Keys + {id} <= after.Keys;
      SubsetSize(before.Keys + {id}, after.Keys);
    }

    /** With nothing held, an empty hand-out means an empty frontier. */
    lemma NobodyReady(frontier: seq<string>, rows: Rows)
      requires SelectDispatch(frontier, rows, maxConcurrent) == []
      ensures HeldIds(rows) == {} ==> frontier == []
    {
    }

    lemma StillTold(rows: Rows, told: Log, frontier: seq<string>, skipped: seq<string>)
      requires Configured(s) && Sortable(s.graph) && Sound(s, rows) && Answers(s.graph, rows, frontier, skipped)
      requires Told(s, Meaning(s), rows, told)
      ensures Told(s, Meaning(s), AfterSkips(rows, skipped), Deliver(s, rows, told, skipped))
    {
      hide Meaning, Told, Answers, Deliver, AfterSkips;
      DeliverTells(s, Meaning(s), rows, told, frontier, skipped, |skipped|);
      assert skipped[..|skipped|] == skipped;
    }

    method Stopped(error: Option<StopError>, pause: Option<Reason>) returns (r: DurableRunResult)
      ensures r == DurableRunResult(false, OutputsInGraphOrder(s.graph.nodes, Rows()), error, pause)
    {
      r := DurableRunResult(false, OutputsInGraphOrder(s.graph.nodes, Rows()), error, pause);
    }

    /** Read the result off the rows once the passes are over. */
    method Report() returns (r: DurableRunResult)
      ensures r.outputs == OutputsInGraphOrder(s.graph.nodes, Rows()) && r.pause == None
      ensures r.ok <==> IsComplete(s.graph, Rows()) && FirstFailed(s.graph.nodes, Rows()).None?
      ensures !IsComplete(s.graph, Rows()) && HeldIds(Rows()) == {} ==>
        r.error == Some(CannotProgress(Unsettled(s.graph.nodes, Rows())))
      ensures IsComplete(s.graph, Rows()) ==>
        r.error == match FirstFailed(s.graph.nodes, Rows()) case None => None case Some(e) => Some(NodeError(e))
    {
      var rows := Rows();
      InFlightIff(rows);
      if !IsComplete(s.graph, rows) {
        if HasWorkInFlight(rows) {
          r := Stopped(Some(WaitingElsewhere), None);
          return;
        }
        r := Stopped(Some(CannotProgress(Unsettled(s.graph.nodes, rows))), None);
        return;
      }
      var failed := FirstFailed(s.graph.nodes, rows);
      r := DurableRunResult(failed.None?, OutputsInGraphOrder(s.graph.nodes, rows),
        if failed.None? then None else Some(NodeError(failed.value)), None);
    }

    /** How many passes a run is given. */
    function Passes(maxPasses: Option<nat>): nat {
      if maxPasses.Some? then maxPasses.value else DefaultPasses(|s.graph.nodes|)
    }

    /** No more rows than nodes: as every pass that is not idle adds a row, one pass more is never used up. */
    lemma RowsFewer(rows: Rows)
      requires Sound(s, rows)
      ensures |rows| <= |s.graph.nodes|
    {
      IdCount(s.graph.nodes);
      SubsetSize(rows.Keys, Ids(s.graph));
    }

    /**
     * Drive the graph in this process. From any sound rows it reports ok only when the run succeeds, with the
     * run's outputs; and with nothing held and passes enough, whenever the run succeeds.
     */
    method RunToCompletion(maxPasses: Option<nat>) returns (r: DurableRunResult)
      requires Configured(s) && Sound(s, Rows())
      modifies store, this`heard, this`minted, this`peak
      ensures maxConcurrent > 0 && HeldCount(old(Rows())) <= maxConcurrent ==> peak <= Max(old(peak), maxConcurrent)
      ensures Sound(s, Rows())
      ensures !Sortable(s.graph) ==> !r.ok
      ensures r.ok ==> IsComplete(s.graph, Rows())
      ensures Sortable(s.graph) && r.ok ==>
        Succeeds(Meaning(s)) && forall id :: Get(r.outputs, id) == OutputOf(Meaning(s), id)
      ensures Sortable(s.graph) && HeldIds(old(Rows())) == {} && Passes(maxPasses) > |s.graph.nodes| ==>
        (r.ok <==> Succeeds(Meaning(s)))
      ensures r.pause.None? ==> Advanced(old(Rows()), Rows())
      ensures r.pause.Some? ==> r.pause.value.Pause? && Parks(old(Rows()), Rows(), r.pause.value.node)
      ensures Quiet() && old(UpToDate()) && r.ok ==> UpToDate()
    {
      hide Meaning, Ends, AbortFree, Sortable, Sound, Told, StopsFor, Advanced, Parks, HeldIds, IsComplete, Succeeds;
      ghost var before := Rows();
      var passes := Passes(maxPasses);
      AdvancedRefl(before);
      ghost var done := false;
      for pass := 0 to passes
        invariant Sound(s, Rows()) && Advanced(before, Rows())
        invariant |Rows()| >= pass && !done
        invariant maxConcurrent > 0 && HeldCount(before) <= maxConcurrent ==> peak <= Max(old(peak), maxConcurrent)
        invariant Quiet() && old(UpToDate()) ==> UpToDate()
      {
        ghost var now := Rows();
        AdvancedLater(before, now);
        var idle, stop := Pass();
        if stop.Some? {
          StoppedMeans(stop.value);
          if stop.value.status == JobPaused {
            ParksTrans(before, now, Rows(), stop.value.node);
            r := Stopped(None, stop.value.pause);
            return;
          }
          AdvancedTrans(before, now, Rows());
          r := Stopped(Some(NodeError(stop.value.error.value)), None);
          return;
        }
        AdvancedTrans(before, now, Rows());
        if idle {
          done := true;
          break;
        }
      }
      r := Report();
      if !Sortable(s.graph) { NeverComplete(s, Rows()); }
      if Sortable(s.graph) && IsComplete(s.graph, Rows()) { ReportMeans(Rows()); }
      RowsFewer(Rows());
    }

    /** A run that stops at a node does not succeed. */
    lemma StoppedMeans(stop: NodeOutcome)
      requires StopsFor(stop)
      ensures Sortable(s.graph) ==> !Succeeds(Meaning(s))
      ensures if stop.status == JobPaused then stop.pause.Some? && OwnPause(stop.node, stop.pause.value) else stop.error.Some?
    {
      if Sortable(s.graph) {
        ShapeOf(s, Meaning(s));
        hide Meaning, PortsOf;
        assert stop.node in Meaning(s);
      }
    }

    lemma ReportMeans(rows: Rows)
      requires Sortable(s.graph) && Sound(s, rows) && IsComplete(s.graph, rows)
      ensures FirstFailed(s.graph.nodes, rows).None? <==> Succeeds(Meaning(s))
      ensures forall id :: Get(OutputsInGraphOrder(s.graph.nodes, rows), id) == OutputOf(Meaning(s), id)
    {
      hide Meaning, IsComplete;
      CompleteMeans(s, Meaning(s), rows);
    }
  }
}
