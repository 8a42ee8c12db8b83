# Verified model of the flow engine and its durable driver

This project models, in Dafny, how fancy-flow executes a workflow graph: the engine that walks it in one process,
and the durable driver that splits the same run into claimed, checkpointed jobs. It proves that the two cannot
disagree, and what holds when many workers race.

Everything is stated against one definition, `Semantics.Meaning`: every node gets a verdict (dark, walked past, ran
to a value, or halted), each verdict is a function of the verdicts of the node's sources alone, and a graph that can be
sorted has exactly one such assignment. No order of execution occurs in it.

- `topology.dfy`: orders of a graph's nodes, graphs that have none, and cycles.
- `turning.dfy`, `accounts.dfy`, `recounts.dfy`, `queueing.dfy`, `kahn.dfy`: Kahn's loop as a machine, how often it queues
  each id on any graph, that count taken in rounds, what the loop keeps where ids are unique, and exactly when it ends and
  what it answers.
- `activation.dfy`, `semantics.dfy`, `diagnostics.dfy`: ports and keys, the meaning of a run, undelivered-edge warnings.
- `engine.dfy`: the walk as the state machine the source steps, and the runner over it.
- `store.dfy`, `frontier.dfy`, `dispatch.dfy`, `retry.dfy`, `replay.dfy`: the parts of the durable driver.
- `checkpoints.dfy`, `jobs.dfy`: rows that agree with the meaning of the run, and the two moves that keep them so.
- `varying.dfy`: a run against one in which a single executor answers differently.
- `coordinator.dfy`, `equivalence.dfy`, `answering.dfy`: the driver, durable against single-process, crash and resume,
  and a pause answered by a person.
- `settling.dfy`, `moves.dfy`, `ledgers.dfy`, `workers.dfy`: any number of workers, one store call a move, snapshots as
  stale as you like, on any graph and whatever the executions end in.
- `budget.dfy`, `faithful.dfy`: the dispatch cap over their runs, and what they write when the executions are the
  engine's, executors changing along the way.
- `lanes.dfy`, `templates.dfy`, `human.dfy`: the `for_each` body, routing templates, gates.
- `identity.dfy`, `prefixes.dfy`, `collisions.dfy`: step keys, their beginnings read back, and when two runs share one.

## What the theorems assume

- Node ids are unique, as `src/schema/mod.rs:94` documents. The sort alone is modelled for every graph: it may not end
  on repeated ids (`Kahn.RepeatedSelfNeverEnds`), and `Kahn.EndsIffRounds` says exactly when it does.
- No node id is another id followed by a colon and anything else (`Activation.KeySafe`). Port values are stored under
  the text `node:port`, and `Activation.KeysCollideIff` shows this is exactly when two nodes cannot share a key.
- No edge reads the fence port `fancy-flow:fenced`.
- A host executor is a function of the node and its inputs and emits no `node-output` events of its own; a replay could
  not tell such events from the engine's. Where one may answer differently another time, the theorem says so
  (`Coordinator.Coordinator.RunNodeWithRetries`, the `Workers` and `Faithful` theorems).
- The base run resumes nothing (`s.resume == map[]`): the coordinator builds `resume_outputs` itself.

## Where the code and its own words differ

- The comment at `src/engine/walk.rs:654-656` says a duplicate node id makes the sort answer `None`. That check comes
  after the loop, and the loop need not end. It ends on every graph without a directed cycle, ids repeated or not
  (`Kahn.AcyclicEnds`), and then a repeated id does give `None` (`Kahn.TopoSort`); it never ends where a repeated id has
  incoming edges and all of them are its own (`Kahn.RepeatedSelfNeverEnds`). The exact condition, for every graph, can be
  computed before the sort: count in rounds how often each id is due to be queued, and see whether the counts are at rest
  after one round for each id (`Kahn.EndsIffRounds`).
- The coordinator treats an abort whose text is the old boundary reason as "the engine never reached this node"
  (`src/durable/coordinator.rs:458`), while the single-process run reports it as an error. So durable and
  single-process agree exactly when it is not the case that something aborts and every abort carries that text
  (`Equivalence.RunBoth`); `Equivalence.BoundaryDiffers` is a run where they differ. A host whose executors never abort
  with that text is outside the failing case, whatever the graph (`Equivalence.NeverBoundaryOnly`).
- `src/nodes/support/expr.rs:42-51` reads `{{a}}}` as one expression with the path `a}`, while interpolation reads a
  reference `a` followed by a brace (`Templates.BraceMisread`); `Templates.WholeIsOneReference` says exactly when the
  two readings agree.
- The comment at `src/durable/coordinator.rs:643-644` says two tokens of one coordinator never collide. The counter wraps
  at 64 bits, so they do exactly when the counter has come round to the same value and the node is the same
  (`Coordinator.TokensDistinct`).
- A run key's colon is not escaped in a step key, so the steps of two different runs can share a key: at some depth,
  exactly when one run key is the other, a colon, and the text a path may begin with (`Collisions.RunKeysCollideIff`).

## Model

| member | source | states |
|---|---|---|
| Kahn.TopoSort | src/engine/walk.rs:614-662 | for every graph the loop ends on, repeated ids included, it answers with an order exactly when ids are unique and an order exists, and that order is a permutation with every edge's source before its target and obeys the first-in-first-out law |
| Kahn.EndsIffRounds | src/engine/walk.rs:633-652 | for every graph, repeated ids included, the loop ends exactly when counting in rounds how often each id is due has come to rest after one round for each id: a condition computed before the sort |
| Kahn.EndsIffBalanced | src/engine/walk.rs:633-652 | which is to say, exactly when some finite account gives each id as many places in the queue as its sources' places bring it |
| Kahn.AcyclicEnds | src/engine/walk.rs:633-657 | without a directed cycle the loop ends, however often ids repeat |
| Kahn.RepeatedSelfNeverEnds | src/engine/walk.rs:633-657 | in every graph with a repeated id that some edges lead to, all of them its own, the queue never runs dry |
| Kahn.UniqueEnds | src/engine/walk.rs:633-652 | with unique ids the loop always ends |
| Queueing.EdgeOrdered | src/engine/walk.rs:641-651 | with unique ids, the in-degree an edge counts down was above zero, so the subtraction never saturates, and the target is queued exactly when this edge was the last to free it |
| Queueing.TurnInOrder | src/engine/walk.rs:636-651 | one turn of the queue appends exactly the nodes it frees, in edge order, and leaves every in-degree counting what is still pending |
| Queueing.EnteringInOrder | src/engine/walk.rs:627-631 | the queue starts with the nodes no edge leads to, in document order |
| Turning.DegreesAre | src/engine/walk.rs:615-625 | each in-degree is the number of edges into the node's id, kept at the last node of the id |
| Topology.KahnQueueUnique | src/engine/walk.rs:610-613 | the first-in-first-out law leaves one order only, so runs are comparable node for node |
| Topology.SortableIffAcyclic | src/engine/walk.rs:610-614 | with unique ids and no dangling source, an order is missing exactly when there is a directed cycle |
| Topology.StuckHasNoOrder | src/engine/walk.rs:654-661 | a set of nodes each waiting for another of the set, or for a node that does not exist, rules an order out |
| Topology.UnsortableIsStuck | src/engine/walk.rs:654-661 | a graph with no order has such a set |
| Topology.OneKahnOrder | src/engine/walk.rs:610-613 | a graph has one visiting order under that law |
| Activation.PublishedPorts | src/engine/walk.rs:368-386 | one publication for each activated port, in activation order |
| Activation.PublicationsConsistent | src/engine/walk.rs:374-385 | publications on one port all carry one value, so storing by key loses nothing |
| Activation.OnePortResults | src/engine/walk.rs:406-413 | `__port` and `branch` results light exactly one port, whatever the node or kind declares |
| Activation.ChosenPorts | src/engine/walk.rs:418-427 | an array under `__ports` lights those ports and no other, all with the shared payload |
| Activation.ChosenPayloads | src/engine/walk.rs:428-434 | an object under `__ports` gives every port it names its own payload |
| Activation.BranchPayload | src/engine/walk.rs:437-453 | any branch result without a `value` key carries itself whole, whatever else it holds, and any with one carries the value, null included |
| Activation.KeysCollideIff | src/engine/walk.rs:606-608 | two ids can share a port key exactly when one is the other followed by a colon and anything |
| Activation.KeysInjective | src/engine/walk.rs:606-608 | in a key-safe graph the key determines the node and the port |
| Activation.ColonFreeIsKeySafe | src/engine/walk.rs:606-608 | colon-free ids are enough |
| Semantics.SolutionExists | src/engine/walk.rs:192-283 | a graph that can be sorted has a verdict for every node that its sources' verdicts call for |
| Semantics.SolutionUnique | src/engine/walk.rs:192-283 | and only one, so the result does not depend on the topological order taken |
| Semantics.Meaning | src/engine/walk.rs:217-253 | the meaning of a run satisfies the equation of every node |
| Semantics.LastActiveEdgeWins | src/engine/walk.rs:546-551 | among edges into one handle the last active one in document order decides |
| Semantics.DeadEdgesWriteNothing | src/engine/walk.rs:526-537 | a handle no active edge writes keeps its seeded value |
| Semantics.ResumeLaw | src/engine/walk.rs:195-204 | feeding back any part of a run's outputs changes no verdict |
| Diagnostics.UndeliveredEdgeWarnings | src/engine/undelivered_edges.rs:127-168 | a warning for exactly the edges whose source finished, did not light the port, and never could, in edge order |
| Diagnostics.WarnAllReadBack | src/engine/undelivered_edges.rs:114-115 | warnings against one target are read back off the stream in order and touch no other target |
| Engine.Walk.constructor | src/engine/walk.rs:89-133 | a walk of a sortable graph starts at the front of a topological order; any other is finished with the cycle error |
| Engine.Walk.NextStep | src/engine/walk.rs:150-284 | keeps the walk's bookkeeping equal to the meaning of the nodes passed; hands out only a reached, executable node that is not resumed, with the executor its bindings resolve to |
| Engine.Walk.Visit | src/engine/walk.rs:192-282 | one node is republished, skipped, walked past, failed or handed out, as its verdict says |
| Engine.Walk.CollectInputs | src/engine/walk.rs:538-553 | the inputs are the seeded ones overwritten by each active edge in document order |
| Engine.Walk.Resume | src/engine/walk.rs:303-341 | a value publishes and moves on; an abort ends the walk with its reason verbatim |
| Engine.Walk.Publish | src/engine/walk.rs:368-393 | records the output, stores each activated port's value, and emits one event a port and a closing status |
| Engine.Walk.WarnUndelivered | src/engine/walk.rs:505-514 | the walk raises the warnings the whole run's meaning calls for |
| Engine.Walk.Finish | src/engine/walk.rs:349-363 | a finished walk of a sortable graph reports the outputs and events of the nodes before the first that halts, ok exactly when none does, and else that node's reason; a walk with no order reports the cycle |
| Engine.EdgeAnswer | src/engine/walk.rs:546-549 | when the walk reaches a node its stored port values answer for every incoming edge as the meaning does |
| Engine.WalkAnswersAgree | src/engine/walk.rs:576-604 | the walk's own bookkeeping answers the undelivered-edge questions as the finished run would |
| Engine.HistoryPorts | src/engine/walk.rs:590-603 | the event stream remembers each visited node's ports in publication order |
| Engine.HistoryWarnings | src/engine/walk.rs:208-215 | and each visited node's warnings, unless the node was resumed |
| Engine.Run | src/engine/mod.rs:69-87 | reports everything up to the first node, in topological order, that halts; a graph with no order reports the cycle and nothing else |
| Engine.RunMeans | src/engine/mod.rs:61-87 | ok exactly when no node halts, and then the outputs are exactly those of the meaning |
| Engine.ErrorIsFirst | src/engine/walk.rs:303-341 | a run that is not ok names the reason of the first node to halt in first-in-first-out order |
| Engine.OneFirst | src/engine/walk.rs:610-613 | there is one such reason, whatever run is looked at |
| Store.InMemoryClaimStore.Claim | src/durable/state.rs:268-294 | wins exactly on a free node or its own held claim; counts the attempt, leaves the retry clock, and a lost race changes nothing |
| Store.InMemoryClaimStore.Complete | src/durable/state.rs:300-307 | checkpoints output and ports, whatever the row was |
| Store.InMemoryClaimStore.Skip | src/durable/state.rs:309-328 | settles exactly an unsettled node and reports whether it did |
| Store.InMemoryClaimStore.Fail | src/durable/state.rs:330-336 | settles the node as failed with no ports |
| Store.InMemoryClaimStore.Pause | src/durable/state.rs:338-344 | parks the node with the pause's reason |
| Store.InMemoryClaimStore.Release | src/durable/state.rs:248-252 | drops one row and no other |
| Store.ClaimKept | src/durable/state.rs:92-105 | without a release a row never disappears, changes hands or moves its retry clock, over any sequence of calls |
| Store.AttemptsCountClaims | src/durable/state.rs:89-91 | whatever rows there are, a node's attempts go up by its successful claims, up to the 32-bit limit |
| Store.OneWinner | src/durable/state.rs:163-173 | between two releases only one owner ever wins a node |
| Store.SettledSurvives | src/durable/state.rs:181-188 | no late claim or stale skip disturbs a settled row |
| Frontier.Compute | src/durable/frontier.rs:60-155 | ends; the skips are the least set closed under the rule, each after all its sources; ready is exactly what may then run; both in the order of the visits that first found each node unblocked |
| Frontier.Inspect | src/durable/frontier.rs:104-117 | blocked exactly when a source is unsettled, active exactly when some edge's source lit its port |
| Frontier.OrderIndependent | src/durable/frontier.rs:60-155 | the skipped and ready sets do not depend on the order nodes or edges are declared in |
| Frontier.OrderDetermined | src/durable/frontier.rs:149-154 | the rows determine both lists, order and all |
| Frontier.LeftOutIff | src/durable/frontier.rs:107-121 | an undecided node is left out of every list exactly when one of its sources is unsettled |
| Frontier.NothingLeft | src/durable/frontier.rs:167-174 | on a sortable graph with nothing held and nothing ready, every node is settled |
| Frontier.Recompute | src/durable/frontier.rs:179-193 | once the skips are written, asking again finds the same nodes ready and nothing more to skip |
| Frontier.SettleSkips | src/durable/frontier.rs:183-193 | writes every skip and returns exactly those this call was first to settle |
| Dispatch.CheckMaxConcurrent | src/durable/dispatch.rs:63-74 | refuses exactly the negative limits and keeps unlimited as zero |
| Dispatch.SelectDispatch | src/durable/dispatch.rs:87-98 | a prefix of ready; with a positive cap it never takes the held count past the cap, and stops short of ready only at the cap |
| Dispatch.BudgetHolds | src/durable/dispatch.rs:38-41 | a driver that claims all it was handed before asking again never exceeds a cap it started within, over any run |
| Retry.TriesForKind | src/durable/retry.rs:115-127 | the loop with early return computes the specification below |
| Retry.OverrideIds | src/durable/retry.rs:154-167 | the ids an override may be keyed under, without repeats, in order of preference |
| Retry.TriesLaw | src/durable/retry.rs:94-127 | at least one attempt; one for an unsafe kind; else the override of the preferred spelling that has one; else the run-wide tries |
| Retry.BareOverrideApplies | src/durable/retry.rs:149-153 | an override under the bare name reaches a node written under the canonical or legacy name |
| Replay.ReplayUpTo | src/durable/replay.rs:129-174 | the result is the engine's own run of the fenced graph, less the placeholder outputs of fences that ran |
| Replay.ReplayFidelity | src/durable/replay.rs:12-22 | once its sources are settled the target gets in the replay the inputs and the verdict of the full run, and is executed exactly when the full run executes it |
| Replay.OthersFenced | src/durable/replay.rs:18-20 | no executor but the target's is called, and no other node can stop the replay |
| Replay.FenceIsSilent | src/durable/replay.rs:78-81 | a fenced node delivers nothing along any edge |
| Replay.JobEnds | src/durable/coordinator.rs:435-475 | what a job concludes about its node is what the run means for it: value and ports, own pause, unreached, or error |
| Replay.JobWarnings | src/durable/coordinator.rs:678-680 | where nothing aborts, a job raises against its node the warnings the single-process run raises |
| Replay.PortsCollected | src/durable/replay.rs:151-162 | the ports folded from the events are each node's publications in order |
| Checkpoints.FrontierAgrees | src/durable/frontier.rs:3-23 | wherever the settled nodes lit the ports the run means, what the frontier skips the engine never executes, and what it readies is never such a node |
| Checkpoints.PutSound | src/durable/state.rs:256-264 | a fitting row written once the sources are settled keeps the rows sound |
| Jobs.SkipLands | src/durable/state.rs:181-188 | drawn from `Settling.StaleSkipLands`: a stale skip lands as it does there, and the rows still fit the run |
| Jobs.SoundLegit | src/durable/frontier.rs:3-23 | where the run has a meaning, rows that fit it are in the order the moves keep, so the theorems on any rows apply to them |
| Jobs.ReadyLands | src/durable/coordinator.rs:367-380 | once the cascade is written each ready node may have a job, then and after any further settling |
| Jobs.ClaimSound | src/durable/coordinator.rs:397-402 | claiming a dispatchable node keeps the rows sound |
| Jobs.EndingSound | src/durable/coordinator.rs:435-489 | what a job writes fits the run and touches only the row it holds |
| Coordinator.RowAnswerMeans | src/durable/coordinator.rs:744-767 | the claim rows answer the undelivered-edge questions as the finished run would |
| Coordinator.SkipWarningsMean | src/durable/coordinator.rs:681-713 | a skipped node's diagnostics are the single-process run's |
| Coordinator.ForwardedWarnings | src/durable/coordinator.rs:720-729 | forwarding passes on the target's warnings, in order, and no other node's |
| Coordinator.TokensDistinct | src/durable/coordinator.rs:643-649 | two mints of one coordinator give one token exactly when the node is the same and the 64-bit counter has come round to the same value, whatever the ids hold |
| Coordinator.Coordinator.DeliverSkipDiagnostics | src/durable/coordinator.rs:681-713 | the sink gets each skipped node's warnings in turn, and nothing without a listener |
| Coordinator.Coordinator.Advance | src/durable/coordinator.rs:367-380 | settles exactly the cascade, delivers its diagnostics once, and hands out what the budget has room for after the skips |
| Coordinator.Coordinator.Conclude | src/durable/coordinator.rs:435-489 | completes, pauses, skips, keeps or fails the row as the replay says, and reports the same |
| Coordinator.Coordinator.RunNode | src/durable/coordinator.rs:395-490 | a lost claim does nothing; a won one writes and reports what the run means for the node with its executor as it answers this time, a failure short of its tries staying claimed |
| Coordinator.Coordinator.RunNodeWithRetries | src/durable/coordinator.rs:630-641 | whatever the executor answers at each attempt, the node is attempted until the first that does not end in failure, at most its tries in all, under one token and one clock, and the row fits the run as that last attempt has it |
| Coordinator.Coordinator.Pass | src/durable/coordinator.rs:523-542 | a pass that is not idle settles at least one node; an idle one with nothing held means the run is complete |
| Coordinator.AdvanceLands | src/durable/coordinator.rs:519-545 | what an advance hands out may be run, and with nothing held an empty hand-out means every node is settled |
| Coordinator.CompleteMeans | src/durable/coordinator.rs:572-588 | a complete run has no failed row exactly when nothing ends in an error, and reports exactly the run's outputs |
| Coordinator.NeverComplete | src/durable/coordinator.rs:544-570 | a graph with no order has a node that never gets a row |
| Coordinator.Coordinator.RunToCompletion | src/durable/coordinator.rs:519-589 | from any sound rows: ok only if the run succeeds, with its outputs; with nothing held and one pass more than there are nodes, whenever it succeeds; a pause leaves exactly one row parked; started within a positive cap, it never holds more rows than the cap |
| Coordinator.Coordinator.RowsFewer | src/durable/coordinator.rs:809-812 | sound rows number at most the nodes, so the default bound never stops a run short |
| Equivalence.RunBoth | src/durable/coordinator.rs:601-616 | durable and single-process tell the same story exactly unless something aborts and every abort carries the boundary text, so always where no executor aborts with it; neither reports ok on a graph with no order; where neither fails each node is warned about alike |
| Equivalence.StopAndResume | src/durable/coordinator.rs:500-501 | stopped after any number of passes and continued by a new coordinator, an unparked run ends as it would have |
| Equivalence.NeverBoundaryOnly | src/durable/coordinator.rs:458-470 | where no executor ever aborts with the boundary text, no run is one whose every abort carries it |
| Equivalence.BoundaryDiffers | src/durable/coordinator.rs:458-470 | one node aborting with the boundary text: the durable run succeeds, the single-process one does not |
| Varying.ChangeKeepsSound | src/durable/state.rs:242-252 | dropping an unsettled node's row leaves rows sound for any run that differs in that node's executor alone |
| Varying.ClaimKeepsSound | src/durable/coordinator.rs:477-487 | and a claimed row may stay: the next attempt may go otherwise |
| Answering.ParkAndAnswer | src/durable/coordinator.rs:532-537 | a run parked on a gate and continued once it is answered ends as the answered run does, and keeps what it had settled |
| Answering.RecordChangesOneGate | src/durable/human.rs:108-148 | from any book, parking on a gate and recording its answer change what that gate does and no other node, and it then lets the answer past |
| Answering.AnswerReplacesPause | src/durable/human.rs:171-248 | from any book, what the run means as a pause at the gate, the answered run means as the answer, made of the inputs the gate paused on |
| Answering.AskAndGoOn | src/durable/human.rs:9-24 | a run of gates that parks on one, is answered and goes on ends as the run of the answered book, keeps all it had settled, and at the gate means the answer |
| Settling.StaleSkipLands | src/durable/state.rs:181-188 | on any graph and any rows the moves can reach, a skip decided from any earlier snapshot lands on a free or already skipped node |
| Settling.ReadyStarts | src/durable/coordinator.rs:367-380 | and once the cascade is settled each ready node may have a job |
| Settling.DecisionsStable | src/durable/frontier.rs:88-147 | on any graph and whatever executions end in, as rows settle a skipped node is never handed out later, and a ready node is never skipped and stays ready until it has a row |
| Moves.StepSafe | src/durable/coordinator.rs:367-490 | on any graph, whatever an execution ends in, every move of every worker keeps the rows in order, every claim with its worker, and every settled row as it is |
| Workers.SettledForever | src/durable/state.rs:52-56 | over any run of any number of workers no settled row ever changes |
| Workers.DecisionsHold | src/durable/frontier.rs:88-147 | however the workers move in between, a later look at the frontier agrees with an earlier one |
| Workers.CompletesOnce | src/durable/coordinator.rs:382-386 | no node completes twice |
| Workers.OwnerHeld | src/durable/state.rs:92-101 | between two releases, over any run, a row keeps its owner and its retry clock |
| Workers.ToldOnce | src/durable/coordinator.rs:361-365 | however many advances race, no skip is announced twice |
| Workers.FailuresBounded | src/durable/coordinator.rs:477-487 | however flaky the executors, the executions of a node that end in failure between two releases number at most its tries; a failed row has had at least one and all its attempts |
| Budget.CapHolds | src/durable/dispatch.rs:38-41 | over any run of many workers in which advances do not overlap, each hands out what `SelectDispatch` allows and everything handed out is claimed before the next, held rows and jobs still to be claimed stay within the cap together |
| Faithful.WriteMeans | src/durable/coordinator.rs:404-443 | where executions are the engine's, a job writes what the run means for its node with executors as they are by then, however old the snapshot it replays from |
| Faithful.SettledMeans | src/durable/replay.rs:3-16 | though gates are answered and retries go otherwise along the way, every settled row at any point is the one the graph means with executors as they are by then |
| Faithful.FinishedMeans | src/durable/coordinator.rs:544-588 | a run the workers finish is of a graph that can be sorted, and has the success and the outputs of that meaning |
| Lanes.Reachable | src/nodes/logic.rs:125-140 | the worklist computes exactly the forward closure of the starts |
| Lanes.ForEachLane | src/nodes/logic.rs:161-209 | the body is what the item port reaches, less what the done port reaches and the loop itself; the lane is the induced graph with the item edges into it |
| Lanes.NoWayBackIn | src/nodes/logic.rs:155-158 | no edge enters the body from anything the done port reaches |
| Lanes.BodyFromEntries | src/nodes/logic.rs:152-158 | every body node is reached from an entry of the lane without leaving the body |
| Lanes.InducedSortable | src/nodes/logic.rs:189-202 | the lane of a graph the engine can sort can be sorted |
| Lanes.InducedKeySafe | src/nodes/logic.rs:189-202 | port keys tell a lane's nodes apart wherever they tell the graph's apart |
| Lanes.ForEach | src/nodes/logic.rs:284-371 | refuses an empty lane, a bad cap and an overlong list; otherwise each result is what the lane means for its item, absent exactly where the lane fails, and each failure carries the reason of the first node of its lane to halt; it pauses only where an item's lane halts first on that pause, every item before it recorded |
| Lanes.AbsentIffOneFailure | src/nodes/logic.rs:233-234 | a result is absent exactly where one failure, and no other, carries its index |
| Templates.ValidateRoutingExpression | src/nodes/logic.rs:19-59 | the scan accepts, refuses as no expression, or refuses as unclosed; what it accepts interpolation reads to the end |
| Templates.Interpolate | src/nodes/support/expr.rs:57-78 | one pass replaces every reference left to right and keeps the rest |
| Templates.AcceptedIsClosed | src/nodes/logic.rs:37-58 | a template admission accepts never makes interpolation meet an unterminated opening |
| Templates.AdmissionIsStricter | src/nodes/logic.rs:38-57 | a template whose references are all closed is refused exactly when openings inside its references outnumber the closings left over in the text after them |
| Templates.NestedIsRefused | src/nodes/logic.rs:38-57 | `{{a{{b}}` is such a template |
| Templates.WholeIsOneReference | src/nodes/support/expr.rs:42-51 | a whole expression is one reference to interpolation exactly when its inner text does not end in a closing brace |
| Templates.BraceMisread | src/nodes/support/expr.rs:42-51 | `{{a}}}` is read as the path `a}` by one and as the reference `a` and a brace by the other |
| Identity.EscapeIsEncode | src/runtime/identity.rs:38-49 | the three replacements are one encoding of each character by itself |
| Identity.DecodeEncode | src/runtime/identity.rs:38-43 | the encoding can be reversed |
| Identity.RenderInjective | src/runtime/identity.rs:51-59 | a segment determines its node and occurrence, `Some(0)` against none included |
| Identity.StepKey | src/runtime/identity.rs:196-210 | the pushes build the run key, a colon and the segments joined by slashes |
| Identity.KeysInjective | src/runtime/identity.rs:18-27 | within one run, different paths of invocations have different keys |
| Collisions.RunKeysCollideIff | src/runtime/identity.rs:196-210 | steps of two different runs share a key, at some depth, exactly when one run key is the other followed by a colon, rendered segments each closed by a slash, and one encoded id |
| Collisions.ForeignKeysApart | src/runtime/identity.rs:196-210 | runs whose keys do not extend one another never share a step key, at any depth |
| Human.Submissions.Record | src/durable/human.rs:108-128 | accepts exactly an answer for the node the run is parked on, and takes the run off it |
| Human.Submissions.Park | src/durable/human.rs:146-148 | parks the run on the node and keeps the answers |
| Human.Submissions.ExecuteInput | src/durable/human.rs:171-202 | returns a recorded answer, or a pre-filled one when told to, or parks on itself and pauses |
| Human.Submissions.ExecuteApproval | src/durable/human.rs:218-248 | the same for a decision, which carries the gate's input down one branch |
| Human.AnswersWereAskedFor | src/durable/human.rs:101-107 | over any history every answer was recorded while the run was parked on that node |
| Human.GateFailsClosed | src/durable/human.rs:9-24 | a gate not told to answer from its input lets the run past exactly when an answer was recorded for it while it was parked on, whatever its inputs hold |

## Left out

- Host cancellation signals, run timeouts and progress events an executor emits: the durable driver passes none of the first two, and the theorems assume no `node-output` events from executors.
- The texts of events, errors and warnings, event serialisation, and the encoding of a pause: an abort reason is a value that either is a pause on a node or is not.
- Executor lookup through kind aliases (`src/executors.rs`): a kind binding is looked up by the node's kind; what the fence relies on, that a node-id binding outranks every other, is kept.
- The config-derived ports of `switch_case`, `llm_router` and `subflow` are a parameter of the set-up, and so are the catalogues, keyed by every id a kind answers to.
- A pause raised inside a nested lane does not park the outer node in the coordinator, because it filters on the pausing node's own id; the model has the same filter and claims no more.
- `Backoff`, the retry window check of a step's identity, rendered paths handed in by a store, and the refusal of blank run keys: single comparisons.
- `maxItems` is an integer or not a number; fractions between two integers, floats in general and number texts are not modelled. Brace scanning is on characters rather than bytes, which is the same for these characters.
- A value's path lookup in a template is a parameter of interpolation.
- A store shared by several processes is modelled by its atomic calls; transactions, serialisation and storage errors are not. A `RefCell` already borrowed by the host, which fails a gate's node, is not modelled.
- Workers.ToldOnce: announces a skip when its advance returns, so a worker that crashes between the two announces it never; at most once is what the code can promise.
- Dispatch.BudgetHolds: bounds held rows; jobs handed out and not yet claimed are not counted by the code either. `Budget.CapHolds` counts them, for advances that take turns.
- Node kinds other than `for_each`, the gates and routing admission, nested subflows, the authoring checks, the marketplace, and document size limits: thin wrappers over injected clients, or tables.
