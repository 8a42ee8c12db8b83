/** A person's answer changes what one gate does, and nothing that is already recorded. */
module Answering {
  import opened Wrappers
  import opened Values
  import opened Schema
  import opened Activation
  import opened Topology
  import opened Semantics
  import opened Diagnostics
  import opened Store
  import opened Frontier
  import opened Retry
  import opened Checkpoints
  import opened Jobs
  import opened Replay
  import opened Coordinator
  import opened Varying
  import opened Equivalence
  import Human

  /** Dropping a parked row leaves nothing held that was not held before. */
  lemma ParkedAlone(before: Rows, after: Rows, gate: string)
    requires Parks(before, after, gate) && HeldIds(before) == {}
    ensures HeldIds(after - {gate}) == {} && !Settled(after, gate)
  {
    AdvancedLater(before, after - {gate});
  }

  /**
   * Park, answer, release, resume. A run that parks on `gate`, and is continued by a new coordinator once the
   * answer is recorded and the row dropped, ends as the answered run does; and what it had settled stays.
   */
  method ParkAndAnswer(s: Setup, t: Setup, gate: string, runKey: string, retry: RetryPolicy, maxConcurrent: nat)
    returns (first: DurableRunResult, second: DurableRunResult, parked: Rows, ended: Rows)
    requires Configured(s) && Sortable(s.graph) && SameButFor(s, t, gate)
    ensures first.pause.Some? && first.pause.value.Pause? && first.pause.value.node == gate ==>
      && (second.ok <==> Succeeds(Meaning(t)))
      && (second.ok ==> forall id :: Get(second.outputs, id) == OutputOf(Meaning(t), id))
      && (second.pause.None? ==> Advanced(parked - {gate}, ended))
      && At(Meaning(s), gate).Halted?
  {
    hide Meaning, Sortable, Sound, Told, AbortFree, Succeeds, Advanced, Parks, KeySafe, SameButFor, HeldIds;
    SameGraphOf(s, t, gate);
    var store := new InMemoryClaimStore();
    var driver := new Coordinator(s, runKey, store, retry, maxConcurrent, false);
    EmptySound(s);
    assert HeldIds(driver.Rows()) == {} by { NothingHeld(); }
    first := driver.RunToCompletion(None);
    second, parked, ended := first, driver.Rows(), driver.Rows();
    if first.pause.Some? && first.pause.value.node == gate {
      ParkedAlone(map[], parked, gate);
      assert At(Meaning(s), gate).Halted? by { ParkedHalts(s, parked, gate); }
      ChangeKeepsSound(s, t, gate, parked);
      store.Release(runKey, gate);
      var next := new Coordinator(t, runKey, store, retry, maxConcurrent, false);
      second := next.RunToCompletion(None);
      ended := next.Rows();
    }
  }

  lemma ParkedHalts(s: Setup, rows: Rows, gate: string)
    requires Sortable(s.graph) && Sound(s, rows) && Parks(map[], rows, gate)
    ensures At(Meaning(s), gate).Halted?
  {
    hide Doomed, SourcesSettled;
    assert RowFits(s, Meaning(s), gate, rows[gate]);
  }

  lemma NothingHeld()
    ensures HeldIds(map[]) == {}
  {
  }

  // ---- the gates ------------------------------------------------------------------------------------

  /** The executors of a run whose gates, by executor name, answer from a book. */
  function WithBook(
      run: (string, Node, Fields) -> Outcome, gates: map<string, Human.Gate>, book: Human.Book)
    : (r: (string, Node, Fields) -> Outcome)
    ensures forall name, node, inputs {:trigger r(name, node, inputs)} ::
      r(name, node, inputs)
        == if name in gates then Human.GateOutcome(book, gates[name], node, inputs) else run(name, node, inputs)
  {
    (name, node, inputs) =>
      if name in gates then Human.GateOutcome(book, gates[name], node, inputs) else run(name, node, inputs)
  }

  function Gated(s: Setup, gates: map<string, Human.Gate>, book: Human.Book): Setup {
    s.(run := WithBook(s.run, gates, book))
  }

  /** The book once a gate has parked the run on itself and the answer is recorded. */
  function Replied(book: Human.Book, gate: string, value: Json): Human.Book {
    Human.AfterRecord(Human.AfterPark(book, gate), gate, value)
  }

  /**
   * Parking and the recorded answer change what one gate does and nothing else, whatever book the run began with, so
   * a run of gates is one that parks, is answered and goes on; and that gate then lets the answer past.
   */
  lemma RecordChangesOneGate(s: Setup, gates: map<string, Human.Gate>, book: Human.Book, gate: string, value: Json)
    ensures SameButFor(Gated(s, gates, book), Gated(s, gates, Replied(book, gate, value)), gate)
    ensures forall name, node: Node, inputs :: name in gates && node.id == gate ==>
      Gated(s, gates, Replied(book, gate, value)).run(name, node, inputs)
        == Value(Human.Answered(gates[name], inputs, value))
  {
    hide Human.Answered, Human.AutoAnswers;
  }

  /** Parking alone changes what no gate does: a run that parks as it goes is one run of the same executors. */
  lemma ParkChangesNoGate(
      s: Setup, gates: map<string, Human.Gate>, book: Human.Book, parked: string,
      name: string, node: Node, inputs: Fields)
    ensures Gated(s, gates, Human.AfterPark(book, parked)).run(name, node, inputs)
         == Gated(s, gates, book).run(name, node, inputs)
  {
  }

  /** The node's executor is one of the gates. */
  predicate IsGate(s: Setup, gates: map<string, Human.Gate>, node: Node, name: string) {
    node in s.graph.nodes && Resolve(s.registry, node) == Some(Host(name)) && name in gates
  }

  /** What the node is handed. */
  function Handed(s: Setup, m: Verdicts, node: Node): Fields {
    Gather(Seed(s, node.id), Incoming(s.graph, node.id), Arrivals(s, m, Incoming(s.graph, node.id)))
  }

  /**
   * The gate a run parks on, once answered, is past: what the run meant as a pause it means as the answer, made of
   * the inputs the gate was handed when it paused. The run may have begun with any book.
   */
  lemma AnswerReplacesPause(
      base: Setup, gates: map<string, Human.Gate>, book: Human.Book, node: Node, name: string, value: Json,
      m: Verdicts, mt: Verdicts)
    requires UniqueIds(base.graph) && Sortable(base.graph) && IsGate(base, gates, node, name)
    requires Solves(Gated(base, gates, book), m) && At(m, node.id).Halted?
    requires Solves(Gated(base, gates, Replied(book, node.id, value)), mt)
    ensures At(m, node.id) == Halted(Pause(node.id, Human.Awaits(gates[name])))
    ensures At(mt, node.id) == Ran(Human.Answered(gates[name], Handed(Gated(base, gates, book), m, node), value))
  {
    hide Human.Answered, Human.AutoAnswers, Arrivals, Into, Gather, VisualOnly;
    var s, t := Gated(base, gates, book), Gated(base, gates, Replied(book, node.id, value));
    RecordChangesOneGate(base, gates, book, node.id, value);
    HandedSame(s, t, m, mt, node);
    assert At(m, node.id) == Judge(s, node, m) && At(mt, node.id) == Judge(t, node, mt);
  }

  /** Every gate of this id means its answer in `mt`, made of what it was handed in `m`. */
  ghost predicate LetsPast(
      base: Setup, gates: map<string, Human.Gate>, book: Human.Book, gate: string, value: Json, m: Verdicts, mt: Verdicts)
  {
    forall node, name {:trigger IsGate(base, gates, node, name)} :: IsGate(base, gates, node, name) && node.id == gate ==>
      At(mt, gate) == Ran(Human.Answered(gates[name], Handed(Gated(base, gates, book), m, node), value))
  }

  lemma GatesLetPast(
      base: Setup, gates: map<string, Human.Gate>, book: Human.Book, gate: string, value: Json, m: Verdicts, mt: Verdicts)
    requires UniqueIds(base.graph) && Sortable(base.graph)
    requires Solves(Gated(base, gates, book), m) && At(m, gate).Halted?
    requires Solves(Gated(base, gates, Replied(book, gate, value)), mt)
    ensures LetsPast(base, gates, book, gate, value, m, mt)
  {
    hide Handed, Solves, Human.Answered, Replied;
    forall node, name | IsGate(base, gates, node, name) && node.id == gate
      ensures At(mt, gate) == Ran(Human.Answered(gates[name], Handed(Gated(base, gates, book), m, node), value))
    {
      AnswerReplacesPause(base, gates, book, node, name, value, m, mt);
    }
  }

  /**
   * A run of gates from whatever is in the book. If it parks on a gate, is answered there and goes on with a new
   * coordinator, it ends as the run of the answered book does, keeps all it had settled, and at the gate means the answer.
   */
  method AskAndGoOn(
      s: Setup, gates: map<string, Human.Gate>, book: Human.Book, gate: string, value: Json, runKey: string,
      retry: RetryPolicy, maxConcurrent: nat)
    returns (first: DurableRunResult, second: DurableRunResult, parked: Rows, ended: Rows)
    requires Configured(s) && Sortable(s.graph)
    ensures var asked, replied := Gated(s, gates, book), Gated(s, gates, Replied(book, gate, value));
      first.pause.Some? && first.pause.value.Pause? && first.pause.value.node == gate ==>
      && (second.ok <==> Succeeds(Meaning(replied)))
      && (second.ok ==> forall id :: Get(second.outputs, id) == OutputOf(Meaning(replied), id))
      && (second.pause.None? ==> Advanced(parked - {gate}, ended))
      && LetsPast(s, gates, book, gate, value, Meaning(asked), Meaning(replied))
  {
    hide Meaning, Sortable, Succeeds, Advanced, SameButFor, LetsPast, Replied, WithBook, KeySafe;
    var asked, replied := Gated(s, gates, book), Gated(s, gates, Replied(book, gate, value));
    RecordChangesOneGate(s, gates, book, gate, value);
    first, second, parked, ended := ParkAndAnswer(asked, replied, gate, runKey, retry, maxConcurrent);
    if first.pause.Some? && first.pause.value.Pause? && first.pause.value.node == gate {
      GatesLetPast(s, gates, book, gate, value, Meaning(asked), Meaning(replied));
    }
  }
}
