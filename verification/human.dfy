/** Human gates: what is recorded, what is waited for, and when a gate lets the run past. */
module Human {
  import opened Wrappers
  import opened Values
  import opened Schema
  import opened Activation
  import opened Templates
  import opened Semantics
  import opened Checkpoints

  // ---- answers ----------------------------------------------------------------------------------------------

  /** The recorded answers, and the node the run is parked on, if any. */
  datatype Book = Book(answers: map<string, Json>, awaiting: Option<string>)

  /** An answer is taken only for the node the run is parked on, and takes the run off it. */
  function AfterRecord(book: Book, id: string, value: Json): Book {
    if book.awaiting == Some(id) then Book(book.answers[id := value], None) else book
  }

  function AfterPark(book: Book, id: string): Book {
    book.(awaiting := Some(id))
  }

  // ---- gates ------------------------------------------------------------------------------------------------

  datatype Gate = Input | Approval

  /** A value that is there and not null. */
  function Present(fields: Fields, key: string): Option<Json> {
    if Get(fields, key) == Some(Null) then None else Get(fields, key)
  }

  /** Only an explicit `true` turns it on. */
  predicate AutoAnswers(node: Node) {
    Present(node.config, "autoAnswerFromInput") == Some(Bool(true))
  }

  function Lower(text: string): string {
    if text == [] then []
    else [if 'A' <= text[0] <= 'Z' then text[0] - 'A' + 'a' else text[0]] + Lower(text[1..])
  }

  function TrimLeft(text: string): string {
    if text != [] && IsSpace(text[0]) then TrimLeft(text[1..]) else text
  }

  function TrimRight(text: string): string {
    if text != [] && IsSpace(text[|text| - 1]) then TrimRight(text[..|text| - 1]) else text
  }

  predicate Truthy(value: Json) {
    match value
    case Null => false
    case Bool(flag) => flag
    case Number(n) => n != 0
    case Text(text) => Lower(TrimRight(TrimLeft(text))) !in {"", "0", "false", "no", "off", "null"}
    case Array(items) => items != []
    case Object(fields) => fields != []
  }

  /** The gate's own input, a null one included, or everything it was handed. */
  function InputOrAll(inputs: Fields): Json {
    if Get(inputs, "in").Some? then Get(inputs, "in").value else Object(inputs)
  }

  /** What a gate makes of an answer: itself, or a decision that carries the gate's input on. */
  function Answered(gate: Gate, inputs: Fields, answer: Json): Json {
    match gate
    case Input => answer
    case Approval => Activation.Branch(if Truthy(answer) then "approved" else "denied", InputOrAll(inputs))
  }

  /** The port whose pre-filled value a gate may take when it is told to. */
  function PrefilledPort(gate: Gate): string {
    if gate.Input? then "values" else "approved"
  }

  function Awaits(gate: Gate): string {
    if gate.Input? then "input" else "approval"
  }

  function GateOutcome(book: Book, gate: Gate, node: Node, inputs: Fields): Outcome {
    if node.id in book.answers then Value(Answered(gate, inputs, book.answers[node.id]))
    else if AutoAnswers(node) && Present(inputs, PrefilledPort(gate)).Some? then
      Value(Answered(gate, inputs, Present(inputs, PrefilledPort(gate)).value))
    else Aborted(Pause(node.id, Awaits(gate)))
  }

  function AfterGate(book: Book, gate: Gate, node: Node, inputs: Fields): Book {
    if GateOutcome(book, gate, node, inputs).Value? then book else AfterPark(book, node.id)
  }

  class Submissions {
    var answers: map<string, Json>
    var awaiting: Option<string>

    function Contents(): Book
      reads this
    {
      Book(answers, awaiting)
    }

    constructor ()
      ensures Contents() == Book(map[], None)
    {
      answers, awaiting := map[], None;
    }

    /** Record an answer. Refused, and nothing kept, when the run is not waiting on that node. */
    method Record(id: string, value: Json) returns (accepted: bool)
      modifies this
      ensures accepted <==> old(awaiting) == Some(id)
      ensures Contents() == AfterRecord(old(Contents()), id, value)
    {
      if awaiting != Some(id) {
        return false;
      }
      answers := answers[id := value];
      awaiting := None;
      return true;
    }

    method Park(id: string)
      modifies this`awaiting
      ensures Contents() == AfterPark(old(Contents()), id)
    {
      awaiting := Some(id);
    }

    method ExecuteInput(node: Node, inputs: Fields) returns (outcome: Outcome)
      modifies this
      ensures outcome == GateOutcome(old(Contents()), Input, node, inputs)
      ensures Contents() == AfterGate(old(Contents()), Input, node, inputs)
    {
      if node.id in answers {
        return Value(answers[node.id]);
      }
      if AutoAnswers(node) {
        var values := Present(inputs, "values");
        if values.Some? {
          return Value(values.value);
        }
      }
      Park(node.id);
      return Aborted(Pause(node.id, "input"));
    }

    method ExecuteApproval(node: Node, inputs: Fields) returns (outcome: Outcome)
      modifies this
      ensures outcome == GateOutcome(old(Contents()), Approval, node, inputs)
      ensures Contents() == AfterGate(old(Contents()), Approval, node, inputs)
    {
      if node.id in answers {
        return Value(Answered(Approval, inputs, answers[node.id]));
      }
      if AutoAnswers(node) {
        var decision := Present(inputs, "approved");
        if decision.Some? {
          return Value(Answered(Approval, inputs, decision.value));
        }
      }
      Park(node.id);
      return Aborted(Pause(node.id, "approval"));
    }
  }

  // ---- histories ----------------------------------------------------------------------------------------------

  datatype Act =
    | Recording(node: string, value: Json)
    | Parking(node: string)
    | Executing(gate: Gate, at: Node, inputs: Fields)

  function Do(book: Book, act: Act): Book {
    match act
    case Recording(id, value) => AfterRecord(book, id, value)
    case Parking(id) => AfterPark(book, id)
    case Executing(gate, node, inputs) => AfterGate(book, gate, node, inputs)
  }

  function DoAll(acts: seq<Act>): Book {
    if acts == [] then Book(map[], None) else Do(DoAll(acts[..|acts| - 1]), acts[|acts| - 1])
  }

  /** Act `k` recorded this value for `id` while the run was parked on it. */
  ghost predicate RecordedAt(acts: seq<Act>, k: nat, id: string, value: Json) {
    k < |acts| && acts[k] == Recording(id, value) && DoAll(acts[..k]).awaiting == Some(id)
  }

  /** Every answer in the book was asked for: the run was parked on that very node when it was recorded. */
  lemma {:induction false} AnswersWereAskedFor(acts: seq<Act>, id: string) returns (k: nat)
    requires id in DoAll(acts).answers
    ensures RecordedAt(acts, k, id, DoAll(acts).answers[id])
  {
    var n := |acts| - 1;
    var before := DoAll(acts[..n]);
    if acts[n].Recording? && acts[n].node == id && before.awaiting == Some(id) {
      k := n;
    } else {
      k := AnswersWereAskedFor(acts[..n], id);
      assert acts[..n][..k] == acts[..k];
    }
  }

  /** And whoever parked the run on it was the node itself, or the host. */
  lemma {:induction false} AwaitingWasParked(acts: seq<Act>, id: string) returns (k: nat)
    requires DoAll(acts).awaiting == Some(id)
    ensures k < |acts| && (acts[k] == Parking(id) || (acts[k].Executing? && acts[k].at.id == id))
  {
    var n := |acts| - 1;
    if acts[n] == Parking(id) || (acts[n].Executing? && acts[n].at.id == id) {
      k := n;
    } else {
      k := AwaitingWasParked(acts[..n], id);
    }
  }

  /**
   * Gates fail closed. Over any history, a gate not told to answer from its input lets the run past exactly when an
   * answer was recorded for that node while the run was parked on it, whatever its inputs hold.
   */
  lemma GateFailsClosed(acts: seq<Act>, gate: Gate, node: Node, inputs: Fields)
    requires !AutoAnswers(node)
    ensures GateOutcome(DoAll(acts), gate, node, inputs).Value?
       <==> exists k, value :: RecordedAt(acts, k, node.id, value)
  {
    if node.id in DoAll(acts).answers {
      var k := AnswersWereAskedFor(acts, node.id);
    }
    if k, value :| RecordedAt(acts, k, node.id, value) {
      StillAnswered(acts, k, node.id, value, |acts|);
      assert acts[..|acts|] == acts;
    }
  }

  /** An answer, once recorded, is never lost. */
  lemma {:induction false} StillAnswered(acts: seq<Act>, k: nat, id: string, value: Json, n: nat)
    requires RecordedAt(acts, k, id, value) && k < n <= |acts|
    ensures id in DoAll(acts[..n]).answers
    decreases n
  {
    assert acts[..n][..n - 1] == acts[..n - 1];
    if n > k + 1 {
      StillAnswered(acts, k, id, value, n - 1);
    }
  }

  /** A gate that does not let the run past parks it on itself: its pause is its own. */
  lemma GateParksItself(book: Book, gate: Gate, node: Node, inputs: Fields)
    requires GateOutcome(book, gate, node, inputs).Aborted?
    ensures AfterGate(book, gate, node, inputs).awaiting == Some(node.id)
    ensures OwnPause(node.id, GateOutcome(book, gate, node, inputs).reason)
    ensures forall value :: GateOutcome(AfterRecord(AfterGate(book, gate, node, inputs), node.id, value), gate, node, inputs)
                         == Value(Answered(gate, inputs, value))
  {
  }

  /** A second answer needs a second park. */
  lemma OneAnswerEach(book: Book, id: string, value: Json, other: string, more: Json)
    requires book.awaiting == Some(id)
    ensures AfterRecord(AfterRecord(book, id, value), other, more) == AfterRecord(book, id, value)
  {
  }
}
