/** The persisting emitter of a run: events come in one by one, and thinking, narration and tool
    outcomes become message rows. */
module Emitter {
  import opened Wrappers

  /** None is the main agent, Some(id) a sub-agent. */
  type Scope = Option<string>

  datatype Status = Complete | Denied | Failed | TimedOut | Interrupted | PendingApproval | Running

  datatype Event =
    | Thinking(scope: Scope, text: string)
    | Token(scope: Scope, text: string)
    | ToolCall(scope: Scope, call: string, status: Status)
    | TurnComplete(scope: Scope)
    | GuardrailCorrection(scope: Scope)
    | Unrelated(scope: Scope)

  datatype Body = Thought(text: string) | Narration(text: string) | Outcome(call: string, status: Status)

  datatype Row = Row(id: nat, seqNo: nat, scope: Scope, body: Body)

  datatype Receipt = Receipt(narration: Option<nat>, outcome: nat)

  datatype State = State(
    thinking: map<Scope, seq<string>>,
    tokens: map<Scope, seq<string>>,
    seen: set<string>,
    receipts: map<string, Receipt>,
    narration: map<Scope, nat>,
    nextSeq: nat,
    rows: seq<Row>,
    awaiting: bool)

  predicate IsTerminal(s: Status) {
    s in {Complete, Denied, Failed, TimedOut, Interrupted}
  }

  function Join(chunks: seq<string>): string {
    if chunks == [] then "" else chunks[0] + Join(chunks[1..])
  }

  predicate IsBlank(space: char -> bool, text: string) {
    forall i :: 0 <= i < |text| ==> space(text[i])
  }

  function Pending(buffers: map<Scope, seq<string>>, scope: Scope): seq<string> {
    if scope in buffers then buffers[scope] else []
  }

  /** The user's message is number 0. */
  const INITIAL := State(map[None := []], map[None := []], {}, map[], map[], 1, [], false)

  function AddRow(st: State, scope: Scope, body: Body): State {
    st.(rows := st.rows + [Row(|st.rows|, st.nextSeq, scope, body)], nextSeq := st.nextSeq + 1)
  }

  function Open(st: State, scope: Scope): State {
    st.(thinking := st.thinking[scope := Pending(st.thinking, scope)],
        tokens := st.tokens[scope := Pending(st.tokens, scope)])
  }

  function FlushThinking(st: State, scope: Scope): State {
    var text := Join(Pending(st.thinking, scope));
    var cleared := st.(thinking := st.thinking[scope := []]);
    if text == "" then cleared else AddRow(cleared, scope, Thought(text))
  }

  function FlushTokens(space: char -> bool, st: State, scope: Scope): State {
    var text := Join(Pending(st.tokens, scope));
    var cleared := st.(tokens := st.tokens[scope := []]);
    if IsBlank(space, text) then cleared
    else AddRow(cleared, scope, Narration(text)).(narration := st.narration[scope := |st.rows|])
  }

  function RecordCall(st: State, ev: Event): (State, Option<Receipt>)
    requires ev.ToolCall?
  {
    if ev.call in st.receipts then (st, Some(st.receipts[ev.call]))
    else
      var waiting := st.(awaiting := st.awaiting || ev.status == PendingApproval);
      if IsTerminal(ev.status) && ev.call !in st.seen then
        var receipt := Receipt(if ev.scope in st.narration then Some(st.narration[ev.scope]) else None, |st.rows|);
        var added := AddRow(waiting, ev.scope, Outcome(ev.call, ev.status));
        (added.(seen := st.seen + {ev.call}, receipts := st.receipts[ev.call := receipt]), Some(receipt))
      else (waiting, None)
  }

  /** One emission: the new state, and the receipt handed back. */
  function Emit(space: char -> bool, st: State, ev: Event): (State, Option<Receipt>) {
    var st := Open(st, ev.scope);
    match ev
    case Thinking(scope, text) => (st.(thinking := st.thinking[scope := st.thinking[scope] + [text]]), None)
    case Token(scope, text) => (FlushThinking(st.(tokens := st.tokens[scope := st.tokens[scope] + [text]]), scope),
                                None)
    case ToolCall(scope, _, _) => RecordCall(FlushTokens(space, FlushThinking(st, scope), scope), ev)
    case TurnComplete(scope) => (st.(narration := st.narration - {scope}), None)
    case GuardrailCorrection(scope) => (st.(tokens := st.tokens[scope := []]), None)
    case Unrelated(_) => (st, None)
  }

  class PersistingEmitter {
    const space: char -> bool
    var thinking: map<Scope, seq<string>>
    var tokens: map<Scope, seq<string>>
    var seen: set<string>
    var receipts: map<string, Receipt>
    var narration: map<Scope, nat>
    var nextSeq: nat
    var rows: seq<Row>
    var awaiting: bool

    ghost function Now(): State
      reads this
    {
      State(thinking, tokens, seen, receipts, narration, nextSeq, rows, awaiting)
    }

    constructor (space: char -> bool)
      ensures Now() == INITIAL && this.space == space
    {
      this.space := space;
      thinking, tokens := map[None := []], map[None := []];
      seen, receipts, narration, nextSeq, rows, awaiting := {}, map[], map[], 1, [], false;
    }

    method Insert(scope: Scope, body: Body) returns (id: nat)
      modifies this`rows, this`nextSeq
      ensures id == old(|rows|) && Now() == AddRow(old(Now()), scope, body)
    {
      id := |rows|;
      rows := rows + [Row(id, nextSeq, scope, body)];
      nextSeq := nextSeq + 1;
    }

    method PersistThinking(scope: Scope)
      requires scope in thinking
      modifies this`rows, this`nextSeq, this`thinking
      ensures Now() == FlushThinking(old(Now()), scope)
    {
      if thinking[scope] == [] {
        assert thinking == thinking[scope := []];
        return;
      }
      var text := Join(thinking[scope]);
      thinking := thinking[scope := []];
      if text != "" {
        var _ := Insert(scope, Thought(text));
      }
    }

    method PersistNarration(scope: Scope)
      requires scope in tokens
      modifies this`rows, this`nextSeq, this`tokens, this`narration
      ensures Now() == FlushTokens(space, old(Now()), scope)
    {
      if tokens[scope] == [] {
        assert tokens == tokens[scope := []];
        return;
      }
      var text := Join(tokens[scope]);
      tokens := tokens[scope := []];
      if exists i :: 0 <= i < |text| && !space(text[i]) {
        var id := Insert(scope, Narration(text));
        narration := narration[scope := id];
      }
    }

    method PersistCall(ev: Event) returns (receipt: Option<Receipt>)
      requires ev.ToolCall?
      modifies this`rows, this`nextSeq, this`seen, this`receipts, this`awaiting
      ensures (Now(), receipt) == RecordCall(old(Now()), ev)
    {
      if ev.call in receipts {
        return Some(receipts[ev.call]);
      }
      receipt := None;
      if IsTerminal(ev.status) && ev.call !in seen {
        seen := seen + {ev.call};
        var id := Insert(ev.scope, Outcome(ev.call, ev.status));
        receipt := Some(Receipt(if ev.scope in narration then Some(narration[ev.scope]) else None, id));
        receipts := receipts[ev.call := receipt.value];
      }
      if ev.status == PendingApproval {
        awaiting := true;
      }
    }

    method EmitEvent(ev: Event) returns (receipt: Option<Receipt>)
      modifies this
      ensures (Now(), receipt) == Emit(space, old(Now()), ev)
    {
      receipt := None;
      var scope := ev.scope;
      if scope !in thinking {
        thinking := thinking[scope := []];
      }
      if scope !in tokens {
        tokens := tokens[scope := []];
      }
      assert Now() == Open(old(Now()), scope);
      if ev.Thinking? {
        thinking := thinking[scope := thinking[scope] + [ev.text]];
      }
      if ev.Token? {
        tokens := tokens[scope := tokens[scope] + [ev.text]];
      }
      if ev.Token? || ev.ToolCall? {
        PersistThinking(scope);
      }
      if ev.ToolCall? {
        PersistNarration(scope);
        receipt := PersistCall(ev);
      }
      if ev.TurnComplete? {
        narration := narration - {scope};
      }
      if ev.GuardrailCorrection? {
        tokens := tokens[scope := []];
      }
    }
  }
}
