/** When sub-agents that share one emitter leave each other's history alone. */
module Scopes {
  import opened Wrappers
  import opened Emitter
  import opened EmitterRuns
  import opened Receipts

  /** What a scope can see of the emitter: its buffers and the contents of its rows. */
  datatype View = View(thinking: seq<string>, tokens: seq<string>, bodies: seq<Body>)

  function Seen(st: State, sc: Scope): View {
    View(Pending(st.thinking, sc), Pending(st.tokens, sc), Bodies(st.rows, sc))
  }

  function SaveThinking(v: View): View {
    var text := Join(v.thinking);
    v.(thinking := [], bodies := v.bodies + if text == "" then [] else [Thought(text)])
  }

  function SaveTokens(space: char -> bool, v: View): View {
    var text := Join(v.tokens);
    v.(tokens := [], bodies := v.bodies + if IsBlank(space, text) then [] else [Narration(text)])
  }

  function SaveCall(v: View, ev: Event, known: bool): View
    requires ev.ToolCall?
  {
    if IsTerminal(ev.status) && !known then v.(bodies := v.bodies + [Outcome(ev.call, ev.status)]) else v
  }

  /** An event of the scope itself, seen from the scope. */
  function Local(space: char -> bool, v: View, ev: Event, known: bool): View {
    match ev
    case Thinking(_, text) => v.(thinking := v.thinking + [text])
    case Token(_, text) => SaveThinking(v.(tokens := v.tokens + [text]))
    case ToolCall(_, _, _) => SaveCall(SaveTokens(space, SaveThinking(v)), ev, known)
    case GuardrailCorrection(_) => v.(tokens := [])
    case _ => v
  }

  lemma FlushSeen(st: State, scope: Scope, sc: Scope)
    ensures Seen(FlushThinking(st, scope), sc) == if scope == sc then SaveThinking(Seen(st, sc)) else Seen(st, sc)
  {
    var text := Join(Pending(st.thinking, scope));
    if text != "" {
      Added(st.rows, Row(|st.rows|, st.nextSeq, scope, Thought(text)), sc);
    }
  }

  lemma TokensSeen(space: char -> bool, st: State, scope: Scope, sc: Scope)
    ensures Seen(FlushTokens(space, st, scope), sc) ==
            if scope == sc then SaveTokens(space, Seen(st, sc)) else Seen(st, sc)
  {
    if !IsBlank(space, UnsavedNow(st, scope)) {
      Added(st.rows, Row(|st.rows|, st.nextSeq, scope, Narration(UnsavedNow(st, scope))), sc);
    }
  }

  /** Recording a call leaves the buffers alone and adds at most one row. */
  lemma CallRecorded(st: State, ev: Event, st': State)
    requires ev.ToolCall? && st.seen == st.receipts.Keys && st' == RecordCall(st, ev).0
    ensures st'.thinking == st.thinking && st'.tokens == st.tokens
    ensures st'.rows ==
            if ev.call !in st.receipts && IsTerminal(ev.status)
            then st.rows + [Row(|st.rows|, st.nextSeq, ev.scope, Outcome(ev.call, ev.status))] else st.rows
  {
  }

  lemma CallSeen(st: State, ev: Event, st': State, sc: Scope)
    requires ev.ToolCall? && st.seen == st.receipts.Keys && st' == RecordCall(st, ev).0
    ensures Seen(st', sc) == if ev.scope == sc then SaveCall(Seen(st, sc), ev, ev.call in st.receipts) else Seen(st, sc)
  {
    CallRecorded(st, ev, st');
    RowSeen(st, ev, st'.rows, sc);
  }

  lemma RowSeen(st: State, ev: Event, rows: seq<Row>, sc: Scope)
    requires ev.ToolCall?
    requires rows == if ev.call !in st.receipts && IsTerminal(ev.status)
                     then st.rows + [Row(|st.rows|, st.nextSeq, ev.scope, Outcome(ev.call, ev.status))] else st.rows
    ensures View(Pending(st.thinking, sc), Pending(st.tokens, sc), Bodies(rows, sc)) ==
            if ev.scope == sc then SaveCall(Seen(st, sc), ev, ev.call in st.receipts) else Seen(st, sc)
  {
    Added(st.rows, Row(|st.rows|, st.nextSeq, ev.scope, Outcome(ev.call, ev.status)), sc);
  }

  lemma OpenSeen(st: State, scope: Scope, sc: Scope)
    ensures Seen(Open(st, scope), sc) == Seen(st, sc)
  {
  }

  lemma ToolSeen(space: char -> bool, st: State, ev: Event, st': State, sc: Scope)
    requires ev.ToolCall? && st.seen == st.receipts.Keys && st' == Emit(space, st, ev).0
    ensures Seen(st', sc) ==
            if ev.scope == sc then Local(space, Seen(st, sc), ev, ev.call in st.receipts) else Seen(st, sc)
  {
    var open := Open(st, ev.scope);
    var flushed := FlushThinking(open, ev.scope);
    OpenSeen(st, ev.scope, sc);
    FlushSeen(open, ev.scope, sc);
    FlushesKeepReceipts(space, open, ev.scope);
    TokensSeen(space, flushed, ev.scope, sc);
    FlushesKeepReceipts(space, flushed, ev.scope);
    CallSeen(FlushTokens(space, flushed, ev.scope), ev, st', sc);
  }

  lemma EmitSeen(space: char -> bool, st: State, ev: Event, st': State, sc: Scope)
    requires st.seen == st.receipts.Keys && st' == Emit(space, st, ev).0
    ensures Seen(st', sc) ==
            if ev.scope == sc then Local(space, Seen(st, sc), ev, ev.ToolCall? && ev.call in st.receipts)
            else Seen(st, sc)
  {
    var open := Open(st, ev.scope);
    OpenSeen(st, ev.scope, sc);
    match ev
    case Token(scope, text) =>
      FlushSeen(open.(tokens := open.tokens[scope := open.tokens[scope] + [text]]), scope, sc);
    case ToolCall(_, _, _) =>
      ToolSeen(space, st, ev, st', sc);
    case _ =>
  }

  /** The part of a stream that belongs to one scope. */
  function Only(evs: seq<Event>, sc: Scope): seq<Event> {
    if evs == [] then []
    else if Last(evs).scope == sc then Only(Init(evs), sc) + [Last(evs)]
    else Only(Init(evs), sc)
  }

  /** A call that some terminal event of the scope reports is settled in the whole stream by an event of the
      scope itself: no other scope has reported its end before. */
  ghost predicate SettlesOwn(evs: seq<Event>, sc: Scope, c: string) {
    Settled(Only(evs, sc), c).Some? ==> Settled(evs, c).Some? && evs[Settled(evs, c).value].scope == sc
  }

  lemma OnlyNext(evs: seq<Event>, sc: Scope)
    requires evs != []
    ensures Last(evs).scope == sc ==> Init(Only(evs, sc)) == Only(Init(evs), sc) && Last(Only(evs, sc)) == Last(evs)
    ensures Last(evs).scope != sc ==> Only(evs, sc) == Only(Init(evs), sc)
  {
  }

  /** What is settled in the scope's own part is settled in the whole; and a call whose first terminal event
      lies in the scope is settled in the scope's part. */
  lemma {:induction false} SettledInPart(evs: seq<Event>, c: string, sc: Scope)
    ensures Settled(Only(evs, sc), c).Some? ==> Settled(evs, c).Some?
    ensures Settled(evs, c).Some? && evs[Settled(evs, c).value].scope == sc ==> Settled(Only(evs, sc), c).Some?
  {
    if evs != [] {
      OnlyNext(evs, sc);
      SettledInPart(Init(evs), c, sc);
    }
  }

  lemma OwnBefore(evs: seq<Event>, sc: Scope, c: string)
    requires evs != [] && SettlesOwn(evs, sc, c)
    ensures SettlesOwn(Init(evs), sc, c)
  {
    OnlyNext(evs, sc);
    SettledInPart(Init(evs), c, sc);
  }

  /** When the scope reports the end of a call, the whole emitter knows the call exactly if the scope's own would. */
  lemma KnownAlone(space: char -> bool, evs: seq<Event>, sc: Scope)
    requires evs != [] && Last(evs).ToolCall? && Last(evs).scope == sc && IsTerminal(Last(evs).status)
    requires SettlesOwn(evs, sc, Last(evs).call)
    ensures Last(evs).call in After(space, Init(evs)).receipts <==>
            Last(evs).call in After(space, Only(Init(evs), sc)).receipts
  {
    var c := Last(evs).call;
    OnlyNext(evs, sc);
    SettledInPart(Init(evs), c, sc);
    ReceiptIffSettled(space, Init(evs), c);
    ReceiptIffSettled(space, Only(Init(evs), sc), c);
  }

  lemma ReceiptIffSettled(space: char -> bool, evs: seq<Event>, c: string)
    ensures c in After(space, evs).receipts <==> Settled(evs, c).Some?
  {
    ReceiptsTell(space, evs);
  }

  /** One event of the scope, in the whole emitter and in the scope's own. */
  lemma SameStep(space: char -> bool, evs: seq<Event>, sc: Scope)
    requires evs != [] && Last(evs).scope == sc && (Last(evs).ToolCall? ==> SettlesOwn(evs, sc, Last(evs).call))
    requires Seen(After(space, Init(evs)), sc) == Seen(After(space, Only(Init(evs), sc)), sc)
    ensures Seen(After(space, evs), sc) == Seen(After(space, Only(evs, sc)), sc)
  {
    var ev, alone := Last(evs), Only(evs, sc);
    OnlyNext(evs, sc);
    LedgerKept(space, Init(evs));
    LedgerKept(space, Init(alone));
    EmitSeen(space, After(space, Init(evs)), ev, After(space, evs), sc);
    EmitSeen(space, After(space, Init(alone)), ev, After(space, alone), sc);
    if ev.ToolCall? && IsTerminal(ev.status) {
      KnownAlone(space, evs, sc);
    }
  }

  lemma {:induction false} OwnMeansSame(space: char -> bool, evs: seq<Event>, sc: Scope)
    requires forall c :: SettlesOwn(evs, sc, c)
    ensures Seen(After(space, evs), sc) == Seen(After(space, Only(evs, sc)), sc)
  {
    if evs != [] {
      forall c ensures SettlesOwn(Init(evs), sc, c) {
        OwnBefore(evs, sc, c);
      }
      OwnMeansSame(space, Init(evs), sc);
      if Last(evs).scope == sc {
        SameStep(space, evs, sc);
      } else {
        LedgerKept(space, Init(evs));
        EmitSeen(space, After(space, Init(evs)), Last(evs), After(space, evs), sc);
      }
    }
  }

  // ---------- the outcomes a scope has ----------

  lemma {:induction false} BodiesHave(rows: seq<Row>, sc: Scope, body: Body)
    ensures body in Bodies(rows, sc) <==> exists i: nat :: i < |rows| && rows[i].scope == sc && rows[i].body == body
  {
    if rows != [] {
      BodiesHave(Init(rows), sc, body);
      assert rows == Init(rows) + [Last(rows)];
    }
  }

  /** Some row of the scope reports the end of call c. */
  ghost predicate HasOutcome(bodies: seq<Body>, c: string) {
    exists i: nat :: i < |bodies| && bodies[i].Outcome? && bodies[i].call == c
  }

  /** The outcome of a call belongs to the scope whose event settled it. */
  lemma OutcomeIsOf(space: char -> bool, evs: seq<Event>, st: State, sc: Scope, c: string)
    requires st == After(space, evs)
    ensures HasOutcome(Bodies(st.rows, sc), c) <==> Settled(evs, c).Some? && evs[Settled(evs, c).value].scope == sc
  {
    ReceiptsTell(space, evs);
    OneRowPerCall(space, evs, st, c);
    if Settled(evs, c).Some? && evs[Settled(evs, c).value].scope == sc {
      BodiesHave(st.rows, sc, Outcome(c, evs[Settled(evs, c).value].status));
    }
    if i: nat :| i < |Bodies(st.rows, sc)| && Bodies(st.rows, sc)[i].Outcome? && Bodies(st.rows, sc)[i].call == c {
      BodiesHave(st.rows, sc, Bodies(st.rows, sc)[i]);
      var k: nat :| k < |st.rows| && st.rows[k].scope == sc && st.rows[k].body == Bodies(st.rows, sc)[i];
      assert IsOutcome(st.rows, k, c) && IsOutcome(st.rows, st.receipts[c].outcome, c);
    }
  }

  lemma {:induction false} OnlyIsOfScope(evs: seq<Event>, sc: Scope, i: nat)
    requires i < |Only(evs, sc)|
    ensures Only(evs, sc)[i].scope == sc
  {
    if evs != [] {
      if i < |Only(Init(evs), sc)| { OnlyIsOfScope(Init(evs), sc, i); }
    }
  }

  lemma SameMeansOwn(space: char -> bool, evs: seq<Event>, sc: Scope, c: string)
    requires Seen(After(space, evs), sc) == Seen(After(space, Only(evs, sc)), sc)
    ensures SettlesOwn(evs, sc, c)
  {
    var alone := Only(evs, sc);
    OutcomeIsOf(space, evs, After(space, evs), sc, c);
    OutcomeIsOf(space, alone, After(space, alone), sc, c);
    if Settled(alone, c).Some? {
      OnlyIsOfScope(evs, sc, Settled(alone, c).value);
    }
  }

  /** The history a scope gets from an interleaved stream (its thinking, narration and outcome rows in order,
      and what it has buffered) is the one it would have had with no other scope running, exactly when every
      call whose end the scope reports was first ended by the scope itself. */
  lemma ScopesIndependentIff(space: char -> bool, evs: seq<Event>, sc: Scope)
    ensures Seen(After(space, evs), sc) == Seen(After(space, Only(evs, sc)), sc) <==> forall c :: SettlesOwn(evs, sc, c)
  {
    if Seen(After(space, evs), sc) == Seen(After(space, Only(evs, sc)), sc) {
      forall c ensures SettlesOwn(evs, sc, c) {
        SameMeansOwn(space, evs, sc, c);
      }
    }
    if forall c :: SettlesOwn(evs, sc, c) {
      OwnMeansSame(space, evs, sc);
    }
  }

  /** The smallest stream that fails: the second scope's outcome is taken for a repetition of the first's. */
  lemma SharedCallIsLost(space: char -> bool, call: string, evs: seq<Event>, sub: Scope)
    requires sub == Some("sub") && evs == [ToolCall(None, call, Complete), ToolCall(sub, call, Complete)]
    ensures Seen(After(space, evs), sub) != Seen(After(space, Only(evs, sub)), sub)
  {
    assert Init(evs) == [evs[0]] && Init([evs[0]]) == [] && Last([evs[0]]) == evs[0];
    assert Only([evs[0]], sub) == [];
    assert Init([evs[1]]) == [] && Last([evs[1]]) == evs[1];
    assert Settled([evs[0]], call) == Some(0) && Settled([evs[1]], call) == Some(0);
    assert !SettlesOwn(evs, sub, call);
    ScopesIndependentIff(space, evs, sub);
  }
}
