/** What the emitter's rows say about the events received, for every stream of events. Everything on the
    right-hand side of the theorems is a function of the stream alone. */
module EmitterRuns {
  import opened Wrappers
  import opened Emitter

  function Init<T>(s: seq<T>): seq<T>
    requires s != []
  {
    s[..|s| - 1]
  }

  function Last<T>(s: seq<T>): T
    requires s != []
  {
    s[|s| - 1]
  }

  ghost function After(space: char -> bool, evs: seq<Event>): State {
    if evs == [] then INITIAL else Emit(space, After(space, Init(evs)), Last(evs)).0
  }

  // ---------- readings of an event stream ----------

  /** The thinking received in a scope. */
  function ThoughtIn(evs: seq<Event>, scope: Scope): string {
    if evs == [] then ""
    else ThoughtIn(Init(evs), scope) + if Last(evs).Thinking? && Last(evs).scope == scope then Last(evs).text else ""
  }

  /** The tokens received in a scope since its last tool event or guardrail correction. */
  function Unsaved(evs: seq<Event>, scope: Scope): string {
    if evs == [] then ""
    else
      var ev := Last(evs);
      if ev.scope != scope then Unsaved(Init(evs), scope)
      else if ev.Token? then Unsaved(Init(evs), scope) + ev.text
      else if ev.ToolCall? || ev.GuardrailCorrection? then ""
      else Unsaved(Init(evs), scope)
  }

  /** The text a tool event turns into narration: what was unsaved when it came, unless that is blank. */
  predicate Narrates(space: char -> bool, evs: seq<Event>, scope: Scope)
    requires evs != []
  {
    Last(evs).ToolCall? && Last(evs).scope == scope && !IsBlank(space, Unsaved(Init(evs), scope))
  }

  function Narrated(space: char -> bool, evs: seq<Event>, scope: Scope): seq<string> {
    if evs == [] then []
    else Narrated(space, Init(evs), scope) + if Narrates(space, evs, scope) then [Unsaved(Init(evs), scope)] else []
  }

  /** The last narration of the scope's current turn. */
  function InTurn(space: char -> bool, evs: seq<Event>, scope: Scope): Option<string> {
    if evs == [] then None
    else if Narrates(space, evs, scope) then Some(Unsaved(Init(evs), scope))
    else if Last(evs) == TurnComplete(scope) then None
    else InTurn(space, Init(evs), scope)
  }

  /** Position of the first terminal event of a call. */
  function Settled(evs: seq<Event>, call: string): (r: Option<nat>)
    ensures r.Some? ==> r.value < |evs| && evs[r.value].ToolCall? && evs[r.value].call == call
                        && IsTerminal(evs[r.value].status)
  {
    if evs == [] then None
    else if Settled(Init(evs), call).Some? then Settled(Init(evs), call)
    else if Last(evs).ToolCall? && Last(evs).call == call && IsTerminal(Last(evs).status) then Some(|evs| - 1)
    else None
  }

  // ---------- readings of the rows ----------

  function ThoughtRows(rows: seq<Row>, scope: Scope): string {
    if rows == [] then ""
    else ThoughtRows(Init(rows), scope) +
         if Last(rows).scope == scope && Last(rows).body.Thought? then Last(rows).body.text else ""
  }

  function NarrationRows(rows: seq<Row>, scope: Scope): seq<string> {
    if rows == [] then []
    else NarrationRows(Init(rows), scope) +
         if Last(rows).scope == scope && Last(rows).body.Narration? then [Last(rows).body.text] else []
  }

  function Bodies(rows: seq<Row>, scope: Scope): seq<Body> {
    if rows == [] then []
    else Bodies(Init(rows), scope) + if Last(rows).scope == scope then [Last(rows).body] else []
  }

  lemma {:induction false} JoinSnoc(chunks: seq<string>, text: string)
    ensures Join(chunks + [text]) == Join(chunks) + text
  {
    if chunks == [] {
    } else {
      assert (chunks + [text])[1..] == chunks[1..] + [text];
      JoinSnoc(chunks[1..], text);
    }
  }

  lemma Added(rows: seq<Row>, row: Row, sc: Scope)
    ensures ThoughtRows(rows + [row], sc) ==
            ThoughtRows(rows, sc) + (if row.scope == sc && row.body.Thought? then row.body.text else "")
    ensures NarrationRows(rows + [row], sc) ==
            NarrationRows(rows, sc) + (if row.scope == sc && row.body.Narration? then [row.body.text] else [])
    ensures Bodies(rows + [row], sc) == Bodies(rows, sc) + (if row.scope == sc then [row.body] else [])
  {
    assert Init(rows + [row]) == rows;
  }

  // ---------- thinking ----------

  function ThoughtSoFar(st: State, sc: Scope): string {
    ThoughtRows(st.rows, sc) + Join(Pending(st.thinking, sc))
  }

  lemma FlushKeepsThought(st: State, scope: Scope, sc: Scope)
    ensures ThoughtSoFar(FlushThinking(st, scope), sc) == ThoughtSoFar(st, sc)
  {
    var text := Join(Pending(st.thinking, scope));
    Added(st.rows, Row(|st.rows|, st.nextSeq, scope, Thought(text)), sc);
  }

  lemma TokensKeepThought(space: char -> bool, st: State, scope: Scope, sc: Scope)
    ensures ThoughtSoFar(FlushTokens(space, st, scope), sc) == ThoughtSoFar(st, sc)
  {
    Added(st.rows, Row(|st.rows|, st.nextSeq, scope, Narration(Join(Pending(st.tokens, scope)))), sc);
  }

  lemma CallKeepsThought(st: State, ev: Event, sc: Scope)
    requires ev.ToolCall?
    ensures ThoughtSoFar(RecordCall(st, ev).0, sc) == ThoughtSoFar(st, sc)
  {
    if ev.call !in st.receipts && ev.call !in st.seen && IsTerminal(ev.status) {
      Added(st.rows, Row(|st.rows|, st.nextSeq, ev.scope, Outcome(ev.call, ev.status)), sc);
    }
  }

  lemma OpenKeepsThought(st: State, scope: Scope, sc: Scope)
    ensures ThoughtSoFar(Open(st, scope), sc) == ThoughtSoFar(st, sc)
  {
  }

  lemma ChunkThought(st: State, scope: Scope, text: string, sc: Scope)
    requires scope in st.thinking
    ensures ThoughtSoFar(st.(thinking := st.thinking[scope := st.thinking[scope] + [text]]), sc) ==
            ThoughtSoFar(st, sc) + if scope == sc then text else ""
  {
    JoinSnoc(st.thinking[scope], text);
  }

  lemma EmitThought(space: char -> bool, st: State, ev: Event, st': State, sc: Scope)
    requires st' == Emit(space, st, ev).0
    ensures ThoughtSoFar(st', sc) == ThoughtSoFar(st, sc) + if ev.Thinking? && ev.scope == sc then ev.text else ""
  {
    var open := Open(st, ev.scope);
    OpenKeepsThought(st, ev.scope, sc);
    match ev
    case Thinking(scope, text) =>
      ChunkThought(open, scope, text, sc);
    case Token(scope, text) =>
      FlushKeepsThought(open.(tokens := open.tokens[scope := open.tokens[scope] + [text]]), scope, sc);
    case ToolCall(scope, _, _) =>
      FlushKeepsThought(open, scope, sc);
      TokensKeepThought(space, FlushThinking(open, scope), scope, sc);
      CallKeepsThought(FlushTokens(space, FlushThinking(open, scope), scope), ev, sc);
    case _ =>
  }

  /** Nothing thought is lost, repeated or moved to another scope: the persisted thinking of a scope
      followed by its buffer is exactly the thinking received in that scope. */
  lemma {:induction false} ThinkingConserved(space: char -> bool, evs: seq<Event>, scope: Scope)
    ensures ThoughtRows(After(space, evs).rows, scope) + Join(Pending(After(space, evs).thinking, scope)) ==
            ThoughtIn(evs, scope)
  {
    if evs == [] {
    } else {
      ThinkingConserved(space, Init(evs), scope);
      EmitThought(space, After(space, Init(evs)), Last(evs), After(space, evs), scope);
    }
  }

  // ---------- narration ----------

  function UnsavedNow(st: State, sc: Scope): string {
    Join(Pending(st.tokens, sc))
  }

  lemma FlushKeepsNarration(st: State, scope: Scope, sc: Scope)
    ensures NarrationRows(FlushThinking(st, scope).rows, sc) == NarrationRows(st.rows, sc)
    ensures FlushThinking(st, scope).tokens == st.tokens
  {
    Added(st.rows, Row(|st.rows|, st.nextSeq, scope, Thought(Join(Pending(st.thinking, scope)))), sc);
  }

  lemma TokensNarrate(space: char -> bool, st: State, scope: Scope, sc: Scope)
    ensures var st' := FlushTokens(space, st, scope);
            && NarrationRows(st'.rows, sc) == NarrationRows(st.rows, sc) +
                 (if scope == sc && !IsBlank(space, UnsavedNow(st, sc)) then [UnsavedNow(st, sc)] else [])
            && UnsavedNow(st', sc) == if scope == sc then "" else UnsavedNow(st, sc)
  {
    if !IsBlank(space, UnsavedNow(st, scope)) {
      Added(st.rows, Row(|st.rows|, st.nextSeq, scope, Narration(UnsavedNow(st, scope))), sc);
    }
  }

  lemma CallKeepsNarration(st: State, ev: Event, sc: Scope)
    requires ev.ToolCall?
    ensures NarrationRows(RecordCall(st, ev).0.rows, sc) == NarrationRows(st.rows, sc)
    ensures RecordCall(st, ev).0.tokens == st.tokens
  {
    if ev.call !in st.receipts && ev.call !in st.seen && IsTerminal(ev.status) {
      Added(st.rows, Row(|st.rows|, st.nextSeq, ev.scope, Outcome(ev.call, ev.status)), sc);
    }
  }

  lemma OpenKeepsTokens(st: State, scope: Scope, sc: Scope)
    ensures UnsavedNow(Open(st, scope), sc) == UnsavedNow(st, sc)
  {
  }

  lemma ChunkUnsaved(st: State, scope: Scope, text: string, sc: Scope)
    requires scope in st.tokens
    ensures UnsavedNow(st.(tokens := st.tokens[scope := st.tokens[scope] + [text]]), sc) ==
            UnsavedNow(st, sc) + if scope == sc then text else ""
  {
    JoinSnoc(st.tokens[scope], text);
  }

  /** What one event does to the unsaved tokens of a scope. */
  function UnsavedAfter(ev: Event, sc: Scope, before: string): string {
    if ev.scope != sc then before
    else if ev.Token? then before + ev.text
    else if ev.ToolCall? || ev.GuardrailCorrection? then ""
    else before
  }

  lemma EmitNarration(space: char -> bool, st: State, ev: Event, st': State, sc: Scope)
    requires st' == Emit(space, st, ev).0
    ensures UnsavedNow(st', sc) == UnsavedAfter(ev, sc, UnsavedNow(st, sc))
    ensures NarrationRows(st'.rows, sc) == NarrationRows(st.rows, sc) +
              if ev.ToolCall? && ev.scope == sc && !IsBlank(space, UnsavedNow(st, sc)) then [UnsavedNow(st, sc)] else []
  {
    var open := Open(st, ev.scope);
    OpenKeepsTokens(st, ev.scope, sc);
    match ev
    case Token(scope, text) =>
      ChunkUnsaved(open, scope, text, sc);
      FlushKeepsNarration(open.(tokens := open.tokens[scope := open.tokens[scope] + [text]]), scope, sc);
    case ToolCall(scope, _, _) =>
      FlushKeepsNarration(open, scope, sc);
      TokensNarrate(space, FlushThinking(open, scope), scope, sc);
      CallKeepsNarration(FlushTokens(space, FlushThinking(open, scope), scope), ev, sc);
    case _ =>
  }

  /** The narration rows of a scope are, in order, the non-blank runs of tokens that a tool event ended;
      what is buffered is the run that nothing has ended yet. */
  lemma {:induction false} NarrationIsKept(space: char -> bool, evs: seq<Event>, scope: Scope)
    ensures NarrationRows(After(space, evs).rows, scope) == Narrated(space, evs, scope)
    ensures Join(Pending(After(space, evs).tokens, scope)) == Unsaved(evs, scope)
  {
    if evs == [] {
    } else {
      NarrationIsKept(space, Init(evs), scope);
      EmitNarration(space, After(space, Init(evs)), Last(evs), After(space, evs), scope);
    }
  }

  // ---------- numbering ----------

  predicate Numbered(st: State) {
    st.nextSeq == |st.rows| + 1 && forall i :: 0 <= i < |st.rows| ==> st.rows[i].id == i && st.rows[i].seqNo == i + 1
  }

  /** Rows are only ever added at the end, and rows and their numbers stay in step. */
  predicate Grows(st: State, st': State) {
    st.rows <= st'.rows && (Numbered(st) ==> Numbered(st'))
  }

  lemma FlushGrows(st: State, scope: Scope)
    ensures Grows(st, FlushThinking(st, scope))
  {
  }

  lemma TokensGrow(space: char -> bool, st: State, scope: Scope)
    ensures Grows(st, FlushTokens(space, st, scope))
  {
  }

  lemma CallGrows(st: State, ev: Event)
    requires ev.ToolCall?
    ensures Grows(st, RecordCall(st, ev).0)
  {
  }

  lemma EmitGrows(space: char -> bool, st: State, ev: Event, st': State)
    requires st' == Emit(space, st, ev).0
    ensures Grows(st, st')
  {
    var open := Open(st, ev.scope);
    match ev
    case Token(scope, text) =>
      FlushGrows(open.(tokens := open.tokens[scope := open.tokens[scope] + [text]]), scope);
    case ToolCall(scope, _, _) =>
      FlushGrows(open, scope);
      TokensGrow(space, FlushThinking(open, scope), scope);
      CallGrows(FlushTokens(space, FlushThinking(open, scope), scope), ev);
    case _ =>
  }

  /** The sequence numbers of a run's rows are 1, 2, 3, ... without a gap. */
  lemma {:induction false} RowsNumbered(space: char -> bool, evs: seq<Event>)
    ensures Numbered(After(space, evs))
  {
    if evs == [] {
    } else {
      RowsNumbered(space, Init(evs));
      EmitGrows(space, After(space, Init(evs)), Last(evs), After(space, evs));
    }
  }
}
