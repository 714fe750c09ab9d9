/** Tool calls: one row each, one receipt each, and what the receipt names. */
module Receipts {
  import opened Wrappers
  import opened Emitter
  import opened EmitterRuns

  /** The receipts and the outcome rows name each other. */
  ghost predicate Ledger(st: State) {
    && st.seen == st.receipts.Keys
    && (forall c :: c in st.receipts ==> Recorded(st.rows, c, st.receipts[c]))
    && (forall i: nat :: i < |st.rows| && st.rows[i].body.Outcome? ==>
          st.rows[i].body.call in st.receipts && st.receipts[st.rows[i].body.call].outcome == i)
  }

  predicate Recorded(rows: seq<Row>, call: string, r: Receipt) {
    r.outcome < |rows| && rows[r.outcome].body.Outcome? && rows[r.outcome].body.call == call
  }

  predicate NamesRow(rows: seq<Row>, scope: Scope, n: nat, text: string) {
    n < |rows| && rows[n].scope == scope && rows[n].body == Narration(text)
  }

  /** The scope's current narration row, if it has one, holds `text`. */
  predicate Names(st: State, scope: Scope, text: Option<string>) {
    if scope in st.narration then text.Some? && NamesRow(st.rows, scope, st.narration[scope], text.value)
    else text.None?
  }

  /** The receipt names the turn's narration row, before its own row, if the turn has a narration. */
  predicate NamesTurn(rows: seq<Row>, scope: Scope, r: Receipt, turn: Option<string>) {
    && (r.narration.Some? <==> turn.Some?)
    && (turn.Some? ==> r.narration.value < r.outcome && NamesRow(rows, scope, r.narration.value, turn.value))
  }

  /** The receipt of call c names the outcome row of the first terminal event of c, and the narration of
      the turn that event came in; that row stands before the outcome row. */
  ghost predicate Tells(space: char -> bool, evs: seq<Event>, rows: seq<Row>, c: string, r: Receipt)
    requires Settled(evs, c).Some?
  {
    var i := Settled(evs, c).value;
    var turn := InTurn(space, evs[..i + 1], evs[i].scope);
    && r.outcome < |rows| && rows[r.outcome].scope == evs[i].scope
    && rows[r.outcome].body == Outcome(c, evs[i].status)
    && NamesTurn(rows, evs[i].scope, r, turn)
  }

  // ---------- one event ----------

  lemma FlushLedger(st: State, scope: Scope)
    requires Ledger(st)
    ensures Ledger(FlushThinking(st, scope))
  {
  }

  lemma TokensLedger(space: char -> bool, st: State, scope: Scope)
    requires Ledger(st)
    ensures Ledger(FlushTokens(space, st, scope))
  {
  }

  lemma CallLedger(st: State, ev: Event)
    requires Ledger(st) && ev.ToolCall?
    ensures Ledger(RecordCall(st, ev).0)
  {
    if ev.call !in st.receipts && IsTerminal(ev.status) {
      LedgerEntry(st, st.rows + [Row(|st.rows|, st.nextSeq, ev.scope, Outcome(ev.call, ev.status))], ev.call,
                  RecordCall(st, ev).0.receipts[ev.call], RecordCall(st, ev).0);
    }
  }

  lemma LedgerEntry(st: State, rows: seq<Row>, call: string, r: Receipt, st': State)
    requires Ledger(st) && call !in st.receipts && rows != [] && rows[..|rows| - 1] == st.rows
    requires Recorded(rows, call, r) && r.outcome == |rows| - 1
    requires st'.rows == rows && st'.receipts == st.receipts[call := r] && st'.seen == st.seen + {call}
    ensures Ledger(st')
  {
  }

  lemma EmitLedger(space: char -> bool, st: State, ev: Event, st': State)
    requires Ledger(st) && st' == Emit(space, st, ev).0
    ensures Ledger(st')
  {
    var open := Open(st, ev.scope);
    match ev
    case Token(scope, text) =>
      FlushLedger(open.(tokens := open.tokens[scope := open.tokens[scope] + [text]]), scope);
    case ToolCall(scope, _, _) =>
      FlushLedger(open, scope);
      TokensLedger(space, FlushThinking(open, scope), scope);
      CallLedger(FlushTokens(space, FlushThinking(open, scope), scope), ev);
    case _ =>
  }

  lemma {:induction false} LedgerKept(space: char -> bool, evs: seq<Event>)
    ensures Ledger(After(space, evs))
  {
    if evs == [] {
    } else {
      LedgerKept(space, Init(evs));
      EmitLedger(space, After(space, Init(evs)), Last(evs), After(space, evs));
    }
  }

  /** What one event does to the current narration of a scope. */
  function NameAfter(space: char -> bool, ev: Event, sc: Scope, unsaved: string, name: Option<string>): Option<string> {
    if ev.ToolCall? && ev.scope == sc && !IsBlank(space, unsaved) then Some(unsaved)
    else if ev == TurnComplete(sc) then None
    else name
  }

  lemma FlushNames(st: State, scope: Scope, sc: Scope, name: Option<string>)
    requires Names(st, sc, name)
    ensures Names(FlushThinking(st, scope), sc, name)
  {
  }

  lemma TokensName(space: char -> bool, st: State, scope: Scope, sc: Scope, name: Option<string>)
    requires Names(st, sc, name)
    ensures Names(FlushTokens(space, st, scope), sc,
                  if scope == sc && !IsBlank(space, UnsavedNow(st, sc)) then Some(UnsavedNow(st, sc)) else name)
  {
  }

  lemma CallNames(st: State, ev: Event, sc: Scope, name: Option<string>)
    requires Names(st, sc, name) && ev.ToolCall?
    ensures Names(RecordCall(st, ev).0, sc, name)
  {
  }

  lemma EmitNames(space: char -> bool, st: State, ev: Event, st': State, sc: Scope, name: Option<string>)
    requires Names(st, sc, name) && st' == Emit(space, st, ev).0
    ensures Names(st', sc, NameAfter(space, ev, sc, UnsavedNow(st, sc), name))
  {
    var open := Open(st, ev.scope);
    OpenKeepsTokens(st, ev.scope, sc);
    match ev
    case Token(scope, text) =>
      FlushNames(open.(tokens := open.tokens[scope := open.tokens[scope] + [text]]), scope, sc, name);
    case ToolCall(scope, _, _) =>
      FlushNames(open, scope, sc, name);
      FlushKeepsNarration(open, scope, sc);
      var flushed := FlushThinking(open, scope);
      TokensName(space, flushed, scope, sc, name);
      CallNames(FlushTokens(space, flushed, scope), ev, sc, NameAfter(space, ev, sc, UnsavedNow(flushed, sc), name));
    case _ =>
  }

  lemma InTurnNext(space: char -> bool, evs: seq<Event>, sc: Scope)
    requires evs != []
    ensures InTurn(space, evs, sc) ==
            NameAfter(space, Last(evs), sc, Unsaved(Init(evs), sc), InTurn(space, Init(evs), sc))
  {
  }

  /** The narration a receipt would name now is the last narration of the scope's current turn. */
  lemma {:induction false} NarrationOfTurn(space: char -> bool, evs: seq<Event>, scope: Scope)
    ensures Names(After(space, evs), scope, InTurn(space, evs, scope))
  {
    if evs == [] {
    } else {
      NarrationOfTurn(space, Init(evs), scope);
      NarrationIsKept(space, Init(evs), scope);
      InTurnNext(space, evs, scope);
      EmitNames(space, After(space, Init(evs)), Last(evs), After(space, evs), scope, InTurn(space, Init(evs), scope));
    }
  }

  // ---------- receipts over a run ----------

  /** A tool event settles its call, or finds it settled, or leaves it open; other events touch no receipt. */
  ghost predicate ReceiptStep(st: State, ev: Event, st': State, got: Option<Receipt>) {
    if !ev.ToolCall? then st'.receipts == st.receipts && got.None?
    else if ev.call in st.receipts then st'.receipts == st.receipts && got == Some(st.receipts[ev.call])
    else if IsTerminal(ev.status) then
      && got.Some? && st'.receipts == st.receipts[ev.call := got.value]
      && st'.rows != [] && got.value.outcome == |st'.rows| - 1
      && Last(st'.rows).scope == ev.scope && Last(st'.rows).body == Outcome(ev.call, ev.status)
      && got.value.narration == (if ev.scope in st'.narration then Some(st'.narration[ev.scope]) else None)
    else st'.receipts == st.receipts && got.None?
  }

  lemma FlushesKeepReceipts(space: char -> bool, st: State, scope: Scope)
    ensures FlushThinking(st, scope).receipts == st.receipts && FlushThinking(st, scope).seen == st.seen
    ensures FlushTokens(space, st, scope).receipts == st.receipts && FlushTokens(space, st, scope).seen == st.seen
  {
  }

  lemma CallReceipt(st: State, ev: Event, st': State, got: Option<Receipt>)
    requires ev.ToolCall? && st.seen == st.receipts.Keys && (st', got) == RecordCall(st, ev)
    ensures ReceiptStep(st, ev, st', got)
  {
  }

  lemma EmitReceipt(space: char -> bool, st: State, ev: Event, st': State, got: Option<Receipt>)
    requires st.seen == st.receipts.Keys && (st', got) == Emit(space, st, ev)
    ensures ReceiptStep(st, ev, st', got)
  {
    var open := Open(st, ev.scope);
    match ev
    case Token(scope, text) =>
      FlushesKeepReceipts(space, open.(tokens := open.tokens[scope := open.tokens[scope] + [text]]), scope);
    case ToolCall(scope, _, _) =>
      FlushesKeepReceipts(space, open, scope);
      FlushesKeepReceipts(space, FlushThinking(open, scope), scope);
      CallReceipt(FlushTokens(space, FlushThinking(open, scope), scope), ev, st', got);
    case _ =>
  }

  lemma TellsStays(space: char -> bool, evs: seq<Event>, rows: seq<Row>, c: string, r: Receipt, ev: Event,
                   rows': seq<Row>)
    requires Settled(evs, c).Some? && Tells(space, evs, rows, c, r) && rows <= rows'
    ensures Settled(evs + [ev], c).Some? && Tells(space, evs + [ev], rows', c, r)
  {
    var i := Settled(evs, c).value;
    assert Init(evs + [ev]) == evs;
    assert (evs + [ev])[..i + 1] == evs[..i + 1];
  }

  /** The event that settles its call. */
  lemma TellsNow(space: char -> bool, evs: seq<Event>, st: State, st': State, got: Option<Receipt>)
    requires evs != [] && st == After(space, Init(evs)) && st' == After(space, evs) &&
             got == Emit(space, st, Last(evs)).1
    requires var ev := Last(evs);
             ev.ToolCall? && IsTerminal(ev.status) && Settled(Init(evs), ev.call).None? && ev.call !in st.receipts
    ensures got.Some? && Settled(evs, Last(evs).call).Some? && Tells(space, evs, st'.rows, Last(evs).call, got.value)
  {
    var ev := Last(evs);
    LedgerKept(space, Init(evs));
    EmitReceipt(space, st, ev, st', got);
    NarrationOfTurn(space, evs, ev.scope);
    ReceiptFits(st', ev, got.value, InTurn(space, evs, ev.scope));
    TellsFrom(space, evs, st'.rows, got.value);
  }

  lemma TellsFrom(space: char -> bool, evs: seq<Event>, rows: seq<Row>, r: Receipt)
    requires evs != [] && Last(evs).ToolCall? && Settled(evs, Last(evs).call) == Some(|evs| - 1)
    requires r.outcome < |rows| && rows[r.outcome].scope == Last(evs).scope
    requires rows[r.outcome].body == Outcome(Last(evs).call, Last(evs).status)
    requires NamesTurn(rows, Last(evs).scope, r, InTurn(space, evs, Last(evs).scope))
    ensures Tells(space, evs, rows, Last(evs).call, r)
  {
    assert evs[..|evs| - 1 + 1] == evs;
  }

  /** A receipt made from the current narration names a row before its own. */
  lemma ReceiptFits(st: State, ev: Event, r: Receipt, turn: Option<string>)
    requires ev.ToolCall? && Names(st, ev.scope, turn) && st.rows != [] && r.outcome == |st.rows| - 1
    requires Last(st.rows).body == Outcome(ev.call, ev.status)
    requires r.narration == if ev.scope in st.narration then Some(st.narration[ev.scope]) else None
    ensures NamesTurn(st.rows, ev.scope, r, turn)
  {
    if ev.scope in st.narration {
      assert st.narration[ev.scope] != |st.rows| - 1;
    }
  }

  ghost predicate AllTell(space: char -> bool, evs: seq<Event>, st: State) {
    && (forall c :: c in st.receipts <==> Settled(evs, c).Some?)
    && forall c :: c in st.receipts ==> Tells(space, evs, st.rows, c, st.receipts[c])
  }

  lemma SettledNext(evs: seq<Event>, ev: Event, c: string)
    ensures Settled(evs + [ev], c).Some? <==>
            Settled(evs, c).Some? || (ev.ToolCall? && ev.call == c && IsTerminal(ev.status))
  {
    assert Init(evs + [ev]) == evs;
  }

  lemma StepTells(space: char -> bool, evs: seq<Event>, ev: Event, st: State, st': State, got: Option<Receipt>)
    requires st == After(space, evs) && (st', got) == Emit(space, st, ev) && AllTell(space, evs, st)
    ensures AllTell(space, evs + [ev], st')
  {
    LedgerKept(space, evs);
    EmitReceipt(space, st, ev, st', got);
    EmitGrows(space, st, ev, st');
    forall c | c in st.receipts
      ensures Settled(evs + [ev], c).Some? && Tells(space, evs + [ev], st'.rows, c, st.receipts[c])
    {
      TellsStays(space, evs, st.rows, c, st.receipts[c], ev, st'.rows);
    }
    if ev.ToolCall? && IsTerminal(ev.status) && ev.call !in st.receipts {
      assert Init(evs + [ev]) == evs;
      TellsNow(space, evs + [ev], st, st', got);
    }
    forall c ensures c in st'.receipts <==> Settled(evs + [ev], c).Some? {
      SettledNext(evs, ev, c);
    }
  }

  /** After any stream: a call has a receipt exactly when a terminal event of it has come, and the receipt
      names the outcome row of the first one and the narration of its turn, which stands before it. */
  lemma {:induction false} ReceiptsTell(space: char -> bool, evs: seq<Event>)
    ensures AllTell(space, evs, After(space, evs))
  {
    if evs == [] {
    } else {
      ReceiptsTell(space, Init(evs));
      assert Init(evs) + [Last(evs)] == evs;
      var st := After(space, Init(evs));
      StepTells(space, Init(evs), Last(evs), st, After(space, evs), Emit(space, st, Last(evs)).1);
    }
  }

  predicate IsOutcome(rows: seq<Row>, i: nat, c: string) {
    i < |rows| && rows[i].body.Outcome? && rows[i].body.call == c
  }

  lemma LedgerRows(st: State, c: string)
    requires Ledger(st)
    ensures c in st.receipts <==> exists i: nat :: IsOutcome(st.rows, i, c)
    ensures forall i: nat, j: nat :: IsOutcome(st.rows, i, c) && IsOutcome(st.rows, j, c) ==> i == j
  {
    if c in st.receipts {
      assert IsOutcome(st.rows, st.receipts[c].outcome, c);
    }
  }

  /** A call has an outcome row exactly when a terminal event of it has come, and never two. */
  lemma OneRowPerCall(space: char -> bool, evs: seq<Event>, st: State, c: string)
    requires st == After(space, evs)
    ensures Settled(evs, c).Some? <==> exists i: nat :: IsOutcome(st.rows, i, c)
    ensures forall i: nat, j: nat :: IsOutcome(st.rows, i, c) && IsOutcome(st.rows, j, c) ==> i == j
  {
    LedgerKept(space, evs);
    LedgerRows(st, c);
    assert c in st.receipts <==> Settled(evs, c).Some? by {
      ReceiptsTell(space, evs);
    }
  }

  lemma {:induction false} ReceiptsStay(space: char -> bool, evs: seq<Event>, more: seq<Event>, c: string)
    requires c in After(space, evs).receipts
    ensures c in After(space, evs + more).receipts &&
            After(space, evs + more).receipts[c] == After(space, evs).receipts[c]
    decreases |more|
  {
    if more == [] {
      assert evs + more == evs;
    } else {
      ReceiptsStay(space, evs, Init(more), c);
      var all := evs + more;
      assert Init(all) == evs + Init(more) && Last(all) == Last(more);
      LedgerKept(space, Init(all));
      var st := After(space, Init(all));
      EmitReceipt(space, st, Last(all), After(space, all), Emit(space, st, Last(all)).1);
    }
  }

  /** The first terminal event of a call hands back a receipt, and every later event of that call, whatever
      came in between, hands back the same one; no other event of the stream hands back any. */
  lemma RepeatsReturnTheReceipt(space: char -> bool, evs: seq<Event>, ev: Event, more: seq<Event>, again: Event)
    requires ev.ToolCall? && again.ToolCall? && again.call == ev.call
    ensures var got := Emit(space, After(space, evs), ev).1;
            && (got.Some? <==> Settled(evs + [ev], ev.call).Some?)
            && (got.Some? ==> Emit(space, After(space, evs + [ev] + more), again).1 == got)
  {
    var st := After(space, evs);
    var got := Emit(space, st, ev).1;
    assert Init(evs + [ev]) == evs && Last(evs + [ev]) == ev;
    LedgerKept(space, evs);
    ReceiptsTell(space, evs);
    EmitReceipt(space, st, ev, After(space, evs + [ev]), got);
    if got.Some? {
      ReceiptsStay(space, evs + [ev], more, ev.call);
      var later := After(space, evs + [ev] + more);
      LedgerKept(space, evs + [ev] + more);
      EmitReceipt(space, later, again, Emit(space, later, again).0, Emit(space, later, again).1);
    }
  }
}
