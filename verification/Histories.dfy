/** The whole history a run leaves, in order, told from the event stream alone. */
module Histories {
  import opened Emitter
  import opened EmitterRuns
  import opened Receipts

  /** What a row says, and in whose name. */
  datatype Line = Line(scope: Scope, body: Body)

  function Lines(rows: seq<Row>): seq<Line> {
    seq(|rows|, i requires 0 <= i < |rows| => Line(rows[i].scope, rows[i].body))
  }

  /** The thinking received in a scope since its last token or tool event. */
  function Unthought(evs: seq<Event>, scope: Scope): string {
    if evs == [] then ""
    else
      var ev := Last(evs);
      if ev.scope != scope then Unthought(Init(evs), scope)
      else if ev.Thinking? then Unthought(Init(evs), scope) + ev.text
      else if ev.Token? || ev.ToolCall? then ""
      else Unthought(Init(evs), scope)
  }

  /** A call that neither waits for an approval nor runs has come to its end. */
  predicate IsEnd(status: Status) {
    status != PendingApproval && status != Running
  }

  function IfSo(cond: bool, line: Line): seq<Line> {
    if cond then [line] else []
  }

  /** The lines the last event of a stream adds: a token ends the thinking before it; a tool event ends thinking
      and narration, and the first terminal event of a call adds its outcome. */
  ghost function AddedBy(space: char -> bool, evs: seq<Event>): seq<Line>
    requires evs != []
  {
    var before, ev := Init(evs), Last(evs);
    var thought, narration := Unthought(before, ev.scope), Unsaved(before, ev.scope);
    match ev
    case Token(scope, _) => IfSo(thought != "", Line(scope, Thought(thought)))
    case ToolCall(scope, call, status) =>
      IfSo(thought != "", Line(scope, Thought(thought)))
      + IfSo(!IsBlank(space, narration), Line(scope, Narration(narration)))
      + IfSo(IsEnd(status) && Settled(before, call).None?, Line(scope, Outcome(call, status)))
    case _ => []
  }

  ghost function History(space: char -> bool, evs: seq<Event>): seq<Line> {
    if evs == [] then [] else History(space, Init(evs)) + AddedBy(space, evs)
  }

  // ---------- the three writes ----------

  lemma ThoughtAdds(st: State, scope: Scope, thought: string, st': State)
    requires thought == Join(Pending(st.thinking, scope)) && st' == FlushThinking(st, scope)
    ensures Lines(st'.rows) == Lines(st.rows) + IfSo(thought != "", Line(scope, Thought(thought)))
    ensures st'.tokens == st.tokens && st'.seen == st.seen && st'.receipts == st.receipts
    ensures st'.awaiting == st.awaiting
    ensures forall sc :: Join(Pending(st'.thinking, sc)) == if sc == scope then "" else Join(Pending(st.thinking, sc))
  {
  }

  lemma NarrationAdds(space: char -> bool, st: State, scope: Scope, narration: string, st': State)
    requires narration == Join(Pending(st.tokens, scope)) && st' == FlushTokens(space, st, scope)
    ensures Lines(st'.rows) == Lines(st.rows) + IfSo(!IsBlank(space, narration), Line(scope, Narration(narration)))
    ensures st'.thinking == st.thinking && st'.seen == st.seen && st'.receipts == st.receipts
    ensures st'.awaiting == st.awaiting
  {
  }

  lemma OutcomeAdds(st: State, ev: Event, st': State)
    requires ev.ToolCall? && st.seen == st.receipts.Keys && st' == RecordCall(st, ev).0
    ensures Lines(st'.rows) ==
            Lines(st.rows)
            + IfSo(IsEnd(ev.status) && ev.call !in st.receipts, Line(ev.scope, Outcome(ev.call, ev.status)))
    ensures st'.thinking == st.thinking
    ensures st'.awaiting <==> st.awaiting || (ev.status == PendingApproval && ev.call !in st.receipts)
  {
  }

  // ---------- one event ----------

  /** The state carries the history and the thinking not yet written of every scope. */
  ghost predicate Carries(space: char -> bool, st: State, evs: seq<Event>) {
    && Lines(st.rows) == History(space, evs)
    && forall sc :: Join(Pending(st.thinking, sc)) == Unthought(evs, sc)
  }

  lemma OpenCarries(st: State, scope: Scope)
    ensures Open(st, scope).rows == st.rows && Open(st, scope).receipts == st.receipts
    ensures Open(st, scope).awaiting == st.awaiting && Open(st, scope).seen == st.seen
    ensures forall sc :: Pending(Open(st, scope).thinking, sc) == Pending(st.thinking, sc)
    ensures forall sc :: Pending(Open(st, scope).tokens, sc) == Pending(st.tokens, sc)
  {
  }

  lemma ThinkingCarries(space: char -> bool, st: State, evs: seq<Event>, ev: Event, st': State)
    requires Carries(space, st, evs) && ev.Thinking? && st' == Emit(space, st, ev).0
    ensures Carries(space, st', evs + [ev])
  {
    var all, open := evs + [ev], Open(st, ev.scope);
    OpenCarries(st, ev.scope);
    assert Init(all) == evs && Last(all) == ev;
    JoinSnoc(open.thinking[ev.scope], ev.text);
    assert History(space, all) == History(space, evs) + [];
  }

  lemma TokenCarries(space: char -> bool, st: State, evs: seq<Event>, ev: Event, st': State)
    requires Carries(space, st, evs) && ev.Token? && st' == Emit(space, st, ev).0
    ensures Carries(space, st', evs + [ev])
  {
    var all, open := evs + [ev], Open(st, ev.scope);
    OpenCarries(st, ev.scope);
    assert Init(all) == evs && Last(all) == ev;
    ThoughtAdds(open.(tokens := open.tokens[ev.scope := open.tokens[ev.scope] + [ev.text]]), ev.scope,
                Unthought(evs, ev.scope), st');
  }

  /** The lines of a tool event, given what is buffered and whether its call is new. */
  function ToolLines(space: char -> bool, ev: Event, thought: string, narration: string, isNew: bool): seq<Line>
    requires ev.ToolCall?
  {
    IfSo(thought != "", Line(ev.scope, Thought(thought)))
    + IfSo(!IsBlank(space, narration), Line(ev.scope, Narration(narration)))
    + IfSo(IsEnd(ev.status) && isNew, Line(ev.scope, Outcome(ev.call, ev.status)))
  }

  lemma Regroup(a: seq<Line>, b: seq<Line>, c: seq<Line>, d: seq<Line>)
    ensures a + b + c + d == a + (b + c + d)
  {
  }

  lemma ToolWrites(space: char -> bool, st: State, ev: Event, open: State, flushed: State, saved: State, st': State)
    requires ev.ToolCall? && st.seen == st.receipts.Keys && open == Open(st, ev.scope)
    requires flushed == FlushThinking(open, ev.scope) && saved == FlushTokens(space, flushed, ev.scope)
    requires st' == RecordCall(saved, ev).0
    ensures var thought, narration := Join(Pending(st.thinking, ev.scope)), Join(Pending(st.tokens, ev.scope));
            Lines(st'.rows) ==
            Lines(st.rows) + ToolLines(space, ev, thought, narration, ev.call !in st.receipts)
    ensures st'.awaiting <==> st.awaiting || (ev.status == PendingApproval && ev.call !in st.receipts)
  {
    var thought, narration := Join(Pending(st.thinking, ev.scope)), Join(Pending(st.tokens, ev.scope));
    OpenCarries(st, ev.scope);
    ThoughtAdds(open, ev.scope, thought, flushed);
    NarrationAdds(space, flushed, ev.scope, narration, saved);
    OutcomeAdds(saved, ev, st');
    Regroup(Lines(st.rows), IfSo(thought != "", Line(ev.scope, Thought(thought))),
            IfSo(!IsBlank(space, narration), Line(ev.scope, Narration(narration))),
            IfSo(IsEnd(ev.status) && ev.call !in st.receipts, Line(ev.scope, Outcome(ev.call, ev.status))));
  }

  lemma ToolClears(space: char -> bool, st: State, ev: Event, open: State, flushed: State, saved: State, st': State)
    requires ev.ToolCall? && st.seen == st.receipts.Keys && open == Open(st, ev.scope)
    requires flushed == FlushThinking(open, ev.scope) && saved == FlushTokens(space, flushed, ev.scope)
    requires st' == RecordCall(saved, ev).0
    ensures forall sc ::
              Join(Pending(st'.thinking, sc)) == if sc == ev.scope then "" else Join(Pending(st.thinking, sc))
  {
    OpenCarries(st, ev.scope);
    ThoughtAdds(open, ev.scope, Join(Pending(st.thinking, ev.scope)), flushed);
    NarrationAdds(space, flushed, ev.scope, Join(Pending(flushed.tokens, ev.scope)), saved);
    OutcomeAdds(saved, ev, st');
  }

  lemma ToolCarries(space: char -> bool, st: State, evs: seq<Event>, ev: Event, st': State)
    requires Carries(space, st, evs) && ev.ToolCall? && st.seen == st.receipts.Keys && st' == Emit(space, st, ev).0
    requires Join(Pending(st.tokens, ev.scope)) == Unsaved(evs, ev.scope)
    requires ev.call in st.receipts <==> Settled(evs, ev.call).Some?
    ensures Carries(space, st', evs + [ev])
  {
    var open := Open(st, ev.scope);
    var flushed := FlushThinking(open, ev.scope);
    var saved := FlushTokens(space, flushed, ev.scope);
    ToolWrites(space, st, ev, open, flushed, saved, st');
    ToolClears(space, st, ev, open, flushed, saved, st');
    ToolTold(space, evs, ev);
  }

  /** The history of a stream that ends in a tool event. */
  lemma ToolTold(space: char -> bool, evs: seq<Event>, ev: Event)
    requires ev.ToolCall?
    ensures History(space, evs + [ev]) ==
            History(space, evs) + ToolLines(space, ev, Unthought(evs, ev.scope), Unsaved(evs, ev.scope),
                                            Settled(evs, ev.call).None?)
    ensures forall sc :: Unthought(evs + [ev], sc) == if sc == ev.scope then "" else Unthought(evs, sc)
  {
    var all := evs + [ev];
    assert Init(all) == evs && Last(all) == ev;
  }

  lemma OtherCarries(space: char -> bool, st: State, evs: seq<Event>, ev: Event, st': State)
    requires Carries(space, st, evs) && !ev.Thinking? && !ev.Token? && !ev.ToolCall? && st' == Emit(space, st, ev).0
    ensures Carries(space, st', evs + [ev])
  {
    var all := evs + [ev];
    OpenCarries(st, ev.scope);
    assert Init(all) == evs && Last(all) == ev;
    assert History(space, all) == History(space, evs) + [];
  }

  lemma {:induction false} CarriesAll(space: char -> bool, evs: seq<Event>)
    ensures Carries(space, After(space, evs), evs)
  {
    if evs != [] {
      var before, ev := Init(evs), Last(evs);
      var st, st' := After(space, before), After(space, evs);
      assert evs == before + [ev];
      CarriesAll(space, before);
      if ev.Thinking? {
        ThinkingCarries(space, st, before, ev, st');
      } else if ev.Token? {
        TokenCarries(space, st, before, ev, st');
      } else if ev.ToolCall? {
        LedgerKept(space, before);
        ReceiptsTell(space, before);
        NarrationIsKept(space, before, ev.scope);
        ToolCarries(space, st, before, ev, st');
      } else {
        OtherCarries(space, st, before, ev, st');
      }
    }
  }

  /** For every stream: the rows, read in order, are exactly the thinking that a token or tool event ended, the
      non-blank narration that a tool event ended, and the first end of every tool call, each in the scope it
      came in and in the order of the events that ended it. */
  lemma HistoryIsTold(space: char -> bool, evs: seq<Event>)
    ensures Lines(After(space, evs).rows) == History(space, evs)
  {
    CarriesAll(space, evs);
  }

  /** The run waits for an approval exactly if some call has asked for one before it was settled. */
  lemma {:induction false} AwaitsIff(space: char -> bool, evs: seq<Event>)
    ensures After(space, evs).awaiting <==>
            exists i: nat :: i < |evs| && AsksFirst(evs, i)
  {
    if evs != [] {
      var before, ev := Init(evs), Last(evs);
      AwaitsIff(space, before);
      assert evs[..|before|] == before;
      var st := After(space, before);
      if ev.ToolCall? {
        LedgerKept(space, before);
        ReceiptsTell(space, before);
        var open := Open(st, ev.scope);
        var flushed := FlushThinking(open, ev.scope);
        ToolWrites(space, st, ev, open, flushed, FlushTokens(space, flushed, ev.scope), After(space, evs));
        assert AsksFirst(evs, |before|) <==> ev.status == PendingApproval && ev.call !in st.receipts;
      } else {
        OtherKeepsAwaiting(space, st, ev, After(space, evs));
      }
      AsksNext(evs);
    }
  }

  lemma AsksNext(evs: seq<Event>)
    requires evs != []
    ensures (exists i: nat :: i < |evs| && AsksFirst(evs, i)) <==>
            (exists i: nat :: i < |Init(evs)| && AsksFirst(Init(evs), i)) || AsksFirst(evs, |evs| - 1)
  {
    var before := Init(evs);
    forall i: nat | i < |before| ensures AsksFirst(evs, i) <==> AsksFirst(before, i) {
      assert evs[..i] == before[..i];
    }
    if i: nat :| i < |evs| && AsksFirst(evs, i) {
      if i < |before| { assert AsksFirst(before, i); }
    }
  }

  lemma OtherKeepsAwaiting(space: char -> bool, st: State, ev: Event, st': State)
    requires !ev.ToolCall? && st' == Emit(space, st, ev).0
    ensures st'.awaiting == st.awaiting
  {
  }

  ghost predicate AsksFirst(evs: seq<Event>, i: nat)
    requires i < |evs|
  {
    evs[i].ToolCall? && evs[i].status == PendingApproval && Settled(evs[..i], evs[i].call).None?
  }
}
