/** The event buffer of a running agent, and the reconnectable streams that read it. */
module RunEvents {
  import opened Wrappers

  datatype Future = Pending | Resolved(seqNo: nat) | TimedOut

  /** A reader that had to wait: the number it gave, and the newest number at that moment. */
  datatype Call = Call(after: int, newest: nat)

  class RunContext<T> {
    var events: seq<(nat, T)>
    var seqNo: nat
    var waiters: seq<nat>
    var futures: seq<Future>
    ghost var calls: seq<Call>

    /** Events are numbered 1, 2, 3, ...; every reader still waiting is on the list, has seen no event since its
        call, and a woken one was woken by the first event after it. */
    ghost predicate Valid()
      reads this
    {
      && seqNo == |events| && (forall i :: 0 <= i < |events| ==> events[i].0 == i + 1)
      && (forall i :: 0 <= i < |waiters| ==> waiters[i] < |futures|)
      && (forall f :: 0 <= f < |futures| && futures[f] == Pending ==> f in waiters)
      && |calls| == |futures|
      && (forall f :: 0 <= f < |futures| && futures[f] == Pending ==> calls[f].newest == seqNo)
      && (forall f :: 0 <= f < |futures| && futures[f].Resolved? ==> futures[f].seqNo == calls[f].newest + 1)
    }

    constructor ()
      ensures Valid() && events == [] && futures == [] && waiters == []
    {
      events, seqNo, waiters, futures, calls := [], 0, [], [], [];
    }

    /** The event gets the next number, and every reader waiting is woken with it: none is forgotten. */
    method AppendEvent(event: T) returns (number: nat)
      requires Valid()
      modifies this
      ensures Valid() && events == old(events) + [(number, event)] && number == old(seqNo) + 1
      ensures waiters == [] && |futures| == |old(futures)| && calls == old(calls)
      ensures forall f :: 0 <= f < |futures| ==>
                futures[f] == if old(futures)[f] == Pending then Resolved(number) else old(futures)[f]
    {
      seqNo := seqNo + 1;
      number := seqNo;
      events := events + [(number, event)];
      for i := 0 to |waiters|
        invariant waiters == old(waiters) && events == old(events) + [(number, event)] && seqNo == number
        invariant calls == old(calls)
        invariant |futures| == |old(futures)|
        invariant forall f :: 0 <= f < |futures| ==>
                    futures[f] == if old(futures)[f] == Pending && f in waiters[..i] then Resolved(number)
                                  else old(futures)[f]
      {
        assert waiters[..i + 1] == waiters[..i] + [waiters[i]];
        if futures[waiters[i]] == Pending {
          futures := futures[waiters[i] := Resolved(number)];
        }
      }
      assert waiters[..|waiters|] == waiters;
      waiters := [];
    }

    /** The newest number if it is beyond `after`, else a place among the waiters. */
    method WaitForEvent(after: int) returns (known: Option<nat>, future: nat)
      requires Valid()
      modifies this`waiters, this`futures, this`calls
      ensures Valid()
      ensures known == if seqNo > after && seqNo > 0 then Some(seqNo) else None
      ensures known.Some? ==> futures == old(futures) && waiters == old(waiters) && calls == old(calls)
      ensures known.None? ==>
              future == |old(futures)| && futures == old(futures) + [Pending] && waiters == old(waiters) + [future]
      ensures known.None? ==> calls == old(calls) + [Call(after, seqNo)]
    {
      var i: nat := |events|;
      while i > 0
        invariant i <= |events| && forall j :: i <= j < |events| ==> events[j].0 <= after
      {
        i := i - 1;
        if events[i].0 > after {
          return Some(events[i].0), 0;
        }
      }
      assert |events| > 0 ==> events[|events| - 1].0 <= after;
      future := |futures|;
      futures := futures + [Pending];
      waiters := waiters + [future];
      calls := calls + [Call(after, seqNo)];
      return None, future;
    }

    /** A timeout cancels the reader's future, which then counts as done: the reader stays listed until
        the next event clears the list. */
    method TimeOut(future: nat) returns (number: Option<nat>)
      requires Valid() && future < |futures|
      modifies this`waiters, this`futures
      ensures Valid() && waiters == old(waiters)
      ensures number == if old(futures)[future].Resolved? then Some(old(futures)[future].seqNo) else None
      ensures futures == if old(futures)[future] == Pending then old(futures)[future := TimedOut] else old(futures)
    {
      if futures[future].Resolved? {
        return Some(futures[future].seqNo);
      }
      futures := futures[future := TimedOut];
      return None;
    }
  }

  /** The promise of a wake-up: the number is beyond the reader's own exactly when the reader was not ahead of
      the buffer at its call. */
  lemma WokenBeyondIff<T>(ctx: RunContext<T>, future: nat)
    requires ctx.Valid() && future < |ctx.futures| && ctx.futures[future].Resolved?
    ensures ctx.futures[future].seqNo > ctx.calls[future].after <==>
            ctx.calls[future].after <= ctx.calls[future].newest
  {
  }

  // ---------- one stream beside the run ----------

  /** Where the stream stands: replaying at position i, between waits, waiting, sending those of the events
      from position i on that are due up to `upTo`, or closed: by itself when `all` events were there, or
      because the client went away. */
  datatype Phase = Replay(i: nat) | Live | Waiting | Batch(i: nat, upTo: nat) | Closed(all: Option<nat>)

  /** n events are buffered; `cursor` is the stream's own number, `got` the numbers sent so far. */
  datatype Stream = Stream(n: nat, cursor: int, phase: Phase, got: seq<nat>, settled: bool, done: bool)

  /** Append(true) is the event that ends the run's status; the task itself ends later, with RunEnds. */
  datatype Event = Append(settles: bool) | Go | Expire | RunEnds | Disconnect

  function Connect(n: nat, after: int, settled: bool, done: bool): Stream {
    Stream(n, after, Replay(0), [], settled, done)
  }

  predicate CanHappen(s: Stream, ev: Event) {
    match ev
    case Append(_) => !s.done
    case Expire => s.phase == Waiting
    case RunEnds => true
    case Go => s.phase != Waiting && !s.phase.Closed?
    case Disconnect => s.phase == Live
  }

  /** The stream's own next move. */
  function Advance(s: Stream): Stream
    requires s.phase != Waiting && !s.phase.Closed?
  {
    match s.phase
    case Replay(i) =>
      (if i < s.n then
         if i + 1 > s.cursor then s.(cursor := i + 1, phase := Replay(i + 1), got := s.got + [i + 1])
         else s.(phase := Replay(i + 1))
       else if s.done || s.settled then s.(phase := Closed(Some(s.n)))
       else s.(phase := Live))
    case Live =>
      (if s.done && s.cursor >= s.n then s.(phase := Closed(Some(s.n)))
       else if s.n > s.cursor && s.n > 0 then s.(phase := Batch(0, s.n))
       else s.(phase := Waiting))
    case Batch(i, upTo) =>
      if i < s.n then
        s.(phase := Batch(i + 1, upTo), got := if i + 1 > s.cursor && i + 1 <= upTo then s.got + [i + 1] else s.got)
      else s.(cursor := upTo, phase := Live)
  }

  function Step(s: Stream, ev: Event): Stream
    requires CanHappen(s, ev)
  {
    match ev
    case Append(settles) =>
      s.(n := s.n + 1, settled := s.settled || settles,
         phase := if s.phase == Waiting then Batch(0, s.n + 1) else s.phase)
    case Go => Advance(s)
    case Expire => s.(phase := Live)
    case RunEnds => s.(done := true)
    case Disconnect => s.(phase := Closed(None))
  }

  ghost predicate CanRun(s: Stream, events: seq<Event>)
    decreases |events|
  {
    events == [] || (CanHappen(s, events[0]) && CanRun(Step(s, events[0]), events[1..]))
  }

  ghost function Run(s: Stream, events: seq<Event>): Stream
    requires CanRun(s, events)
    decreases |events|
  {
    if events == [] then s else Run(Step(s, events[0]), events[1..])
  }

  function Max(a: int, b: int): int {
    if a > b then a else b
  }

  function Min(a: int, b: int): int {
    if a < b then a else b
  }

  /** The numbers a + 1 .. a + k. */
  function Range(a: nat, k: nat): seq<nat> {
    seq(k, i requires 0 <= i => a + 1 + i)
  }

  /** What has been sent is a + 1, a + 2, ... up to where the stream stands. */
  predicate InOrder(s: Stream, a: nat) {
    var last := a + |s.got|;
    && s.got == Range(a, |s.got|) && last <= s.n
    && match s.phase
       case Replay(i) => i <= s.n && last == Max(a, i) && last == Max(s.cursor, 0)
       case Batch(i, upTo) => i <= s.n && Max(s.cursor, 0) < upTo <= s.n && last == Max(Max(s.cursor, 0), Min(i, upTo))
       case Closed(all) => all.Some? ==> last == all.value
       case Waiting => last == Max(s.cursor, 0) && last == s.n
       case Live => last == Max(s.cursor, 0)
  }

  lemma RangeNext(a: nat, k: nat)
    ensures Range(a, k) + [a + k + 1] == Range(a, k + 1)
  {
  }

  lemma AdvanceInOrder(s: Stream, a: nat, s': Stream)
    requires InOrder(s, a) && s.phase != Waiting && !s.phase.Closed? && s' == Advance(s)
    ensures InOrder(s', a)
  {
    match s.phase
    case Replay(i) => ReplayInOrder(s, a, i, s');
    case Batch(i, upTo) => BatchInOrder(s, a, i, upTo, s');
    case Live =>
  }

  lemma ReplayInOrder(s: Stream, a: nat, i: nat, s': Stream)
    requires InOrder(s, a) && s.phase == Replay(i) && s' == Advance(s)
    ensures InOrder(s', a)
  {
    RangeNext(a, |s.got|);
  }

  lemma BatchInOrder(s: Stream, a: nat, i: nat, upTo: nat, s': Stream)
    requires InOrder(s, a) && s.phase == Batch(i, upTo) && s' == Advance(s)
    ensures InOrder(s', a)
  {
    RangeNext(a, |s.got|);
  }

  lemma StepInOrder(s: Stream, a: nat, ev: Event)
    requires InOrder(s, a) && CanHappen(s, ev)
    ensures InOrder(Step(s, ev), a)
  {
    if ev.Go? {
      AdvanceInOrder(s, a, Advance(s));
    }
  }

  lemma {:induction false} RunInOrder(s: Stream, a: nat, events: seq<Event>)
    requires InOrder(s, a) && CanRun(s, events)
    ensures InOrder(Run(s, events), a)
    decreases |events|
  {
    if events != [] {
      StepInOrder(s, a, events[0]);
      RunInOrder(Step(s, events[0]), a, events[1..]);
    }
  }

  /** A client that is not ahead of the buffer gets the events after its last one in order, none left out and
      none twice, however appending, waking, timing out and sending interleave; and when the stream closes by
      itself, and whenever it waits, it has sent everything buffered at that moment. */
  lemma StreamSendsAll(n: nat, after: int, settled: bool, done: bool, events: seq<Event>)
    requires after <= n && CanRun(Connect(n, after, settled, done), events)
    ensures var s, a := Run(Connect(n, after, settled, done), events), Max(after, 0);
            && s.got == Range(a, |s.got|) && a + |s.got| <= s.n
            && (s.phase.Closed? && s.phase.all.Some? ==> a + |s.got| == s.phase.all.value)
            && (s.phase == Waiting ==> a + |s.got| == s.n)
  {
    RunInOrder(Connect(n, after, settled, done), Max(after, 0), events);
  }

  /** A client connects, breaks off at any moment of its first stream, and connects again, whenever it likes, with
      the last number it has: the two streams together send the numbers after its first one in order, without a
      gap and without a repeat, however both runs interleave. */
  lemma ReconnectContinues(n: nat, after: int, settled: bool, done: bool, e1: seq<Event>,
                           n2: nat, settled2: bool, done2: bool, e2: seq<Event>)
    requires after <= n && CanRun(Connect(n, after, settled, done), e1)
    requires n2 >= Run(Connect(n, after, settled, done), e1).n
    requires var last := Max(after, 0) + |Run(Connect(n, after, settled, done), e1).got|;
             CanRun(Connect(n2, last, settled2, done2), e2)
    ensures var a := Max(after, 0);
            var first := Run(Connect(n, after, settled, done), e1);
            var second := Run(Connect(n2, a + |first.got|, settled2, done2), e2);
            && first.got + second.got == Range(a, |first.got| + |second.got|)
            && (first.got != [] ==> first.got[|first.got| - 1] == a + |first.got|)
            && (second.phase.Closed? && second.phase.all.Some? ==>
                  a + |first.got| + |second.got| == second.phase.all.value >= n2)
  {
    var a := Max(after, 0);
    var first := Run(Connect(n, after, settled, done), e1);
    StreamSendsAll(n, after, settled, done, e1);
    StreamSendsAll(n2, a + |first.got|, settled2, done2, e2);
    ClosesLate(Connect(n2, a + |first.got|, settled2, done2), n2, e2);
    RangesJoin(a, |first.got|, |Run(Connect(n2, a + |first.got|, settled2, done2), e2).got|);
  }

  lemma RangesJoin(a: nat, j: nat, k: nat)
    ensures Range(a, j) + Range(a + j, k) == Range(a, j + k)
  {
  }

  /** A stream that closes by itself has seen everything that was buffered when it connected. */
  lemma {:induction false} ClosesLate(s: Stream, n: nat, events: seq<Event>)
    requires CanRun(s, events) && s.n >= n && (s.phase.Closed? && s.phase.all.Some? ==> s.phase.all.value >= n)
    ensures var s' := Run(s, events); s'.phase.Closed? && s'.phase.all.Some? ==> s'.phase.all.value >= n
    decreases |events|
  {
    if events != [] { ClosesLate(Step(s, events[0]), n, events[1..]); }
  }

  // ---------- a client ahead of the buffer ----------

  /** A client that was ahead of n buffered events has been sent nothing, and its stream still stands at its
      own number; a batch it was woken for ends at or below that. */
  predicate IsUnsent(s: Stream, n: nat, after: nat) {
    && s.got == [] && n <= s.n
    && match s.phase
       case Replay(i) => s.cursor == after && i <= s.n && i <= after
       case Batch(i, upTo) => s.cursor == after && i <= s.n && n < upTo <= s.n && upTo <= after
       case Closed(all) => all.Some? ==> all.value <= after
       case Waiting => s.cursor == after && s.n <= after
       case Live => s.cursor == after
  }

  /** The stream has found its place: it sends what comes after m. */
  predicate SendsFrom(s: Stream, n: nat, after: nat, m: nat) {
    n < m <= after && InOrder(s, m)
  }

  ghost predicate IsAhead(s: Stream, n: nat, after: nat) {
    IsUnsent(s, n, after) || exists m: nat :: SendsFrom(s, n, after, m)
  }

  lemma ReplayAhead(s: Stream, n: nat, after: nat, s': Stream)
    requires after > n && IsUnsent(s, n, after) && s.phase.Replay? && s' == Advance(s)
    ensures IsAhead(s', n, after)
  {
    if s.phase.i < s.n && s.phase.i + 1 > after {
      assert s'.got == Range(after, 1);
      assert SendsFrom(s', n, after, after);
    }
  }

  lemma LiveAhead(s: Stream, n: nat, after: nat, s': Stream)
    requires after > n && IsUnsent(s, n, after) && s.phase == Live && s' == Advance(s)
    ensures IsAhead(s', n, after)
  {
    if s.n > after {
      assert s'.got == Range(after, 0) || s'.phase.Closed?;
      assert SendsFrom(s', n, after, after);
    }
  }

  lemma BatchAhead(s: Stream, n: nat, after: nat, s': Stream)
    requires after > n && IsUnsent(s, n, after) && s.phase.Batch? && s' == Advance(s)
    ensures IsAhead(s', n, after)
  {
    if s.phase.i >= s.n {
      assert s'.got == Range(s.phase.upTo, 0);
      assert SendsFrom(s', n, after, s.phase.upTo);
    }
  }

  lemma AppendAhead(s: Stream, n: nat, after: nat, settles: bool, s': Stream)
    requires after > n && IsUnsent(s, n, after) && !s.done && s' == Step(s, Append(settles))
    ensures IsAhead(s', n, after)
  {
    if s.phase == Waiting && s.n + 1 > after {
      assert s'.got == Range(after, 0);
      assert SendsFrom(s', n, after, after);
    }
  }

  lemma UnsentStep(s: Stream, n: nat, after: nat, ev: Event, s': Stream)
    requires after > n && IsUnsent(s, n, after) && CanHappen(s, ev) && s' == Step(s, ev)
    ensures IsAhead(s', n, after)
  {
    match ev
    case Go =>
      if s.phase.Replay? {
        ReplayAhead(s, n, after, s');
      } else if s.phase.Batch? {
        BatchAhead(s, n, after, s');
      } else {
        LiveAhead(s, n, after, s');
      }
    case Append(settles) => AppendAhead(s, n, after, settles, s');
    case _ =>
  }

  lemma StepAhead(s: Stream, n: nat, after: nat, ev: Event, s': Stream)
    requires after > n && IsAhead(s, n, after) && CanHappen(s, ev) && s' == Step(s, ev)
    ensures IsAhead(s', n, after)
  {
    if IsUnsent(s, n, after) {
      UnsentStep(s, n, after, ev, s');
    } else {
      var m: nat :| SendsFrom(s, n, after, m);
      StepInOrder(s, m, ev);
      assert SendsFrom(s', n, after, m);
    }
  }

  lemma {:induction false} RunAhead(s: Stream, n: nat, after: nat, events: seq<Event>)
    requires after > n && IsAhead(s, n, after) && CanRun(s, events)
    ensures IsAhead(Run(s, events), n, after)
    decreases |events|
  {
    if events != [] {
      StepAhead(s, n, after, events[0], Step(s, events[0]));
      RunAhead(Step(s, events[0]), n, after, events[1..]);
    }
  }

  /** What a client ahead of the buffer gets, under every interleaving: numbers in order, without a gap, from some
      m that was not buffered at its connection and that it claims to have. It may be sent numbers it has, but
      never loses one beyond its own: when the stream closes by itself or waits, all of those have been sent. */
  lemma AheadGets(n: nat, after: int, settled: bool, done: bool, events: seq<Event>) returns (m: nat)
    requires after > n && CanRun(Connect(n, after, settled, done), events)
    ensures var s := Run(Connect(n, after, settled, done), events);
            && n < m <= after && s.got == Range(m, |s.got|) && (s.got != [] ==> m + |s.got| <= s.n)
            && (s.phase.Closed? && s.phase.all.Some? ==> m + |s.got| >= s.phase.all.value)
            && (s.phase == Waiting ==> m + |s.got| >= s.n)
  {
    var s := Run(Connect(n, after, settled, done), events);
    RunAhead(Connect(n, after, settled, done), n, after, events);
    if IsUnsent(s, n, after) {
      m := after;
    } else {
      m :| SendsFrom(s, n, after, m);
    }
  }

  /** A stream that never gets beyond its replay sends in order from the client's own number. */
  predicate IsReplaying(s: Stream, after: nat) {
    && (s.settled || s.done) && s.got == Range(after, |s.got|)
    && match s.phase
       case Replay(i) => s.cursor == after + |s.got| == Max(after, i)
       case Closed(_) => true
       case _ => false
  }

  lemma {:induction false} RunReplaying(s: Stream, after: nat, events: seq<Event>)
    requires IsReplaying(s, after) && CanRun(s, events)
    ensures IsReplaying(Run(s, events), after)
    decreases |events|
  {
    if events != [] {
      RangeNext(after, |s.got|);
      RunReplaying(Step(s, events[0]), after, events[1..]);
    }
  }

  function Gos(k: nat): seq<Event> {
    seq(k, _ => Go)
  }

  lemma {:induction false} RunOn(s: Stream, first: seq<Event>, second: seq<Event>)
    requires CanRun(s, first) && CanRun(Run(s, first), second)
    ensures CanRun(s, first + second) && Run(s, first + second) == Run(Run(s, first), second)
    decreases |first|
  {
    if first == [] {
      assert first + second == second;
    } else {
      assert (first + second)[1..] == first[1..] + second;
      RunOn(Step(s, first[0]), first[1..], second);
    }
  }

  /** Replaying sends nothing to a client that claims to have more. */
  lemma {:induction false} ReplaysNothing(s: Stream, i: nat)
    requires s.phase == Replay(i) && i <= s.n <= s.cursor && !s.done && !s.settled
    ensures CanRun(s, Gos(s.n - i + 1)) && Run(s, Gos(s.n - i + 1)) == s.(phase := Live)
    decreases s.n - i
  {
    assert Gos(s.n - i + 1)[1..] == Gos(s.n - i);
    if i < s.n {
      ReplaysNothing(Step(s, Go), i + 1);
    } else {
      assert Gos(0) == [];
    }
  }

  /** A batch sends the due events after position i. */
  lemma {:induction false} BatchRuns(s: Stream, i: nat, upTo: nat)
    requires s.phase == Batch(i, upTo) && i <= s.n == upTo && s.cursor >= upTo - 1
    ensures CanRun(s, Gos(s.n - i + 1))
    ensures Run(s, Gos(s.n - i + 1)) ==
            s.(cursor := upTo, phase := Live, got := if i < s.n && s.cursor < upTo then s.got + [upTo] else s.got)
    decreases s.n - i
  {
    assert Gos(s.n - i + 1)[1..] == Gos(s.n - i);
    if i < s.n {
      BatchRuns(Step(s, Go), i + 1, upTo);
    } else {
      assert Gos(0) == [];
    }
  }

  /** A live client two or more ahead is sent a number it has: it is woken for n + 1, which it claims to have, its
      cursor falls back there, and the next event but one is sent to it although it is not beyond its own. */
  lemma AheadRepeats(n: nat, after: int) returns (events: seq<Event>)
    requires after >= n + 2
    ensures CanRun(Connect(n, after, false, false), events)
    ensures Run(Connect(n, after, false, false), events).got == [n + 2] && n + 2 <= after
  {
    var s0 := Connect(n, after, false, false);
    ReplaysNothing(s0, 0);
    var live := s0.(phase := Live);
    var woken := Step(Step(live, Go), Append(false));
    assert CanRun(live, [Go, Append(false)]) && Run(live, [Go, Append(false)]) == woken by {
      TwoSteps(live, Go, Append(false));
    }
    BatchRuns(woken, 0, n + 1);
    var behind := woken.(cursor := n + 1, phase := Live);
    var due := Step(Step(behind, Append(false)), Go);
    TwoSteps(behind, Append(false), Go);
    BatchRuns(due, 0, n + 2);
    RunOn(behind, [Append(false), Go], Gos(n + 3));
    RunOn(woken, Gos(n + 2), [Append(false), Go] + Gos(n + 3));
    RunOn(live, [Go, Append(false)], Gos(n + 2) + ([Append(false), Go] + Gos(n + 3)));
    events := Gos(n + 1) + ([Go, Append(false)] + (Gos(n + 2) + ([Append(false), Go] + Gos(n + 3))));
    RunOn(s0, Gos(n + 1), [Go, Append(false)] + (Gos(n + 2) + ([Append(false), Go] + Gos(n + 3))));
  }

  lemma TwoSteps(s: Stream, a: Event, b: Event)
    requires CanHappen(s, a) && CanHappen(Step(s, a), b)
    ensures CanRun(s, [a, b]) && Run(s, [a, b]) == Step(Step(s, a), b)
  {
    assert [a, b][1..] == [b] && [b][1..] == [];
    var after := Step(Step(s, a), b);
    assert CanRun(after, []) && Run(after, []) == after;
    assert CanRun(Step(s, a), [b]) && Run(Step(s, a), [b]) == after;
  }

  // ---------- who is served in order ----------

  /** Whatever happens, the client is sent the numbers after its own, in order, without a gap or a repeat. */
  ghost predicate IsServed(n: nat, after: int, settled: bool, done: bool) {
    forall events :: CanRun(Connect(n, after, settled, done), events) ==>
      var got := Run(Connect(n, after, settled, done), events).got; got == Range(Max(after, 0), |got|)
  }

  lemma ServesOne(n: nat, after: int, settled: bool, done: bool, events: seq<Event>)
    requires CanRun(Connect(n, after, settled, done), events) && (after <= n + 1 || settled || done)
    ensures var got := Run(Connect(n, after, settled, done), events).got; got == Range(Max(after, 0), |got|)
  {
    if after <= n {
      StreamSendsAll(n, after, settled, done, events);
    } else if after == n + 1 {
      var m := AheadGets(n, after, settled, done, events);
    } else {
      RunReplaying(Connect(n, after, settled, done), after, events);
    }
  }

  /** A client is served in order exactly when it is at most one ahead of the buffer, or the run has settled or
      ended by the time it connects. */
  lemma ServedIff(n: nat, after: int, settled: bool, done: bool)
    ensures IsServed(n, after, settled, done) <==> after <= n + 1 || settled || done
  {
    if after <= n + 1 || settled || done {
      forall events | CanRun(Connect(n, after, settled, done), events)
        ensures var got := Run(Connect(n, after, settled, done), events).got; got == Range(Max(after, 0), |got|)
      {
        ServesOne(n, after, settled, done, events);
      }
    } else {
      var events := AheadRepeats(n, after);
      assert Range(after, 1)[0] == after + 1;
    }
  }

  // ---------- catching up ----------

  function Rank(phase: Phase): nat {
    match phase
    case Replay(_) => 3
    case Live => 2
    case Batch(_, _) => 1
    case _ => 0
  }

  function Left(s: Stream): nat {
    match s.phase
    case Replay(i) => if i < s.n then s.n - i else 0
    case Batch(i, _) => if i < s.n then s.n - i else 0
    case _ => 0
  }

  function Behind(s: Stream): nat {
    if Max(s.cursor, 0) < s.n then s.n - Max(s.cursor, 0) else 0
  }

  lemma GosNext(s: Stream, s1: Stream, k: nat)
    requires s.phase != Waiting && !s.phase.Closed? && s1 == Advance(s) && CanRun(s1, Gos(k))
    ensures CanRun(s, Gos(k + 1)) && Run(s, Gos(k + 1)) == Run(s1, Gos(k))
  {
    assert Gos(k + 1)[1..] == Gos(k);
  }

  /** Every move brings the stream closer to the end of the buffer, or to its next wait. */
  lemma AdvanceProgresses(s: Stream, a: nat, s': Stream)
    requires InOrder(s, a) && s.phase != Waiting && !s.phase.Closed? && s' == Advance(s)
    ensures s'.n == s.n && (s'.phase.Closed? ==> s'.phase == Closed(Some(s.n)))
    ensures Behind(s') < Behind(s) ||
            (Behind(s') == Behind(s) && Rank(s'.phase) < Rank(s.phase)) ||
            (Behind(s') == Behind(s) && Rank(s'.phase) == Rank(s.phase) && Left(s') < Left(s))
  {
  }

  /** A stream that is in order and left to itself sends everything buffered, and then waits or closes. */
  lemma {:induction false} StreamCatchesUp(s: Stream, a: nat) returns (moves: nat)
    requires InOrder(s, a) && !s.phase.Closed?
    ensures CanRun(s, Gos(moves))
    ensures var s' := Run(s, Gos(moves));
            && s'.n == s.n && s'.got == Range(a, s.n - a)
            && (s'.phase == Waiting || s'.phase == Closed(Some(s.n)))
    decreases Behind(s), Rank(s.phase), Left(s)
  {
    if s.phase == Waiting {
      moves := 0;
      assert Gos(0) == [];
    } else {
      var s1 := Advance(s);
      AdvanceInOrder(s, a, s1);
      AdvanceProgresses(s, a, s1);
      if s1.phase.Closed? {
        moves := 1;
        assert Gos(1)[1..] == [] && CanRun(s1, []) && Run(s1, []) == s1;
      } else {
        var rest := StreamCatchesUp(s1, a);
        moves := rest + 1;
        GosNext(s, s1, rest);
      }
    }
  }
}
