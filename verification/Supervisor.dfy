/** The gateway's supervisor: start, stop and the monitor threads, each cut where it takes the child lock. */
module Supervisor {
  import opened Wrappers

  type Pid = nat

  /** The supervisor's cells, its watching threads, and what the operating system knows. `pending` holds
      children spawned by a start that has not stored them yet. */
  datatype State = State(
    slot: Option<Pid>,
    port: bool,
    lastError: Option<Pid>,
    stopping: bool,
    monitors: nat,
    pending: set<Pid>,
    running: set<Pid>,
    killed: set<Pid>,
    next: Pid)

  const INITIAL := State(None, false, None, false, 0, {}, {}, {}, 0)

  datatype Event =
    | StartClears
    | StartSpawns
    | StartStores(pid: Pid)
    | StopMarks
    | StopTakes
    | Dies(pid: Pid)
    | MonitorWakes

  predicate CanHappen(s: State, ev: Event) {
    match ev
    case StartStores(pid) => pid in s.pending
    case Dies(pid) => pid in s.running
    case MonitorWakes => s.monitors > 0
    case _ => true
  }

  function Step(s: State, ev: Event): State
    requires CanHappen(s, ev)
  {
    match ev
    case StartClears => s.(stopping := false, lastError := None)
    case StartSpawns => s.(pending := s.pending + {s.next}, running := s.running + {s.next}, next := s.next + 1)
    case StartStores(pid) =>
      s.(slot := Some(pid), port := true, pending := s.pending - {pid}, monitors := s.monitors + 1)
    case StopMarks => s.(stopping := true)
    case StopTakes =>
      (match s.slot
       case None => s.(port := false)
       case Some(pid) => s.(slot := None, port := false, killed := s.killed + {pid}, running := s.running - {pid}))
    case Dies(pid) => s.(running := s.running - {pid})
    case MonitorWakes =>
      match s.slot
      case None => s.(monitors := s.monitors - 1)
      case Some(pid) =>
        if pid in s.running then s
        else s.(slot := None, monitors := s.monitors - 1, lastError := if s.stopping then s.lastError else Some(pid))
  }

  /** Something knows of the process. */
  predicate IsKnown(s: State, p: Pid) {
    s.slot == Some(p) || s.lastError == Some(p) || p in s.running || p in s.killed || p in s.pending
  }

  /** What may be true of one process at the same time. */
  predicate IsPlaced(s: State, p: Pid) {
    && (IsKnown(s, p) ==> p < s.next)
    && (p in s.killed ==> p !in s.running && p !in s.pending && s.slot != Some(p) && s.lastError != Some(p))
    && (p in s.pending ==> s.slot != Some(p) && s.lastError != Some(p))
    && (s.lastError == Some(p) ==> p !in s.running && s.slot != Some(p))
  }

  ghost predicate Inv(s: State) {
    (s.slot.Some? ==> s.monitors > 0) && forall p :: IsPlaced(s, p)
  }

  lemma StepKeeps(s: State, ev: Event)
    requires Inv(s) && CanHappen(s, ev)
    ensures Inv(Step(s, ev))
  {
    assert s.slot.Some? ==> IsPlaced(s, s.slot.value);
    assert ev.StartStores? ==> IsPlaced(s, ev.pid);
    assert IsPlaced(s, s.next);
    forall p ensures IsPlaced(Step(s, ev), p) {
      assert IsPlaced(s, p);
    }
  }

  ghost predicate CanRun(s: State, events: seq<Event>)
    decreases |events|
  {
    events == [] || (CanHappen(s, events[0]) && CanRun(Step(s, events[0]), events[1..]))
  }

  ghost function Run(s: State, events: seq<Event>): State
    requires CanRun(s, events)
    decreases |events|
  {
    if events == [] then s else Run(Step(s, events[0]), events[1..])
  }

  lemma {:induction false} RunKeeps(s: State, events: seq<Event>)
    requires Inv(s) && CanRun(s, events)
    ensures Inv(Run(s, events))
    decreases |events|
  {
    if events != [] {
      StepKeeps(s, events[0]);
      RunKeeps(Step(s, events[0]), events[1..]);
    }
  }

  /** However starts, stops and monitors interleave: the error the frontend reads is never about a process
      that stop() killed or that still runs, and a child in the slot is always watched. */
  lemma ErrorsAreSpontaneous(events: seq<Event>)
    requires CanRun(INITIAL, events)
    ensures var s := Run(INITIAL, events);
            && (s.lastError.Some? ==> s.lastError.value !in s.killed + s.running)
            && (s.slot.Some? ==> s.slot.value !in s.killed && s.monitors > 0)
  {
    RunKeeps(INITIAL, events);
    var s := Run(INITIAL, events);
    assert s.lastError.Some? ==> IsPlaced(s, s.lastError.value);
    assert s.slot.Some? ==> IsPlaced(s, s.slot.value);
  }

  /** A child that died with no stop requested is reported by the next monitor to wake. */
  lemma DeathIsReported(events: seq<Event>)
    requires CanRun(INITIAL, events)
    ensures var s := Run(INITIAL, events);
            s.slot.Some? && s.slot.value !in s.running && !s.stopping ==>
              CanHappen(s, MonitorWakes) && Step(s, MonitorWakes).lastError == s.slot &&
              Step(s, MonitorWakes).slot == None
  {
    RunKeeps(INITIAL, events);
  }

  // ---------- escaping supervision ----------

  /** The children that run although neither the slot nor a start under way holds them. */
  function Escaped(s: State): set<Pid> {
    set p | p in s.running && p !in s.pending && s.slot != Some(p)
  }

  /** A start stores its child over one that still runs. */
  predicate PushesOut(s: State, ev: Event) {
    ev.StartStores? && s.slot.Some? && s.slot.value in s.running
  }

  /** A child escapes by being pushed out, and in no other way; once escaped, only its own end brings it back. */
  lemma StepEscapes(s: State, ev: Event)
    requires Inv(s) && CanHappen(s, ev)
    ensures Escaped(Step(s, ev)) ==
            Escaped(s) + (if PushesOut(s, ev) then {s.slot.value} else {}) - (if ev.Dies? then {ev.pid} else {})
  {
    assert s.slot.Some? ==> IsPlaced(s, s.slot.value);
    assert ev.StartStores? ==> IsPlaced(s, ev.pid);
    assert IsPlaced(s, s.next);
  }

  /** No child is out of supervision at any moment of the run. */
  ghost predicate AlwaysContained(s: State, events: seq<Event>)
    requires CanRun(s, events)
    decreases |events|
  {
    Escaped(s) == {} && (events == [] || AlwaysContained(Step(s, events[0]), events[1..]))
  }

  /** Every start finds the slot empty, or in it a child that no longer runs. */
  ghost predicate NeverPushesOut(s: State, events: seq<Event>)
    requires CanRun(s, events)
    decreases |events|
  {
    events == [] || (!PushesOut(s, events[0]) && NeverPushesOut(Step(s, events[0]), events[1..]))
  }

  lemma {:induction false} ContainedFromIff(s: State, events: seq<Event>)
    requires Inv(s) && CanRun(s, events) && Escaped(s) == {}
    ensures AlwaysContained(s, events) <==> NeverPushesOut(s, events)
    decreases |events|
  {
    if events != [] {
      var s' := Step(s, events[0]);
      StepKeeps(s, events[0]);
      StepEscapes(s, events[0]);
      if PushesOut(s, events[0]) {
        assert s.slot.value in Escaped(s');
      } else {
        assert Escaped(s') == {};
        ContainedFromIff(s', events[1..]);
      }
    }
  }

  /** Whatever starts, stops, deaths and monitors do, every running child is supervised at every moment exactly
      when no start stores its child over one that still runs; right after one that does, a child has escaped. */
  lemma ContainedIff(events: seq<Event>)
    requires CanRun(INITIAL, events)
    ensures AlwaysContained(INITIAL, events) <==> NeverPushesOut(INITIAL, events)
  {
    ContainedFromIff(INITIAL, events);
  }

  function Starts(events: seq<Event>): nat {
    if events == [] then 0 else (if events[0].StartStores? then 1 else 0) + Starts(events[1..])
  }

  lemma {:induction false} OneStartNeverPushes(s: State, events: seq<Event>)
    requires CanRun(s, events) && Starts(events) <= (if s.slot.None? then 1 else 0)
    ensures NeverPushesOut(s, events)
    decreases |events|
  {
    if events != [] {
      OneStartNeverPushes(Step(s, events[0]), events[1..]);
    }
  }

  /** The application starts its gateway once: nothing ever escapes. */
  lemma OneStartContains(events: seq<Event>)
    requires CanRun(INITIAL, events) && Starts(events) <= 1
    ensures AlwaysContained(INITIAL, events)
  {
    OneStartNeverPushes(INITIAL, events);
    ContainedIff(events);
  }

  lemma {:induction false} ContainedAtEnd(s: State, events: seq<Event>)
    requires CanRun(s, events) && AlwaysContained(s, events)
    ensures Escaped(Run(s, events)) == {}
    decreases |events|
  {
    if events != [] { ContainedAtEnd(Step(s, events[0]), events[1..]); }
  }

  /** When stop() is through with the slot, only children of starts still under way keep running, and those
      that had escaped before; none have if no start pushed a running child out. */
  lemma StopLeavesNothing(events: seq<Event>)
    requires CanRun(INITIAL, events)
    ensures var s := Run(INITIAL, events);
            var s' := Step(s, StopTakes);
            && s'.slot == None && !s'.port && s'.running == s.pending * s.running + Escaped(s)
            && (NeverPushesOut(INITIAL, events) ==> s'.running <= s'.pending)
  {
    var s := Run(INITIAL, events);
    RunKeeps(INITIAL, events);
    if NeverPushesOut(INITIAL, events) {
      ContainedIff(events);
      ContainedAtEnd(INITIAL, events);
    }
    assert s.slot.Some? ==> IsPlaced(s, s.slot.value);
    forall p ensures p in Step(s, StopTakes).running <==> p in s.pending * s.running + Escaped(s) {
      assert IsPlaced(s, p);
    }
  }

  // ---------- stopping on purpose ----------

  lemma {:induction false} StoppingIsSilent(s: State, events: seq<Event>)
    requires CanRun(s, events) && s.stopping && forall k :: 0 <= k < |events| ==> events[k] != StartClears
    ensures Run(s, events).stopping && Run(s, events).lastError == s.lastError
    decreases |events|
  {
    if events != [] {
      assert events[0] != StartClears && forall k :: 0 <= k < |events[1..]| ==> events[1..][k] == events[k + 1];
      StoppingIsSilent(Step(s, events[0]), events[1..]);
    }
  }

  /** From the moment a stop is requested until the next start, no death is reported, whatever dies and whoever
      notices it; the next start forgets the error of the last. */
  lemma StopSilences(before: seq<Event>, after: seq<Event>)
    requires CanRun(INITIAL, before) && CanRun(Step(Run(INITIAL, before), StopMarks), after)
    requires forall k :: 0 <= k < |after| ==> after[k] != StartClears
    ensures var s := Run(INITIAL, before);
            var s' := Run(Step(s, StopMarks), after);
            s'.lastError == s.lastError && Step(s', StartClears).lastError == None && !Step(s', StartClears).stopping
  {
    StoppingIsSilent(Step(Run(INITIAL, before), StopMarks), after);
  }
}
