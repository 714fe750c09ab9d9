/** The beat of an interval schedule: ticks never lose or repeat an instant, and exactly when a sweep does. */
module Cadence {
  import opened Wrappers
  import opened Schedules
  import opened SchedulerSteps
  import opened SchedulerRuns
  import opened Revisions
  import opened QueueOrder

  /** The instant n beats of d after a. */
  ghost function Nth(a: Instant, d: int, n: nat): Instant
    decreases n
  {
    if n == 0 then a else Nth(a + d, d, n - 1)
  }

  /** The first n instants of the schedule that starts at a and beats every d. */
  ghost function Grid(a: Instant, d: int, n: nat): seq<Instant>
    decreases n
  {
    if n == 0 then [] else [a] + Grid(a + d, d, n - 1)
  }

  lemma {:induction false} NthClosedForm(a: Instant, d: int, n: nat)
    ensures Nth(a, d, n) == a + n * d
    decreases n
  {
    if n > 0 {
      NthClosedForm(a + d, d, n - 1);
    }
  }

  lemma {:induction false} GridClosedForm(a: Instant, d: int, n: nat)
    ensures |Grid(a, d, n)| == n && forall k :: 0 <= k < n ==> Grid(a, d, n)[k] == a + k * d
    decreases n
  {
    if n > 0 {
      GridClosedForm(a + d, d, n - 1);
      forall k | 0 < k < n ensures Grid(a, d, n)[k] == a + k * d {
        assert Grid(a, d, n)[k] == Grid(a + d, d, n - 1)[k - 1];
        assert (a + d) + (k - 1) * d == a + k * d;
      }
    }
  }

  /** The instants of the regular rows of s, in table order. */
  ghost function RegularInstants(occs: seq<Occurrence>, s: nat): seq<Instant> {
    if occs == [] then []
    else
      var last := occs[|occs| - 1];
      RegularInstants(occs[..|occs| - 1], s) + (if Regular(last, s) then [last.scheduledFor] else [])
  }

  // ---------- rows ----------

  lemma {:induction false} SameInstants(occs: seq<Occurrence>, occs': seq<Occurrence>, s: nat)
    requires |occs| == |occs'| && forall i :: 0 <= i < |occs| ==> RowKept(occs[i], occs'[i])
    ensures RegularInstants(occs', s) == RegularInstants(occs, s)
  {
    if occs != [] {
      var n := |occs| - 1;
      SameInstants(occs[..n], occs'[..n], s);
      assert RowKept(occs[n], occs'[n]);
    }
  }

  lemma {:induction false} InstantsOfConcat(occs: seq<Occurrence>, more: seq<Occurrence>, s: nat)
    ensures RegularInstants(occs + more, s) == RegularInstants(occs, s) + RegularInstants(more, s)
  {
    if more == [] {
      assert occs + more == occs;
    } else {
      var n := |more| - 1;
      assert (occs + more)[..|occs + more| - 1] == occs + more[..n];
      InstantsOfConcat(occs, more[..n], s);
    }
  }

  /** Old rows kept, one row appended. */
  lemma InstantsAfterOne(occs: seq<Occurrence>, occs': seq<Occurrence>, s: nat)
    requires |occs'| == |occs| + 1 && forall i :: 0 <= i < |occs| ==> RowKept(occs[i], occs'[i])
    ensures RegularInstants(occs', s) ==
            RegularInstants(occs, s) + if Regular(occs'[|occs|], s) then [occs'[|occs|].scheduledFor] else []
  {
    SameInstants(occs, occs'[..|occs|], s);
  }

  // ---------- ticks ----------

  /** One firing records the stored instant and moves to the next, whatever the overlap policy does. */
  lemma FireRecordsInstant(cal: Calendar, tx: Tx, s: nat, hint: nat, now: Instant)
    requires Advancing(cal) && Sane(tx.db) && forall i :: i in tx.launches ==> i < |tx.db.occs|
    requires s < |tx.db.schedules| && tx.db.schedules[s].nextFireAt.Some? && tx.db.schedules[s].currentRev.Some?
    ensures var db, db' := tx.db, FireDue(cal, tx, s, hint, now).db;
            var due := db.schedules[s].nextFireAt.value;
            && RegularInstants(db'.occs, s) == RegularInstants(db.occs, s) + [due]
            && db'.schedules[s].nextFireAt ==
               NextFire(cal, db.revs[db.schedules[s].currentRev.value].config.trigger, due)
            && db'.schedules[s].currentRev == db.schedules[s].currentRev
  {
    FireKeeps(cal, tx, s, hint, now);
    var db' := FireDue(cal, tx, s, hint, now).db;
    assert |db'.occs| == |tx.db.occs| + 1 && Regular(db'.occs[|tx.db.occs|], s);
    InstantsAfterOne(tx.db.occs, db'.occs, s);
  }

  lemma FireOtherInstants(cal: Calendar, tx: Tx, t: nat, hint: nat, now: Instant, s: nat)
    requires Advancing(cal) && Sane(tx.db) && forall i :: i in tx.launches ==> i < |tx.db.occs|
    requires t < |tx.db.schedules| && tx.db.schedules[t].nextFireAt.Some? && t != s
    ensures RegularInstants(FireDue(cal, tx, t, hint, now).db.occs, s) == RegularInstants(tx.db.occs, s)
  {
    FireKeeps(cal, tx, t, hint, now);
    var db' := FireDue(cal, tx, t, hint, now).db;
    if |db'.occs| == |tx.db.occs| {
      SameInstants(tx.db.occs, db'.occs, s);
    } else {
      InstantsAfterOne(tx.db.occs, db'.occs, s);
    }
  }

  /** Schedule s carries revision rev, and its stored instant and recorded instants are as given. */
  ghost predicate Beat(db: Db, s: nat, rev: nat, next: Option<Instant>, recorded: seq<Instant>) {
    && s < |db.schedules| && db.schedules[s].currentRev == Some(rev)
    && db.schedules[s].nextFireAt == next
    && RegularInstants(db.occs, s) == recorded
  }

  lemma {:induction false} FireAllBeat(cal: Calendar, tx: Tx, due: seq<nat>, hints: map<nat, nat>, now: Instant,
                                       s: nat, rev: nat, next: Option<Instant>, recorded: seq<Instant>)
    requires Advancing(cal) && Sane(tx.db) && forall i :: i in tx.launches ==> i < |tx.db.occs|
    requires forall k :: 0 <= k < |due| ==> due[k] < |tx.db.schedules| && tx.db.schedules[due[k]].nextFireAt.Some?
    requires forall j, k :: 0 <= j < k < |due| ==> due[j] != due[k]
    requires Beat(tx.db, s, rev, next, recorded)
    ensures rev < |tx.db.revs|
    ensures s !in due ==> Beat(FireAll(cal, tx, due, hints, now).db, s, rev, next, recorded)
    ensures s in due ==> next.Some? && Beat(FireAll(cal, tx, due, hints, now).db, s, rev,
              NextFire(cal, tx.db.revs[rev].config.trigger, next.value), recorded + [next.value])
  {
    if due != [] {
      var last := |due| - 1;
      assert due[last] !in due[..last];
      FireAllBeat(cal, tx, due[..last], hints, now, s, rev, next, recorded);
      FireAllKeeps(cal, tx, due[..last], hints, now);
      FireAllSameRevs(cal, tx, due[..last], hints, now);
      var mid := FireAll(cal, tx, due[..last], hints, now);
      if due[last] == s {
        FireRecordsInstant(cal, mid, s, HintFor(hints, s), now);
      } else {
        assert s in due ==> s in due[..last];
        FireOtherInstants(cal, mid, due[last], HintFor(hints, due[last]), now, s);
      }
    }
  }

  lemma TickBeat(cal: Calendar, db: Db, order: seq<nat>, due: seq<nat>, hints: map<nat, nat>, now: Instant,
                 s: nat, rev: nat, next: Option<Instant>, recorded: seq<Instant>)
    requires Advancing(cal) && Sane(db) && IsDrainOrder(db, now, order) && IsDueList(db, now, due)
    requires Beat(db, s, rev, next, recorded)
    ensures rev < |db.revs|
    ensures var db' := TickStep(cal, db, order, due, hints, now);
            if IsDue(db.schedules[s], now) then
              Beat(db', s, rev, NextFire(cal, db.revs[rev].config.trigger, next.value), recorded + [next.value])
            else Beat(db', s, rev, next, recorded)
  {
    var tx := Drain(Tx(db, []), order, now);
    DrainKeeps(Tx(db, []), order, now);
    SameInstants(db.occs, tx.db.occs, s);
    FireAllBeat(cal, tx, due, hints, now, s, rev, next, recorded);
  }

  // ---------- runs of ticks ----------

  lemma {:induction false} NoInstants(occs: seq<Occurrence>, s: nat)
    requires forall i :: 0 <= i < |occs| ==> !Regular(occs[i], s)
    ensures RegularInstants(occs, s) == []
  {
    if occs != [] {
      NoInstants(occs[..|occs| - 1], s);
    }
  }

  /** Old rows kept, nothing regular of s appended. */
  lemma InstantsUnchanged(occs: seq<Occurrence>, occs': seq<Occurrence>, s: nat)
    requires |occs| <= |occs'| && forall i :: 0 <= i < |occs| ==> RowKept(occs[i], occs'[i])
    requires forall i :: |occs| <= i < |occs'| ==> !Regular(occs'[i], s)
    ensures RegularInstants(occs', s) == RegularInstants(occs, s)
  {
    var n := |occs|;
    assert occs' == occs'[..n] + occs'[n..];
    SameInstants(occs, occs'[..n], s);
    NoInstants(occs'[n..], s);
    InstantsOfConcat(occs'[..n], occs'[n..], s);
  }

  /** The event leaves the definition and the anchor of s alone: only ticks move it. */
  ghost predicate Undisturbed(ev: Event, s: nat) {
    match ev
    case Sweep(_, overdue) => s !in overdue
    case Edit(t, _, _, _) => t != s
    case SyncHeartbeat(t, _, _, _) => t != s
    case Pause(t) => t != s
    case Resume(t, _) => t != s
    case Archive(t) => t != s
    case Unarchive(t) => t != s
    case _ => true
  }

  ghost predicate UndisturbedBy(db: Db, db': Db, s: nat) {
    && s < |db.schedules| <= |db'.schedules| && db'.schedules[s].currentRev == db.schedules[s].currentRev
    && db'.schedules[s].nextFireAt == db.schedules[s].nextFireAt
    && |db.occs| <= |db'.occs|
    && (forall i :: |db.occs| <= i < |db'.occs| ==> !Regular(db'.occs[i], s))
  }

  lemma {:induction false} SweepAllElsewhere(cal: Calendar, db: Db, overdue: seq<nat>, now: Instant, s: nat)
    requires Advancing(cal) && WellFormed(db) && s < |db.schedules| && s !in overdue
    requires forall k :: 0 <= k < |overdue| ==> overdue[k] < |db.schedules|
    ensures UndisturbedBy(db, SweepAll(cal, db, overdue, now), s)
  {
    if overdue != [] {
      var last := |overdue| - 1;
      var mid := SweepAll(cal, db, overdue[..last], now);
      SweepAllElsewhere(cal, db, overdue[..last], now, s);
      SweepElsewhere(cal, mid, overdue[last], now, s);
    }
  }

  lemma SweepElsewhere(cal: Calendar, db: Db, t: nat, now: Instant, s: nat)
    requires Advancing(cal) && WellFormed(db) && s < |db.schedules| && t < |db.schedules| && t != s
    ensures |db.occs| <= |SweepStep(cal, db, t, now).occs|
    ensures SweepStep(cal, db, t, now).occs[..|db.occs|] == db.occs
    ensures UndisturbedBy(db, SweepStep(cal, db, t, now), s)
  {
  }

  lemma EditElsewhere(cal: Calendar, db: Db, t: nat, config: Config, enabled: bool, now: Instant, s: nat)
    requires Advancing(cal) && WellFormed(db) && s < |db.schedules| && t < |db.schedules| && t != s
    requires ValidTrigger(config.trigger)
    ensures UndisturbedBy(db, EditStep(cal, db, t, config, enabled, now), s)
  {
    var db1 := Revise(db, t, config);
    SweepElsewhere(cal, WithSchedule(db1, t, db1.schedules[t].(enabled := enabled)), t, now, s);
  }

  lemma FinishElsewhere(db: Db, i: nat, outcome: Status, now: Instant, later: Instant, s: nat)
    requires WellFormed(db) && i < |db.occs| && s < |db.schedules|
    ensures UndisturbedBy(db, FinishStep(db, i, outcome, now, later), s)
  {
  }

  lemma QuietBeat(cal: Calendar, db: Db, ev: Event, s: nat)
    requires Advancing(cal) && CanHappen(db, ev) && Sane(db) && s < |db.schedules|
    requires Undisturbed(ev, s) && !ev.Tick?
    ensures UndisturbedBy(db, Step(cal, db, ev), s)
  {
    match ev
    case Sweep(now, overdue) => SweepAllElsewhere(cal, db, overdue, now, s);
    case Edit(t, config, enabled, now) => EditElsewhere(cal, db, t, config, enabled, now, s);
    case Resume(t, now) => SweepElsewhere(cal, WithSchedule(db, t, db.schedules[t].(enabled := true)), t, now, s);
    case Finish(i, outcome, now, later) => FinishElsewhere(db, i, outcome, now, later, s);
    case _ =>
  }

  ghost predicate UndisturbedRun(evs: seq<Event>, s: nat)
    decreases |evs|
  {
    evs == [] || (Undisturbed(evs[0], s) && UndisturbedRun(evs[1..], s))
  }

  /** 1 for a tick that finds schedule s due, else 0. */
  function Beats(db: Db, ev: Event, s: nat): nat {
    if ev.Tick? && s < |db.schedules| && IsDue(db.schedules[s], ev.now) then 1 else 0
  }

  /** How many ticks of the run found schedule s due. */
  ghost function DueTicks(cal: Calendar, db: Db, evs: seq<Event>, s: nat): nat
    requires Advancing(cal) && CanRun(cal, db, evs)
    decreases |evs|
  {
    if evs == [] then 0
    else Beats(db, evs[0], s) + DueTicks(cal, Step(cal, db, evs[0]), evs[1..], s)
  }

  ghost predicate IntervalBeat(db: Db, s: nat, rev: nat, d: int, next: Instant, recorded: seq<Instant>) {
    && Beat(db, s, rev, Some(next), recorded)
    && rev < |db.revs| && db.revs[rev].config.trigger == Interval(d)
  }

  lemma QuietKeepsBeat(cal: Calendar, db: Db, ev: Event, s: nat, rev: nat, d: int, a: Instant, recorded: seq<Instant>)
    requires Advancing(cal) && CanHappen(db, ev) && Sane(db) && Undisturbed(ev, s) && !ev.Tick?
    requires IntervalBeat(db, s, rev, d, a, recorded)
    requires HistoryKept(db, Step(cal, db, ev))
    ensures IntervalBeat(Step(cal, db, ev), s, rev, d, a, recorded)
  {
    QuietBeat(cal, db, ev, s);
    InstantsUnchanged(db.occs, Step(cal, db, ev).occs, s);
  }

  lemma TickMovesBeat(cal: Calendar, db: Db, order: seq<nat>, due: seq<nat>, hints: map<nat, nat>, now: Instant,
                      s: nat, rev: nat, d: int, a: Instant, recorded: seq<Instant>)
    requires Advancing(cal) && Sane(db) && IsDrainOrder(db, now, order) && IsDueList(db, now, due)
    requires IntervalBeat(db, s, rev, d, a, recorded)
    ensures var db' := TickStep(cal, db, order, due, hints, now);
            if IsDue(db.schedules[s], now) then IntervalBeat(db', s, rev, d, a + d, recorded + [a])
            else IntervalBeat(db', s, rev, d, a, recorded)
  {
    TickBeat(cal, db, order, due, hints, now, s, rev, Some(a), recorded);
    TickKeeps(cal, db, order, due, hints, now);
  }

  lemma StepBeat(cal: Calendar, db: Db, ev: Event, s: nat, rev: nat, d: int, a: Instant, recorded: seq<Instant>)
    requires Advancing(cal) && CanHappen(db, ev) && Sane(db) && Undisturbed(ev, s)
    requires IntervalBeat(db, s, rev, d, a, recorded)
    ensures Sane(Step(cal, db, ev))
    ensures Beats(db, ev, s) == 1 ==> IntervalBeat(Step(cal, db, ev), s, rev, d, a + d, recorded + [a])
    ensures Beats(db, ev, s) == 0 ==> IntervalBeat(Step(cal, db, ev), s, rev, d, a, recorded)
  {
    StepKeepsHistory(cal, db, ev);
    if ev.Tick? {
      TickMovesBeat(cal, db, ev.order, ev.due, ev.hints, ev.now, s, rev, d, a, recorded);
    } else {
      QuietKeepsBeat(cal, db, ev, s, rev, d, a, recorded);
    }
  }

  /** The first step of a run: where it leads, and the beat it leaves. */
  lemma FirstBeat(cal: Calendar, db: Db, evs: seq<Event>, s: nat, rev: nat, d: int, a: Instant, recorded: seq<Instant>)
    returns (db': Db, beats: nat, a': Instant, recorded': seq<Instant>)
    requires Advancing(cal) && CanRun(cal, db, evs) && Sane(db) && UndisturbedRun(evs, s) && evs != []
    requires IntervalBeat(db, s, rev, d, a, recorded)
    ensures CanRun(cal, db', evs[1..]) && Sane(db') && UndisturbedRun(evs[1..], s)
    ensures Run(cal, db, evs) == Run(cal, db', evs[1..])
    ensures DueTicks(cal, db, evs, s) == beats + DueTicks(cal, db', evs[1..], s)
    ensures IntervalBeat(db', s, rev, d, a', recorded')
    ensures IsAfterBeat(beats, d, a, recorded, a', recorded')
  {
    StepBeat(cal, db, evs[0], s, rev, d, a, recorded);
    db', beats := Step(cal, db, evs[0]), Beats(db, evs[0], s);
    a', recorded' := if beats == 1 then a + d else a, if beats == 1 then recorded + [a] else recorded;
  }

  /** At most one beat passed, and m more followed: then beats + m did. */
  predicate IsAfterBeat(beats: nat, d: int, a: Instant, recorded: seq<Instant>, a': Instant, recorded': seq<Instant>) {
    (beats == 0 && a' == a && recorded' == recorded) || (beats == 1 && a' == a + d && recorded' == recorded + [a])
  }

  lemma BeatLater(end: Db, s: nat, rev: nat, d: int, a: Instant, recorded: seq<Instant>, a': Instant,
                  recorded': seq<Instant>,
                  beats: nat, m: nat, n: nat)
    requires IsAfterBeat(beats, d, a, recorded, a', recorded') && n == beats + m
    requires IntervalBeat(end, s, rev, d, Nth(a', d, m), recorded' + Grid(a', d, m))
    ensures IntervalBeat(end, s, rev, d, Nth(a, d, n), recorded + Grid(a, d, n))
  {
    if beats == 1 {
      GridConcat(recorded, a, Grid(a + d, d, m));
    }
  }

  lemma GridConcat(recorded: seq<Instant>, a: Instant, rest: seq<Instant>)
    ensures recorded + [a] + rest == recorded + ([a] + rest)
  {
  }

  lemma {:induction false} BeatGoesOn(cal: Calendar, db: Db, evs: seq<Event>, s: nat, rev: nat, d: int,
                                      a: Instant, recorded: seq<Instant>, end: Db, n: nat)
    requires Advancing(cal) && CanRun(cal, db, evs) && Sane(db) && UndisturbedRun(evs, s)
    requires IntervalBeat(db, s, rev, d, a, recorded)
    requires end == Run(cal, db, evs) && n == DueTicks(cal, db, evs, s)
    ensures IntervalBeat(end, s, rev, d, Nth(a, d, n), recorded + Grid(a, d, n))
    decreases |evs|
  {
    if evs == [] {
      assert recorded + [] == recorded;
    } else {
      var db', beats, a', recorded' := FirstBeat(cal, db, evs, s, rev, d, a, recorded);
      var m := n - beats;
      BeatGoesOn(cal, db', evs[1..], s, rev, d, a', recorded', end, m);
      BeatLater(end, s, rev, d, a, recorded, a', recorded', beats, m, n);
    }
  }

  /** An interval schedule left to its ticks, however late they come and whatever its overlap policy
      does: n due ticks record exactly its next n instants, and the one after them is stored next. */
  lemma IntervalKeepsBeat(cal: Calendar, db: Db, evs: seq<Event>, s: nat, rev: nat, d: int, a: Instant,
                          recorded: seq<Instant>)
    requires Advancing(cal) && CanRun(cal, db, evs) && Sane(db) && UndisturbedRun(evs, s)
    requires IntervalBeat(db, s, rev, d, a, recorded)
    ensures var n := DueTicks(cal, db, evs, s);
            IntervalBeat(Run(cal, db, evs), s, rev, d, Nth(a, d, n), recorded + Grid(a, d, n))
  {
    BeatGoesOn(cal, db, evs, s, rev, d, a, recorded, Run(cal, db, evs), DueTicks(cal, db, evs, s));
  }
}
