/** What creating, editing, syncing, pausing and running by hand do to a schedule, and that a paused one is quiet. */
module Management {
  import opened Wrappers
  import opened Schedules
  import opened SchedulerSteps
  import opened SchedulerRuns
  import opened Sweeps

  /** Only schedule s may differ, and of it only the switch, the stored instant and the current revision. */
  ghost predicate OnlySwitched(db: Db, db': Db, s: nat) {
    && s < |db.schedules| && OnlyRowsOf(db, db', s)
    && var next, rev := db'.schedules[s].nextFireAt, db'.schedules[s].currentRev;
       db'.schedules[s] == db.schedules[s].(enabled := db'.schedules[s].enabled, nextFireAt := next, currentRev := rev)
  }

  /** Other schedules, and all recorded rows and tasks, are as before. */
  ghost predicate OnlyRowsOf(db: Db, db': Db, s: nat) {
    && |db'.schedules| == |db.schedules| && db.occs <= db'.occs && db'.live == db.live && db'.launched == db.launched
    && forall t :: 0 <= t < |db.schedules| && t != s ==> db'.schedules[t] == db.schedules[t]
  }

  ghost predicate HasTrigger(db: Db, s: nat, trigger: Trigger) {
    && s < |db.schedules| && db.schedules[s].currentRev.Some? && db.schedules[s].currentRev.value < |db.revs|
    && db.revs[db.schedules[s].currentRev.value].config.trigger == trigger
  }

  /** The stored instant is ahead of the clock, or gone for good. */
  predicate IsAhead(next: Option<Instant>, now: Instant) {
    next.None? || next.value > now
  }

  lemma NextIsAhead(cal: Calendar, trigger: Trigger, now: Instant)
    requires Advancing(cal) && ValidTrigger(trigger)
    ensures IsAhead(NextFire(cal, trigger, now), now)
  {
  }

  lemma SweepSwitches(cal: Calendar, db: Db, s: nat, now: Instant, db': Db)
    requires Advancing(cal) && WellFormed(db) && s < |db.schedules| && db' == SweepStep(cal, db, s, now)
    ensures OnlySwitched(db, db', s) && db'.revs == db.revs
    ensures db'.schedules[s].enabled == db.schedules[s].enabled
    ensures db'.schedules[s].currentRev == db.schedules[s].currentRev
  {
  }

  /** An edit: switched off, the stored instant stays; with a new trigger it is counted from the clock; switched on
      again with the old trigger, the schedule is swept like one that was late; otherwise nothing moves. */
  lemma EditMoves(cal: Calendar, db: Db, s: nat, config: Config, enabled: bool, now: Instant, db': Db)
    requires Advancing(cal) && Sane(db) && s < |db.schedules| && ValidTrigger(config.trigger)
    requires db' == EditStep(cal, db, s, config, enabled, now)
    ensures OnlySwitched(db, db', s) && db'.schedules[s].enabled == enabled && HasTrigger(db', s, config.trigger)
    ensures var before, after := db.schedules[s].nextFireAt, db'.schedules[s].nextFireAt;
            if !enabled || (HasTrigger(db, s, config.trigger) && db.schedules[s].enabled)
            then after == before && db'.occs == db.occs
            else if !HasTrigger(db, s, config.trigger)
            then after == NextFire(cal, config.trigger, now) && IsAhead(after, now) && db'.occs == db.occs
            else IsAhead(after, now) <==> before != Some(now)
  {
    var db1 := Revise(db, s, config);
    var db2 := WithSchedule(db1, s, db1.schedules[s].(enabled := enabled));
    RevisedSwitches(db, s, config, enabled, db2);
    if enabled && HasTrigger(db, s, config.trigger) && !db.schedules[s].enabled {
      SweptAgain(cal, db2, s, now, db');
    } else {
      NextIsAhead(cal, config.trigger, now);
    }
  }

  lemma RevisedSwitches(db: Db, s: nat, config: Config, enabled: bool, db2: Db)
    requires WellFormed(db) && s < |db.schedules| && ValidTrigger(config.trigger)
    requires var db1 := Revise(db, s, config); db2 == WithSchedule(db1, s, db1.schedules[s].(enabled := enabled))
    ensures OnlySwitched(db, db2, s) && db2.schedules[s].enabled == enabled && HasTrigger(db2, s, config.trigger)
    ensures db2.schedules[s].nextFireAt == db.schedules[s].nextFireAt && db2.occs == db.occs
  {
  }

  lemma SweptAgain(cal: Calendar, db: Db, s: nat, now: Instant, db': Db)
    requires Advancing(cal) && Sane(db) && s < |db.schedules| && db.schedules[s].currentRev.Some?
    requires db' == SweepStep(cal, db, s, now)
    ensures OnlySwitched(db, db', s) && db'.revs == db.revs
    ensures db'.schedules[s].enabled == db.schedules[s].enabled
    ensures db'.schedules[s].currentRev == db.schedules[s].currentRev
    ensures IsAhead(db'.schedules[s].nextFireAt, now) <==> db.schedules[s].nextFireAt != Some(now)
  {
    SweepSwitches(cal, db, s, now, db');
    SweepMovesOn(cal, db, s, now);
  }

  /** Resuming sweeps the schedule and switches it on. */
  lemma ResumeMoves(cal: Calendar, db: Db, s: nat, now: Instant, db': Db)
    requires Advancing(cal) && Sane(db) && s < |db.schedules| && db.schedules[s].currentRev.Some?
    requires db' == ResumeStep(cal, db, s, now)
    ensures OnlySwitched(db, db', s) && db'.schedules[s].enabled
    ensures IsAhead(db'.schedules[s].nextFireAt, now) <==> db.schedules[s].nextFireAt != Some(now)
  {
    var db1 := WithSchedule(db, s, db.schedules[s].(enabled := true));
    SweepSwitches(cal, db1, s, now, SweepStep(cal, db1, s, now));
    SweepMovesOn(cal, db1, s, now);
  }

  /** The heartbeat's schedule keeps its instant through a sync, as long as it is on, has one, and its trigger stays
      the same; switched off it has none. */
  lemma SyncMoves(cal: Calendar, db: Db, s: nat, config: Config, enabled: bool, now: Instant, db': Db)
    requires Advancing(cal) && WellFormed(db) && s < |db.schedules| && ValidTrigger(config.trigger)
    requires db.schedules[s].currentRev.Some? && db' == SyncHeartbeatStep(cal, db, s, config, enabled, now)
    ensures OnlySwitched(db, db', s) && db'.occs == db.occs
    ensures db'.schedules[s].enabled == enabled && HasTrigger(db', s, config.trigger)
    ensures var before, after := db.schedules[s].nextFireAt, db'.schedules[s].nextFireAt;
            if !enabled then after == None
            else if HasTrigger(db, s, config.trigger) && before.Some? then after == before
            else after == NextFire(cal, config.trigger, now) && IsAhead(after, now)
  {
    NextIsAhead(cal, config.trigger, now);
  }

  /** A new schedule stands behind the others, with its first revision and, if it is on, an instant ahead. */
  lemma CreateAdds(cal: Calendar, db: Db, config: Config, enabled: bool, now: Instant, db': Db)
    requires Advancing(cal) && WellFormed(db) && ValidTrigger(config.trigger)
    requires db' == CreateStep(cal, db, config, enabled, now)
    ensures var s := |db.schedules|;
            && |db'.schedules| == s + 1 && db'.schedules[..s] == db.schedules
            && HasTrigger(db', s, config.trigger) && db'.schedules[s].enabled == enabled && !db'.schedules[s].archived
            && db'.schedules[s].nextFireAt == (if enabled then NextFire(cal, config.trigger, now) else None)
            && IsAhead(db'.schedules[s].nextFireAt, now) && db'.schedules[s].consecutiveFailures == 0
    ensures db'.occs == db.occs && db'.live == db.live && db'.launched == db.launched && db.revs <= db'.revs
  {
    NextIsAhead(cal, config.trigger, now);
  }

  /** A run by hand starts at once, beside whatever runs, and does not move the schedule. */
  lemma RunNowStarts(cal: Calendar, db: Db, s: nat, now: Instant, db': Db)
    requires Advancing(cal) && CanHappen(db, RunNow(s, now)) && db' == Step(cal, db, RunNow(s, now))
    ensures db'.schedules == db.schedules && db'.revs == db.revs
    ensures var rev := db.schedules[s].currentRev.value;
            db'.occs == db.occs + [Occurrence(s, rev, now, Running, 1, None, Some(now), None, true)]
    ensures db'.launched == db.launched + [|db.occs|] && db'.live == db.live[|db.occs| := Spawned]
  {
  }

  // ---------- a schedule that is switched off ----------

  /** The event does not switch schedule s on, nor run it by hand. */
  predicate LeavesOff(ev: Event, s: nat) {
    match ev
    case Resume(t, _) => t != s
    case Edit(t, _, enabled, _) => t == s ==> !enabled
    case SyncHeartbeat(t, _, enabled, _) => t == s ==> !enabled
    case RunNow(t, _) => t != s
    case _ => true
  }

  ghost predicate LeavesOffRun(evs: seq<Event>, s: nat) {
    forall k :: 0 <= k < |evs| ==> LeavesOff(evs[k], s)
  }

  /** The schedule is off, and since `before` it has got no rows but retries. */
  ghost predicate IsOff(before: Db, db: Db, s: nat) {
    && s < |before.schedules| <= |db.schedules| && !db.schedules[s].enabled && |before.occs| <= |db.occs|
    && forall i :: |before.occs| <= i < |db.occs| && db.occs[i].sched == s ==> db.occs[i].retryOf.Some?
  }

  /** Nothing of schedule s happens: it is as it was, and new rows belong to others. */
  ghost predicate Elsewhere(db: Db, db': Db, s: nat) {
    && s < |db.schedules| == |db'.schedules| && db'.schedules[s] == db.schedules[s] && |db.occs| <= |db'.occs|
    && (forall i :: 0 <= i < |db.occs| ==> db'.occs[i].sched == db.occs[i].sched)
    && (forall i :: 0 <= i < |db.occs| ==> db'.occs[i].retryOf == db.occs[i].retryOf)
    && forall i :: |db.occs| <= i < |db'.occs| ==> db'.occs[i].sched != s
  }

  lemma {:induction false} FireAllElsewhere(cal: Calendar, tx: Tx, due: seq<nat>, hints: map<nat, nat>, now: Instant,
                                            s: nat)
    requires Advancing(cal) && WellFormed(tx.db) && s < |tx.db.schedules| && s !in due
    requires forall k :: 0 <= k < |due| ==> due[k] < |tx.db.schedules| && tx.db.schedules[due[k]].nextFireAt.Some?
    requires forall j, k :: 0 <= j < k < |due| ==> due[j] != due[k]
    ensures Elsewhere(tx.db, FireAll(cal, tx, due, hints, now).db, s)
  {
    if due != [] {
      var last := |due| - 1;
      assert due[last] !in due[..last] && due[last] != s;
      FireAllElsewhere(cal, tx, due[..last], hints, now, s);
      FireElsewhere(cal, FireAll(cal, tx, due[..last], hints, now), due[last], HintFor(hints, due[last]), now, s);
    }
  }

  lemma FireElsewhere(cal: Calendar, tx: Tx, t: nat, hint: nat, now: Instant, s: nat)
    requires Advancing(cal) && WellFormed(tx.db) && s < |tx.db.schedules| && t != s
    requires t < |tx.db.schedules| && tx.db.schedules[t].nextFireAt.Some?
    ensures Elsewhere(tx.db, FireDue(cal, tx, t, hint, now).db, s)
  {
  }

  lemma SweepElsewhere(cal: Calendar, db: Db, t: nat, now: Instant, s: nat)
    requires Advancing(cal) && WellFormed(db) && s < |db.schedules| && t < |db.schedules| && t != s
    ensures Elsewhere(db, SweepStep(cal, db, t, now), s)
  {
  }

  lemma {:induction false} SweepAllElsewhere(cal: Calendar, db: Db, overdue: seq<nat>, now: Instant, s: nat)
    requires Advancing(cal) && WellFormed(db) && forall k :: 0 <= k < |overdue| ==> overdue[k] < |db.schedules|
    requires s < |db.schedules| && s !in overdue
    ensures Elsewhere(db, SweepAll(cal, db, overdue, now), s)
  {
    if overdue != [] {
      var last := |overdue| - 1;
      assert overdue[last] != s;
      SweepAllElsewhere(cal, db, overdue[..last], now, s);
      SweepElsewhere(cal, SweepAll(cal, db, overdue[..last], now), overdue[last], now, s);
    }
  }

  lemma TickOff(cal: Calendar, db: Db, order: seq<nat>, due: seq<nat>, hints: map<nat, nat>, now: Instant, s: nat)
    requires Advancing(cal) && WellFormed(db) && IsDrainOrder(db, now, order) && IsDueList(db, now, due)
    requires s < |db.schedules| && !db.schedules[s].enabled
    ensures Elsewhere(db, TickStep(cal, db, order, due, hints, now), s)
  {
    FireAllElsewhere(cal, Drain(Tx(db, []), order, now), due, hints, now, s);
  }

  lemma EditOff(cal: Calendar, before: Db, db: Db, ev: Event, s: nat)
    requires Advancing(cal) && CanHappen(db, ev) && ev.Edit? && LeavesOff(ev, s) && IsOff(before, db, s)
    ensures IsOff(before, Step(cal, db, ev), s)
  {
    if ev.s != s {
      var db1 := Revise(db, ev.s, ev.config);
      var db2 := WithSchedule(db1, ev.s, db1.schedules[ev.s].(enabled := ev.enabled));
      SweepElsewhere(cal, db2, ev.s, ev.now, s);
    }
  }

  lemma FinishOff(before: Db, db: Db, ev: Event, db': Db, s: nat)
    requires CanHappen(db, ev) && ev.Finish? && IsOff(before, db, s)
    requires db' == FinishStep(db, ev.occ, ev.outcome, ev.now, ev.later)
    ensures IsOff(before, db', s)
  {
  }

  lemma PlainOff(cal: Calendar, before: Db, db: Db, ev: Event, s: nat)
    requires Advancing(cal) && CanHappen(db, ev) && LeavesOff(ev, s) && IsOff(before, db, s)
    requires !ev.Tick? && !ev.Sweep? && !ev.Resume? && !ev.Edit? && !ev.Finish?
    ensures IsOff(before, Step(cal, db, ev), s)
  {
  }

  lemma StepOff(cal: Calendar, before: Db, db: Db, ev: Event, s: nat)
    requires Advancing(cal) && CanHappen(db, ev) && LeavesOff(ev, s) && IsOff(before, db, s)
    ensures IsOff(before, Step(cal, db, ev), s)
  {
    match ev
    case Tick(now, order, due, hints) => TickOff(cal, db, order, due, hints, now, s);
    case Sweep(now, overdue) => SweepAllElsewhere(cal, db, overdue, now, s);
    case Resume(t, now) => SweepElsewhere(cal, WithSchedule(db, t, db.schedules[t].(enabled := true)), t, now, s);
    case Edit(_, _, _, _) => EditOff(cal, before, db, ev, s);
    case Finish(_, _, _, _) => FinishOff(before, db, ev, Step(cal, db, ev), s);
    case _ => PlainOff(cal, before, db, ev, s);
  }

  lemma {:induction false} RunOff(cal: Calendar, before: Db, db: Db, evs: seq<Event>, s: nat)
    requires Advancing(cal) && CanRun(cal, db, evs) && LeavesOffRun(evs, s) && IsOff(before, db, s)
    ensures IsOff(before, Run(cal, db, evs), s)
    decreases |evs|
  {
    if evs != [] {
      StepOff(cal, before, db, evs[0], s);
      assert forall k :: 0 <= k < |evs[1..]| ==> evs[1..][k] == evs[k + 1];
      RunOff(cal, before, Step(cal, db, evs[0]), evs[1..], s);
    }
  }

  /** Once it is paused or archived, a schedule gets no new occurrences but retries of earlier ones, whatever ticks,
      sweeps, restarts and other schedules do, until it is switched on again or run by hand. */
  lemma PausedIsQuiet(cal: Calendar, db: Db, ev: Event, evs: seq<Event>, s: nat)
    requires Advancing(cal) && (ev == Pause(s) || ev == Archive(s)) && CanHappen(db, ev)
    requires CanRun(cal, Step(cal, db, ev), evs) && LeavesOffRun(evs, s)
    ensures var db' := Run(cal, Step(cal, db, ev), evs);
            && s < |db'.schedules| && !db'.schedules[s].enabled && |db.occs| <= |db'.occs|
            && forall i :: |db.occs| <= i < |db'.occs| && db'.occs[i].sched == s ==> db'.occs[i].retryOf.Some?
  {
    RunOff(cal, Step(cal, db, ev), Step(cal, db, ev), evs, s);
  }
}
