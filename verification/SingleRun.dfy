/** At most one running occurrence per schedule, over every run. */
module SingleRun {
  import opened Wrappers
  import opened Schedules
  import opened SchedulerSteps
  import opened SchedulerRuns

  ghost predicate OneRunning(occs: seq<Occurrence>, s: nat) {
    forall i, j :: 0 <= i < j < |occs| && occs[i].sched == s && occs[j].sched == s ==>
      !(occs[i].status == Running && occs[j].status == Running)
  }

  predicate IsSerial(overlap: Overlap) {
    overlap == OverlapSkip || overlap == OverlapQueue || overlap == CancelPrevious
  }

  ghost predicate AllSerial(db: Db, s: nat) {
    forall r :: 0 <= r < |db.revs| && db.revs[r].sched == s ==> IsSerial(db.revs[r].config.overlap)
  }

  /** The event neither gives schedule s a parallel policy nor runs it by hand. */
  ghost predicate SerialEvent(db: Db, ev: Event, s: nat) {
    match ev
    case Create(config, _, _) => |db.schedules| == s ==> IsSerial(config.overlap)
    case Edit(t, config, _, _) => t == s ==> IsSerial(config.overlap)
    case SyncHeartbeat(t, config, _, _) => t == s ==> IsSerial(config.overlap)
    case RunNow(t, _) => t != s
    case _ => true
  }

  lemma {:induction false} DrainOneRunning(tx: Tx, order: seq<nat>, now: Instant, s: nat)
    requires forall k :: 0 <= k < |order| ==> order[k] < |tx.db.occs|
    requires OneRunning(tx.db.occs, s)
    ensures OneRunning(Drain(tx, order, now).db.occs, s)
  {
    if order != [] {
      DrainOneRunning(tx, order[..|order| - 1], now, s);
    }
  }

  /** Firing keeps the property unless a run is still going and the policy starts another beside it. */
  lemma FireOneRunningIff(cal: Calendar, tx: Tx, s: nat, hint: nat, now: Instant)
    requires Advancing(cal) && WellFormed(tx.db)
    requires s < |tx.db.schedules| && tx.db.schedules[s].nextFireAt.Some?
    requires OneRunning(tx.db.occs, s)
    ensures OneRunning(FireDue(cal, tx, s, hint, now).db.occs, s) <==>
            !(HasRunning(tx.db.occs, s) && tx.db.schedules[s].currentRev.Some?
              && !IsSerial(tx.db.revs[tx.db.schedules[s].currentRev.value].config.overlap))
  {
    var occs, occs' := tx.db.occs, FireDue(cal, tx, s, hint, now).db.occs;
    if HasRunning(occs, s) {
      var i := FindFrom(occs, s, Running, 0).value;
      assert occs[i].sched == s && occs[i].status == Running;
      assert OpenOccurrence(occs, s, hint) == Some(i);
      if |occs'| > |occs| && occs'[|occs|].status == Running && occs'[i].status == Running {
        assert !OneRunning(occs', s);
      }
    }
  }

  lemma FireOtherSchedule(cal: Calendar, tx: Tx, t: nat, hint: nat, now: Instant, s: nat)
    requires Advancing(cal) && WellFormed(tx.db)
    requires t < |tx.db.schedules| && tx.db.schedules[t].nextFireAt.Some? && t != s
    requires OneRunning(tx.db.occs, s)
    ensures OneRunning(FireDue(cal, tx, t, hint, now).db.occs, s)
  {
  }

  lemma {:induction false} FireAllOneRunning(cal: Calendar, tx: Tx, due: seq<nat>, hints: map<nat, nat>, now: Instant,
                                             s: nat)
    requires Advancing(cal) && WellFormed(tx.db)
    requires forall k :: 0 <= k < |due| ==> due[k] < |tx.db.schedules| && tx.db.schedules[due[k]].nextFireAt.Some?
    requires forall j, k :: 0 <= j < k < |due| ==> due[j] != due[k]
    requires OneRunning(tx.db.occs, s) && AllSerial(tx.db, s)
    ensures OneRunning(FireAll(cal, tx, due, hints, now).db.occs, s)
    ensures FireAll(cal, tx, due, hints, now).db.revs == tx.db.revs
  {
    if due != [] {
      var last := |due| - 1;
      var mid := FireAll(cal, tx, due[..last], hints, now);
      FireAllOneRunning(cal, tx, due[..last], hints, now, s);
      assert due[last] !in due[..last];
      if due[last] == s {
        FireOneRunningIff(cal, mid, s, HintFor(hints, s), now);
      } else {
        FireOtherSchedule(cal, mid, due[last], HintFor(hints, due[last]), now, s);
      }
    }
  }

  lemma SweepOneRunning(cal: Calendar, db: Db, t: nat, now: Instant, s: nat)
    requires Advancing(cal) && WellFormed(db) && t < |db.schedules|
    requires OneRunning(db.occs, s)
    ensures OneRunning(SweepStep(cal, db, t, now).occs, s)
  {
  }

  lemma {:induction false} SweepAllOneRunning(cal: Calendar, db: Db, overdue: seq<nat>, now: Instant, s: nat)
    requires Advancing(cal) && WellFormed(db)
    requires forall k :: 0 <= k < |overdue| ==> overdue[k] < |db.schedules|
    requires OneRunning(db.occs, s)
    ensures OneRunning(SweepAll(cal, db, overdue, now).occs, s)
    ensures SweepAll(cal, db, overdue, now).revs == db.revs
  {
    if overdue != [] {
      var last := |overdue| - 1;
      SweepAllOneRunning(cal, db, overdue[..last], now, s);
      SweepOneRunning(cal, SweepAll(cal, db, overdue[..last], now), overdue[last], now, s);
    }
  }

  lemma EditOneRunning(cal: Calendar, db: Db, t: nat, config: Config, enabled: bool, now: Instant, s: nat)
    requires Advancing(cal) && WellFormed(db) && t < |db.schedules| && ValidTrigger(config.trigger)
    requires OneRunning(db.occs, s) && AllSerial(db, s) && (t == s ==> IsSerial(config.overlap))
    ensures OneRunning(EditStep(cal, db, t, config, enabled, now).occs, s)
    ensures AllSerial(EditStep(cal, db, t, config, enabled, now), s)
  {
    var db1 := Revise(db, t, config);
    SweepOneRunning(cal, WithSchedule(db1, t, db1.schedules[t].(enabled := enabled)), t, now, s);
  }

  /** Steps that only settle rows or switch schedules on and off. */
  lemma SettlingOneRunning(cal: Calendar, db: Db, ev: Event, s: nat)
    requires Advancing(cal) && CanHappen(db, ev)
    requires ev.Begin? || ev.PreambleFails? || ev.OutcomeLost? || ev.Restart? || ev.Reconcile?
             || ev.Pause? || ev.Archive? || ev.Unarchive?
    requires OneRunning(db.occs, s) && AllSerial(db, s)
    ensures OneRunning(Step(cal, db, ev).occs, s) && AllSerial(Step(cal, db, ev), s)
  {
  }

  lemma DefiningOneRunning(cal: Calendar, db: Db, ev: Event, s: nat)
    requires Advancing(cal) && CanHappen(db, ev) && SerialEvent(db, ev, s) && (ev.Create? || ev.SyncHeartbeat?)
    requires OneRunning(db.occs, s) && AllSerial(db, s)
    ensures OneRunning(Step(cal, db, ev).occs, s) && AllSerial(Step(cal, db, ev), s)
  {
  }

  lemma FinishOneRunning(cal: Calendar, db: Db, ev: Event, s: nat)
    requires Advancing(cal) && CanHappen(db, ev) && SerialEvent(db, ev, s) && (ev.Finish? || ev.RunNow?)
    requires OneRunning(db.occs, s) && AllSerial(db, s)
    ensures OneRunning(Step(cal, db, ev).occs, s) && AllSerial(Step(cal, db, ev), s)
  {
  }

  lemma StepOneRunning(cal: Calendar, db: Db, ev: Event, s: nat)
    requires Advancing(cal) && CanHappen(db, ev) && SerialEvent(db, ev, s)
    requires OneRunning(db.occs, s) && AllSerial(db, s)
    ensures OneRunning(Step(cal, db, ev).occs, s) && AllSerial(Step(cal, db, ev), s)
  {
    match ev
    case Tick(now, order, due, hints) =>
      DrainOneRunning(Tx(db, []), order, now, s);
      FireAllOneRunning(cal, Drain(Tx(db, []), order, now), due, hints, now, s);
    case Sweep(now, overdue) => SweepAllOneRunning(cal, db, overdue, now, s);
    case Edit(t, config, enabled, now) => EditOneRunning(cal, db, t, config, enabled, now, s);
    case Resume(t, now) => SweepOneRunning(cal, WithSchedule(db, t, db.schedules[t].(enabled := true)), t, now, s);
    case Create(_, _, _) => DefiningOneRunning(cal, db, ev, s);
    case SyncHeartbeat(_, _, _, _) => DefiningOneRunning(cal, db, ev, s);
    case Finish(_, _, _, _) => FinishOneRunning(cal, db, ev, s);
    case RunNow(_, _) => FinishOneRunning(cal, db, ev, s);
    case _ => SettlingOneRunning(cal, db, ev, s);
  }

  // ---------- runs ----------

  ghost predicate SerialRun(cal: Calendar, db: Db, evs: seq<Event>, s: nat)
    requires Advancing(cal) && CanRun(cal, db, evs)
    decreases |evs|
  {
    evs == [] || (SerialEvent(db, evs[0], s) && SerialRun(cal, Step(cal, db, evs[0]), evs[1..], s))
  }

  /** Over every interleaving of ticks, executions, retries, sweeps, restarts and edits. */
  lemma {:induction false} AtMostOneRunning(cal: Calendar, db: Db, evs: seq<Event>, s: nat)
    requires Advancing(cal) && CanRun(cal, db, evs) && SerialRun(cal, db, evs, s)
    requires OneRunning(db.occs, s) && AllSerial(db, s)
    ensures OneRunning(Run(cal, db, evs).occs, s)
    decreases |evs|
  {
    if evs != [] {
      StepOneRunning(cal, db, evs[0], s);
      AtMostOneRunning(cal, Step(cal, db, evs[0]), evs[1..], s);
    }
  }

  /** run_now skips the overlap check: it keeps the property exactly when nothing was running. */
  lemma RunNowOneRunningIff(db: Db, s: nat, rev: nat, now: Instant)
    requires OneRunning(db.occs, s)
    ensures OneRunning(RunNowStep(db, s, rev, now).occs, s) <==> !HasRunning(db.occs, s)
  {
    var occs' := RunNowStep(db, s, rev, now).occs;
    if HasRunning(db.occs, s) {
      var i := FindFrom(db.occs, s, Running, 0).value;
      assert occs'[i] == db.occs[i] && occs'[|db.occs|].status == Running;
    }
  }
}
