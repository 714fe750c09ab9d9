/** What becomes of a started row: how its task begins and ends, when it is retried, and what a restart settles. */
module Executions {
  import opened Wrappers
  import opened Schedules
  import opened SchedulerSteps
  import opened SchedulerRuns
  import opened Retries
  import opened Firing

  // ---------- the end of a run ----------

  predicate AllowsRetry(failure: Failure, attempt: nat) {
    failure.BoundedRetry? && attempt < failure.maxAttempts
  }

  /** The row that waits for the retry of row i: it is due a back-off after the reading, counted in attempts. */
  function RetryRow(failed: Occurrence, i: nat, backoff: int, later: Instant): Occurrence {
    Occurrence(failed.sched, failed.rev, later + (if backoff == 0 then 60_000_000 else backoff) * failed.attempt,
               Queued, failed.attempt + 1, Some(i), None, None, false)
  }

  ghost predicate RetriedOnce(db: Db, db': Db, i: nat, backoff: int, later: Instant) {
    i < |db.occs| && |db'.occs| == |db.occs| + 1 && db'.occs[|db.occs|] == RetryRow(db.occs[i], i, backoff, later)
  }

  /** The outcome is written over the row, whose task is gone; the schedule's failure counter is 0 after a success
      and one more otherwise; all other rows, schedules and tasks stay as they are. */
  lemma FinishWrites(db: Db, i: nat, outcome: Status, now: Instant, later: Instant, db': Db)
    requires WellFormed(db) && i < |db.occs| && db' == FinishStep(db, i, outcome, now, later)
    ensures |db'.occs| >= |db.occs| && db'.occs[i] == db.occs[i].(status := outcome, finishedAt := Some(now))
    ensures forall j :: 0 <= j < |db.occs| && j != i ==> db'.occs[j] == db.occs[j]
    ensures var s := db.occs[i].sched;
            db'.schedules == db.schedules[s := db.schedules[s].(lastStatus := Some(outcome),
              consecutiveFailures := match outcome
                                     case Completed => 0
                                     case _ => db.schedules[s].consecutiveFailures + 1)]
    ensures db'.live == db.live - {i} && db'.launched == db.launched && db'.revs == db.revs
  {
  }

  /** A finished row gets a retry exactly when it did not complete, its policy is a bounded one and it was not the
      last attempt allowed; then exactly one. */
  lemma FinishRetriesIff(db: Db, i: nat, outcome: Status, now: Instant, later: Instant, db': Db)
    requires WellFormed(db) && i < |db.occs| && Unretried(db, i) && db' == FinishStep(db, i, outcome, now, later)
    ensures var failure := db.revs[db.occs[i].rev].config.failure;
            && (!Unretried(db', i) <==> outcome != Completed && AllowsRetry(failure, db.occs[i].attempt))
            && (if Unretried(db', i) then |db'.occs| == |db.occs| else RetriedOnce(db, db', i, failure.backoff, later))
  {
    FinishWrites(db, i, outcome, now, later, db');
    assert forall k :: 0 <= k < |db.occs| ==> db'.occs[k].retryOf == db.occs[k].retryOf;
    if |db'.occs| > |db.occs| {
      assert db'.occs[|db.occs|].retryOf == Some(i);
    }
  }

  /** So it is at the end of every run of a task, whatever came before. */
  lemma EveryFinishRetriesIff(cal: Calendar, evs: seq<Event>, i: nat, outcome: Status, now: Instant, later: Instant)
    requires Advancing(cal) && CanRun(cal, EMPTY, evs)
    requires CanHappen(Run(cal, EMPTY, evs), Finish(i, outcome, now, later))
    ensures var db := Run(cal, EMPTY, evs);
            var db' := Step(cal, db, Finish(i, outcome, now, later));
            var failure := db.revs[db.occs[i].rev].config.failure;
            && (!Unretried(db', i) <==> outcome != Completed && AllowsRetry(failure, db.occs[i].attempt))
            && (if Unretried(db', i) then |db'.occs| == |db.occs| else RetriedOnce(db, db', i, failure.backoff, later))
  {
    var db := Run(cal, EMPTY, evs);
    RunChains(cal, EMPTY, evs);
    assert Unretried(db, i);
    FinishRetriesIff(db, i, outcome, now, later, FinishStep(db, i, outcome, now, later));
  }

  // ---------- failures in a row ----------

  ghost predicate SameCounters(db: Db, db': Db) {
    && |db.schedules| <= |db'.schedules|
    && forall s :: 0 <= s < |db.schedules| ==>
         db'.schedules[s].consecutiveFailures == db.schedules[s].consecutiveFailures
  }

  lemma {:induction false} FireAllSameCounters(cal: Calendar, tx: Tx, due: seq<nat>, hints: map<nat, nat>, now: Instant)
    requires Advancing(cal) && WellFormed(tx.db)
    requires forall k :: 0 <= k < |due| ==> due[k] < |tx.db.schedules| && tx.db.schedules[due[k]].nextFireAt.Some?
    requires forall j, k :: 0 <= j < k < |due| ==> due[j] != due[k]
    ensures SameCounters(tx.db, FireAll(cal, tx, due, hints, now).db)
  {
    if due != [] {
      var last := |due| - 1;
      assert due[last] !in due[..last];
      FireAllSameCounters(cal, tx, due[..last], hints, now);
      FireSameCounters(cal, FireAll(cal, tx, due[..last], hints, now), due[last], HintFor(hints, due[last]), now);
    }
  }

  lemma FireSameCounters(cal: Calendar, tx: Tx, s: nat, hint: nat, now: Instant)
    requires Advancing(cal) && WellFormed(tx.db) && s < |tx.db.schedules| && tx.db.schedules[s].nextFireAt.Some?
    ensures SameCounters(tx.db, FireDue(cal, tx, s, hint, now).db)
  {
  }

  lemma SweepSameCounters(cal: Calendar, db: Db, s: nat, now: Instant)
    requires Advancing(cal) && WellFormed(db) && s < |db.schedules|
    ensures SameCounters(db, SweepStep(cal, db, s, now))
  {
  }

  lemma {:induction false} SweepAllSameCounters(cal: Calendar, db: Db, overdue: seq<nat>, now: Instant)
    requires Advancing(cal) && WellFormed(db) && forall k :: 0 <= k < |overdue| ==> overdue[k] < |db.schedules|
    ensures SameCounters(db, SweepAll(cal, db, overdue, now))
  {
    if overdue != [] {
      var last := |overdue| - 1;
      SweepAllSameCounters(cal, db, overdue[..last], now);
      SweepSameCounters(cal, SweepAll(cal, db, overdue[..last], now), overdue[last], now);
    }
  }

  lemma EditSameCounters(cal: Calendar, db: Db, s: nat, config: Config, enabled: bool, now: Instant)
    requires Advancing(cal) && WellFormed(db) && s < |db.schedules| && ValidTrigger(config.trigger)
    ensures SameCounters(db, EditStep(cal, db, s, config, enabled, now))
  {
    var db1 := Revise(db, s, config);
    SweepSameCounters(cal, WithSchedule(db1, s, db1.schedules[s].(enabled := enabled)), s, now);
  }

  lemma PlainSameCounters(cal: Calendar, db: Db, ev: Event)
    requires Advancing(cal) && CanHappen(db, ev)
    requires !ev.Tick? && !ev.Sweep? && !ev.Resume? && !ev.Edit? && !ev.Finish?
    ensures SameCounters(db, Step(cal, db, ev))
  {
  }

  lemma StepSameCounters(cal: Calendar, db: Db, ev: Event)
    requires Advancing(cal) && CanHappen(db, ev) && !ev.Finish?
    ensures SameCounters(db, Step(cal, db, ev))
  {
    match ev
    case Tick(now, order, due, hints) => FireAllSameCounters(cal, Drain(Tx(db, []), order, now), due, hints, now);
    case Sweep(now, overdue) => SweepAllSameCounters(cal, db, overdue, now);
    case Edit(s, config, enabled, now) => EditSameCounters(cal, db, s, config, enabled, now);
    case Resume(s, now) => SweepSameCounters(cal, WithSchedule(db, s, db.schedules[s].(enabled := true)), s, now);
    case _ => PlainSameCounters(cal, db, ev);
  }

  /** The unsuccessful ends of schedule s since its last success, `before` of them at the start. */
  ghost function FailuresInARow(cal: Calendar, db: Db, evs: seq<Event>, s: nat, before: nat): nat
    requires Advancing(cal) && CanRun(cal, db, evs)
    decreases |evs|
  {
    if evs == [] then before
    else
      var ev := evs[0];
      var ends := ev.Finish? && db.occs[ev.occ].sched == s;
      FailuresInARow(cal, Step(cal, db, ev), evs[1..], s,
                     if !ends then before else if ev.outcome == Completed then 0 else before + 1)
  }

  /** The counter counts: over every run it is the number of unsuccessful ends since the last success. */
  lemma {:induction false} CounterCounts(cal: Calendar, db: Db, evs: seq<Event>, s: nat)
    requires Advancing(cal) && CanRun(cal, db, evs) && s < |db.schedules|
    ensures s < |Run(cal, db, evs).schedules|
    ensures Run(cal, db, evs).schedules[s].consecutiveFailures ==
            FailuresInARow(cal, db, evs, s, db.schedules[s].consecutiveFailures)
    decreases |evs|
  {
    if evs != [] {
      var ev, db1 := evs[0], Step(cal, db, evs[0]);
      if ev.Finish? {
        FinishWrites(db, ev.occ, ev.outcome, ev.now, ev.later, db1);
      } else {
        StepSameCounters(cal, db, ev);
      }
      CounterCounts(cal, db1, evs[1..], s);
    }
  }

  // ---------- the beginning of a run ----------

  /** A row that has been started can run to any end, which is then written down. */
  lemma StartedCanEnd(cal: Calendar, db: Db, i: nat, outcome: Status, now: Instant, later: Instant)
    requires Advancing(cal) && WellFormed(db) && i in db.live && db.live[i] == Spawned && db.occs[i].status == Running
    requires outcome in {Completed, Failed, Cancelled} && now <= later
    ensures CanRun(cal, db, [Begin(i), Finish(i, outcome, now, later)])
    ensures var db' := Run(cal, db, [Begin(i), Finish(i, outcome, now, later)]);
            i < |db'.occs| && db'.occs[i] == db.occs[i].(status := outcome, finishedAt := Some(now)) && i !in db'.live
  {
    var begun, ends := Step(cal, db, Begin(i)), Finish(i, outcome, now, later);
    assert begun == db.(live := db.live[i := InRun]);
    FinishWrites(begun, i, outcome, now, later, Step(cal, begun, ends));
    assert [Begin(i), ends][1..] == [ends] && [ends][1..] == [];
    assert CanRun(cal, Step(cal, begun, ends), []);
    assert CanRun(cal, begun, [ends]) && Run(cal, begun, [ends]) == Step(cal, begun, ends);
  }

  /** An outcome that could not be written leaves the row running with no task behind it, and everything else alone;
      the next restart is what settles it. */
  lemma LostOutcomeWaits(cal: Calendar, db: Db, i: nat, now: Instant)
    requires Advancing(cal) && CanHappen(db, OutcomeLost(i)) && db.occs[i].status == Running
    ensures var lost := Step(cal, db, OutcomeLost(i));
            && lost.occs == db.occs && lost.schedules == db.schedules && lost.revs == db.revs
            && lost.live.Keys == db.live.Keys - {i} && (forall j :: j in lost.live ==> lost.live[j] == db.live[j])
            && CanRun(cal, lost, [Restart, Reconcile(now)])
            && var occs := Run(cal, lost, [Restart, Reconcile(now)]).occs;
               i < |occs| && occs[i] == db.occs[i].(status := Cancelled, finishedAt := Some(now))
  {
    var lost := Step(cal, db, OutcomeLost(i));
    var died := Step(cal, lost, Restart);
    var settled := Step(cal, died, Reconcile(now));
    assert [Restart, Reconcile(now)][1..] == [Reconcile(now)] && [Reconcile(now)][1..] == [];
    assert CanRun(cal, settled, []) && CanRun(cal, died, [Reconcile(now)]);
    assert Run(cal, died, [Reconcile(now)]) == settled;
    ReconcileSettles(died, now, settled);
  }

  /** A preparation that fails settles a row that still runs, without a retry and without counting a failure; either
      way no task of it is left. */
  lemma PreambleSettles(db: Db, i: nat, now: Instant, db': Db)
    requires i < |db.occs| && db' == PreambleFailsStep(db, i, now)
    ensures |db'.occs| == |db.occs| && i !in db'.live && db'.schedules == db.schedules
    ensures forall j :: 0 <= j < |db.occs| ==>
              db'.occs[j] == if j == i && db.occs[i].status == Running
                             then db.occs[i].(status := Failed, finishedAt := Some(now)) else db.occs[j]
    ensures forall j :: j in db.live && j != i ==> j in db'.live && db'.live[j] == db.live[j]
  {
  }

  // ---------- settled before it began ----------

  /** The row is settled, and if a task of it is left, that has not begun. */
  predicate IsOver(db: Db, i: nat) {
    i < |db.occs| && !IsOpen(db.occs[i].status) && (i in db.live ==> db.live[i] == Spawned)
  }

  ghost predicate LeavesOver(db: Db, db': Db, i: nat) {
    IsOver(db, i) ==> IsOver(db', i) && db'.occs[i] == db.occs[i]
  }

  lemma {:induction false} FireAllLeavesOver(cal: Calendar, tx: Tx, due: seq<nat>, hints: map<nat, nat>, now: Instant,
                                             i: nat)
    requires Advancing(cal) && WellFormed(tx.db) && i < |tx.db.occs| && !IsOpen(tx.db.occs[i].status)
    requires forall k :: 0 <= k < |due| ==> due[k] < |tx.db.schedules| && tx.db.schedules[due[k]].nextFireAt.Some?
    requires forall j, k :: 0 <= j < k < |due| ==> due[j] != due[k]
    ensures var occs' := FireAll(cal, tx, due, hints, now).db.occs; i < |occs'| && occs'[i] == tx.db.occs[i]
  {
    if due != [] {
      var last := |due| - 1;
      assert due[last] !in due[..last];
      FireAllLeavesOver(cal, tx, due[..last], hints, now, i);
      FireLeavesOver(cal, FireAll(cal, tx, due[..last], hints, now), due[last], HintFor(hints, due[last]), now, i);
    }
  }

  lemma FireLeavesOver(cal: Calendar, tx: Tx, s: nat, hint: nat, now: Instant, i: nat)
    requires Advancing(cal) && WellFormed(tx.db) && i < |tx.db.occs| && !IsOpen(tx.db.occs[i].status)
    requires s < |tx.db.schedules| && tx.db.schedules[s].nextFireAt.Some?
    ensures var occs' := FireDue(cal, tx, s, hint, now).db.occs; i < |occs'| && occs'[i] == tx.db.occs[i]
  {
  }

  lemma TickLeavesOver(cal: Calendar, db: Db, order: seq<nat>, due: seq<nat>, hints: map<nat, nat>, now: Instant,
                       i: nat)
    requires Advancing(cal) && Sane(db) && IsDrainOrder(db, now, order) && IsDueList(db, now, due) && IsOver(db, i)
    ensures LeavesOver(db, TickStep(cal, db, order, due, hints, now), i)
  {
    var tx := Drain(Tx(db, []), order, now);
    assert i !in order;
    DrainKeeps(Tx(db, []), order, now);
    FireAllLeavesOver(cal, tx, due, hints, now, i);
    var db' := TickStep(cal, db, order, due, hints, now);
    TickLaunches(cal, db, order, due, hints, now, db');
    assert !JustStarted(db.occs, db'.occs, i);
  }

  lemma SweepLeavesOver(cal: Calendar, db: Db, s: nat, now: Instant, i: nat)
    requires Advancing(cal) && WellFormed(db) && s < |db.schedules|
    ensures LeavesOver(db, SweepStep(cal, db, s, now), i)
  {
  }

  lemma {:induction false} SweepAllLeavesOver(cal: Calendar, db: Db, overdue: seq<nat>, now: Instant, i: nat)
    requires Advancing(cal) && WellFormed(db) && forall k :: 0 <= k < |overdue| ==> overdue[k] < |db.schedules|
    ensures LeavesOver(db, SweepAll(cal, db, overdue, now), i)
  {
    if overdue != [] {
      var last := |overdue| - 1;
      SweepAllLeavesOver(cal, db, overdue[..last], now, i);
      SweepLeavesOver(cal, SweepAll(cal, db, overdue[..last], now), overdue[last], now, i);
    }
  }

  lemma EditLeavesOver(cal: Calendar, db: Db, s: nat, config: Config, enabled: bool, now: Instant, i: nat)
    requires Advancing(cal) && WellFormed(db) && s < |db.schedules| && ValidTrigger(config.trigger)
    ensures LeavesOver(db, EditStep(cal, db, s, config, enabled, now), i)
  {
    var db1 := Revise(db, s, config);
    SweepLeavesOver(cal, WithSchedule(db1, s, db1.schedules[s].(enabled := enabled)), s, now, i);
  }

  lemma FinishLeavesOver(db: Db, ev: Event, db': Db, i: nat)
    requires CanHappen(db, ev) && ev.Finish? && IsOver(db, i)
    requires db' == FinishStep(db, ev.occ, ev.outcome, ev.now, ev.later)
    ensures LeavesOver(db, db', i)
  {
    FinishWrites(db, ev.occ, ev.outcome, ev.now, ev.later, db');
  }

  lemma PlainLeavesOver(cal: Calendar, db: Db, ev: Event, i: nat)
    requires Advancing(cal) && CanHappen(db, ev) && IsOver(db, i)
    requires !ev.Tick? && !ev.Sweep? && !ev.Resume? && !ev.Edit? && !ev.Finish?
    ensures LeavesOver(db, Step(cal, db, ev), i)
  {
  }

  lemma StepLeavesOver(cal: Calendar, db: Db, ev: Event, i: nat)
    requires Advancing(cal) && CanHappen(db, ev) && Sane(db) && IsOver(db, i)
    ensures LeavesOver(db, Step(cal, db, ev), i)
  {
    match ev
    case Tick(now, order, due, hints) => TickLeavesOver(cal, db, order, due, hints, now, i);
    case Sweep(now, overdue) => SweepAllLeavesOver(cal, db, overdue, now, i);
    case Edit(s, config, enabled, now) => EditLeavesOver(cal, db, s, config, enabled, now, i);
    case Resume(s, now) => SweepLeavesOver(cal, WithSchedule(db, s, db.schedules[s].(enabled := true)), s, now, i);
    case Finish(_, _, _, _) => FinishLeavesOver(db, ev, Step(cal, db, ev), i);
    case _ => PlainLeavesOver(cal, db, ev, i);
  }

  /** A row that is settled before its task has begun (a skipped one, one that `cancel_previous` or a restart
      cancelled in time, one that has ended) stays as it is for ever, whatever its task still does. */
  lemma {:induction false} SettledStays(cal: Calendar, db: Db, evs: seq<Event>, i: nat)
    requires Advancing(cal) && CanRun(cal, db, evs) && Sane(db) && IsOver(db, i)
    ensures i < |Run(cal, db, evs).occs| && Run(cal, db, evs).occs[i] == db.occs[i]
    decreases |evs|
  {
    if evs != [] {
      StepKeepsHistory(cal, db, evs[0]);
      StepLeavesOver(cal, db, evs[0], i);
      SettledStays(cal, Step(cal, db, evs[0]), evs[1..], i);
    }
  }

  // ---------- a restart ----------

  /** Reconciliation cancels exactly the rows that read running, and changes nothing else. */
  lemma ReconcileSettles(db: Db, now: Instant, db': Db)
    requires db' == ReconcileStep(db, now)
    ensures |db'.occs| == |db.occs| && db' == db.(occs := db'.occs)
    ensures forall i :: 0 <= i < |db.occs| && db.occs[i].status == Running ==>
              db'.occs[i] == db.occs[i].(status := Cancelled, finishedAt := Some(now))
    ensures forall i :: 0 <= i < |db.occs| && db.occs[i].status != Running ==> db'.occs[i] == db.occs[i]
    ensures forall i :: 0 <= i < |db'.occs| ==> db'.occs[i].status != Running
  {
  }

  /** Whatever a process leaves behind when it dies, the next one starts with no schedule held up: nothing reads
      running, and no task is left. */
  lemma RestartFrees(cal: Calendar, db: Db, now: Instant, s: nat)
    requires Advancing(cal) && WellFormed(db)
    ensures CanRun(cal, db, [Restart, Reconcile(now)])
    ensures var db' := Run(cal, db, [Restart, Reconcile(now)]); !HasRunning(db'.occs, s) && db'.live == map[]
  {
    var died := Step(cal, db, Restart);
    var db' := Step(cal, died, Reconcile(now));
    assert [Restart, Reconcile(now)][1..] == [Reconcile(now)] && [Reconcile(now)][1..] == [];
    assert CanRun(cal, db', []) && CanRun(cal, died, [Reconcile(now)]);
    assert Run(cal, died, [Reconcile(now)]) == db';
    ReconcileSettles(died, now, db');
  }
}
