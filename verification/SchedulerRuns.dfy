/** What every step of the scheduler keeps: recorded work is never rewritten. */
module SchedulerRuns {
  import opened Wrappers
  import opened Schedules
  import opened SchedulerSteps

  /** What a row keeps for ever: what it was recorded for, that it is settled, and when it started. */
  ghost predicate RowKept(a: Occurrence, b: Occurrence) {
    && b.sched == a.sched && b.rev == a.rev && b.scheduledFor == a.scheduledFor
    && b.attempt == a.attempt && b.retryOf == a.retryOf && b.adHoc == a.adHoc
    && (a.startedAt.Some? ==> b.startedAt == a.startedAt)
    && (!IsOpen(a.status) ==> !IsOpen(b.status))
    && (a.status == Running ==> b.status != Queued)
  }

  ghost predicate HistoryKept(db: Db, db': Db) {
    && db.revs <= db'.revs
    && |db.schedules| <= |db'.schedules|
    && |db.occs| <= |db'.occs|
    && (forall i :: 0 <= i < |db.occs| ==> RowKept(db.occs[i], db'.occs[i]))
    && db.launched <= db'.launched
  }

  lemma HistoryComposes(a: Db, b: Db, c: Db)
    requires HistoryKept(a, b) && HistoryKept(b, c)
    ensures HistoryKept(a, c)
  {
    forall i | 0 <= i < |a.occs| ensures RowKept(a.occs[i], c.occs[i]) {
      assert RowKept(a.occs[i], b.occs[i]) && RowKept(b.occs[i], c.occs[i]);
    }
  }

  /** A queued row has not been started. */
  ghost predicate QueuedUnstarted(db: Db) {
    forall i :: 0 <= i < |db.occs| && db.occs[i].status == Queued ==> db.occs[i].startedAt.None?
  }

  ghost predicate Sane(db: Db) {
    WellFormed(db) && QueuedUnstarted(db)
  }

  /** What one statement of the tick transaction guarantees. */
  ghost predicate TxKept(tx: Tx, tx': Tx) {
    && Sane(tx'.db) && HistoryKept(tx.db, tx'.db)
    && tx'.db.live == tx.db.live && tx'.db.launched == tx.db.launched
    && (forall i :: i in tx.launches ==> i < |tx.db.occs|)
    && (forall i :: i in tx'.launches ==> i < |tx'.db.occs|)
  }

  lemma {:induction false} DrainKeeps(tx: Tx, order: seq<nat>, now: Instant)
    requires Sane(tx.db) && forall i :: i in tx.launches ==> i < |tx.db.occs|
    requires forall k :: 0 <= k < |order| ==> order[k] < |tx.db.occs| && tx.db.occs[order[k]].status == Queued
    requires forall j, k :: 0 <= j < k < |order| ==> order[j] != order[k]
    ensures TxKept(tx, Drain(tx, order, now))
    ensures forall i :: 0 <= i < |tx.db.occs| && i !in order ==> Drain(tx, order, now).db.occs[i] == tx.db.occs[i]
  {
    if order != [] {
      var last := |order| - 1;
      DrainKeeps(tx, order[..last], now);
      assert order[last] !in order[..last];
      assert forall i :: i in order <==> i in order[..last] || i == order[last];
    }
  }

  /** Recording a row that does not start in the queue with a start time. */
  lemma RecordKeeps(db: Db, row: Occurrence)
    requires QueuedUnstarted(db) && (row.status == Queued ==> row.startedAt.None?)
    ensures QueuedUnstarted(Record(db, row)) && HistoryKept(db, Record(db, row))
  {
  }

  lemma CancelKeeps(db: Db, i: nat, now: Instant)
    requires QueuedUnstarted(db) && i < |db.occs| && IsOpen(db.occs[i].status)
    ensures QueuedUnstarted(Cancel(db, i, now)) && HistoryKept(db, Cancel(db, i, now))
  {
  }

  /** The overlap policy lets the instant start a run, beside or instead of what is open. */
  predicate StartsRun(db: Db, s: nat, hint: nat)
    requires WellFormed(db) && s < |db.schedules| && db.schedules[s].currentRev.Some?
  {
    var overlap := db.revs[db.schedules[s].currentRev.value].config.overlap;
    OpenOccurrence(db.occs, s, hint).None? || (overlap != OverlapSkip && overlap != OverlapQueue)
  }

  lemma FireWaits(cal: Calendar, tx: Tx, s: nat, hint: nat, now: Instant)
    requires Advancing(cal) && Sane(tx.db) && forall i :: i in tx.launches ==> i < |tx.db.occs|
    requires s < |tx.db.schedules| && tx.db.schedules[s].nextFireAt.Some?
    requires tx.db.schedules[s].currentRev.Some? && !StartsRun(tx.db, s, hint)
    ensures TxKept(tx, FireDue(cal, tx, s, hint, now))
  {
    var sched := tx.db.schedules[s];
    RecordKeeps(tx.db, RegularRow(s, sched.currentRev.value, sched.nextFireAt.value, SkippedOverlap));
    RecordKeeps(tx.db, RegularRow(s, sched.currentRev.value, sched.nextFireAt.value, Queued));
  }

  lemma FireStarts(cal: Calendar, tx: Tx, s: nat, hint: nat, now: Instant)
    requires Advancing(cal) && Sane(tx.db) && forall i :: i in tx.launches ==> i < |tx.db.occs|
    requires s < |tx.db.schedules| && tx.db.schedules[s].nextFireAt.Some?
    requires tx.db.schedules[s].currentRev.Some? && StartsRun(tx.db, s, hint)
    ensures TxKept(tx, FireDue(cal, tx, s, hint, now))
  {
    var db, sched, open := tx.db, tx.db.schedules[s], OpenOccurrence(tx.db.occs, s, hint);
    var row := RegularRow(s, sched.currentRev.value, sched.nextFireAt.value, Running).(startedAt := Some(now));
    RecordKeeps(db, row);
    if open.Some? {
      CancelKeeps(db, open.value, now);
      RecordKeeps(Cancel(db, open.value, now), row);
      HistoryComposes(db, Cancel(db, open.value, now), Record(Cancel(db, open.value, now), row));
    }
  }

  lemma FireKeeps(cal: Calendar, tx: Tx, s: nat, hint: nat, now: Instant)
    requires Advancing(cal) && Sane(tx.db) && forall i :: i in tx.launches ==> i < |tx.db.occs|
    requires s < |tx.db.schedules| && tx.db.schedules[s].nextFireAt.Some?
    ensures TxKept(tx, FireDue(cal, tx, s, hint, now))
  {
    if tx.db.schedules[s].currentRev.Some? {
      if StartsRun(tx.db, s, hint) {
        FireStarts(cal, tx, s, hint, now);
      } else {
        FireWaits(cal, tx, s, hint, now);
      }
    }
  }

  lemma {:induction false} FireAllKeeps(cal: Calendar, tx: Tx, due: seq<nat>, hints: map<nat, nat>, now: Instant)
    requires Advancing(cal) && Sane(tx.db) && forall i :: i in tx.launches ==> i < |tx.db.occs|
    requires forall k :: 0 <= k < |due| ==> due[k] < |tx.db.schedules| && tx.db.schedules[due[k]].nextFireAt.Some?
    requires forall j, k :: 0 <= j < k < |due| ==> due[j] != due[k]
    ensures TxKept(tx, FireAll(cal, tx, due, hints, now))
  {
    if due != [] {
      var last := |due| - 1;
      var mid := FireAll(cal, tx, due[..last], hints, now);
      FireAllKeeps(cal, tx, due[..last], hints, now);
      FireKeeps(cal, mid, due[last], HintFor(hints, due[last]), now);
      HistoryComposes(tx.db, mid.db, FireDue(cal, mid, due[last], HintFor(hints, due[last]), now).db);
    }
  }

  lemma LaunchKeeps(tx: Tx)
    requires Sane(tx.db) && forall i :: i in tx.launches ==> i < |tx.db.occs|
    ensures Sane(Launch(tx)) && HistoryKept(tx.db, Launch(tx))
  {
    var db' := Launch(tx);
    forall k | 0 <= k < |db'.launched| ensures db'.launched[k] < |db'.occs| {
      if k >= |tx.db.launched| { assert db'.launched[k] in tx.launches; }
    }
  }

  lemma TickKeeps(cal: Calendar, db: Db, order: seq<nat>, due: seq<nat>, hints: map<nat, nat>, now: Instant)
    requires Advancing(cal) && Sane(db) && IsDrainOrder(db, now, order) && IsDueList(db, now, due)
    ensures var db' := TickStep(cal, db, order, due, hints, now); Sane(db') && HistoryKept(db, db')
  {
    var tx := Drain(Tx(db, []), order, now);
    DrainKeeps(Tx(db, []), order, now);
    FireAllKeeps(cal, tx, due, hints, now);
    var tx' := FireAll(cal, tx, due, hints, now);
    LaunchKeeps(tx');
    HistoryComposes(db, tx.db, tx'.db);
    HistoryComposes(db, tx'.db, Launch(tx'));
  }

  lemma FinishKeeps(db: Db, i: nat, outcome: Status, now: Instant, later: Instant)
    requires Sane(db) && i < |db.occs| && outcome in {Completed, Failed, Cancelled}
    ensures Sane(FinishStep(db, i, outcome, now, later)) && HistoryKept(db, FinishStep(db, i, outcome, now, later))
  {
  }

  lemma SweepKeeps(cal: Calendar, db: Db, s: nat, now: Instant)
    requires Advancing(cal) && Sane(db) && s < |db.schedules|
    ensures Sane(SweepStep(cal, db, s, now)) && HistoryKept(db, SweepStep(cal, db, s, now))
  {
  }

  lemma {:induction false} SweepAllKeeps(cal: Calendar, db: Db, overdue: seq<nat>, now: Instant)
    requires Advancing(cal) && Sane(db)
    requires forall k :: 0 <= k < |overdue| ==> overdue[k] < |db.schedules|
    ensures Sane(SweepAll(cal, db, overdue, now)) && HistoryKept(db, SweepAll(cal, db, overdue, now))
  {
    if overdue != [] {
      var last := |overdue| - 1;
      var mid := SweepAll(cal, db, overdue[..last], now);
      SweepAllKeeps(cal, db, overdue[..last], now);
      SweepKeeps(cal, mid, overdue[last], now);
      HistoryComposes(db, mid, SweepStep(cal, mid, overdue[last], now));
    }
  }

  lemma EditKeeps(cal: Calendar, db: Db, s: nat, config: Config, enabled: bool, now: Instant)
    requires Advancing(cal) && Sane(db) && s < |db.schedules| && ValidTrigger(config.trigger)
    ensures Sane(EditStep(cal, db, s, config, enabled, now)) &&
            HistoryKept(db, EditStep(cal, db, s, config, enabled, now))
    ensures |EditStep(cal, db, s, config, enabled, now).revs| <= |db.revs| + 1
  {
    var db1 := Revise(db, s, config);
    var db2 := WithSchedule(db1, s, db1.schedules[s].(enabled := enabled));
    SweepKeeps(cal, db2, s, now);
    HistoryComposes(db, db2, SweepStep(cal, db2, s, now));
  }

  lemma ManualKeeps(cal: Calendar, db: Db, ev: Event)
    requires Advancing(cal) && CanHappen(db, ev) && Sane(db)
    requires ev.Pause? || ev.Archive? || ev.Unarchive? || ev.RunNow?
    ensures Sane(Step(cal, db, ev)) && HistoryKept(db, Step(cal, db, ev))
  {
  }

  lemma SettlingKeeps(cal: Calendar, db: Db, ev: Event)
    requires Advancing(cal) && CanHappen(db, ev) && Sane(db)
    requires ev.Begin? || ev.PreambleFails? || ev.OutcomeLost? || ev.Restart? || ev.Reconcile?
    ensures Sane(Step(cal, db, ev)) && HistoryKept(db, Step(cal, db, ev))
  {
  }

  lemma DefiningKeeps(cal: Calendar, db: Db, ev: Event)
    requires Advancing(cal) && CanHappen(db, ev) && Sane(db) && (ev.Create? || ev.SyncHeartbeat?)
    ensures Sane(Step(cal, db, ev)) && HistoryKept(db, Step(cal, db, ev))
  {
  }

  /** Edits add revisions and never touch recorded work; a settled row never reopens. */
  lemma StepKeepsHistory(cal: Calendar, db: Db, ev: Event)
    requires Advancing(cal) && CanHappen(db, ev) && Sane(db)
    ensures Sane(Step(cal, db, ev)) && HistoryKept(db, Step(cal, db, ev))
  {
    match ev
    case Tick(now, order, due, hints) => TickKeeps(cal, db, order, due, hints, now);
    case Finish(i, outcome, now, later) => FinishKeeps(db, i, outcome, now, later);
    case Sweep(now, overdue) => SweepAllKeeps(cal, db, overdue, now);
    case Edit(s, config, enabled, now) => EditKeeps(cal, db, s, config, enabled, now);
    case Resume(s, now) =>
      var db1 := WithSchedule(db, s, db.schedules[s].(enabled := true));
      SweepKeeps(cal, db1, s, now);
      HistoryComposes(db, db1, SweepStep(cal, db1, s, now));
    case Begin(_) => SettlingKeeps(cal, db, ev);
    case PreambleFails(_, _) => SettlingKeeps(cal, db, ev);
    case OutcomeLost(_) => SettlingKeeps(cal, db, ev);
    case Restart => SettlingKeeps(cal, db, ev);
    case Reconcile(_) => SettlingKeeps(cal, db, ev);
    case Create(_, _, _) => DefiningKeeps(cal, db, ev);
    case SyncHeartbeat(_, _, _, _) => DefiningKeeps(cal, db, ev);
    case _ => ManualKeeps(cal, db, ev);
  }

  // ---------- runs ----------

  const EMPTY: Db := Db([], [], [], map[], [])

  ghost predicate CanRun(cal: Calendar, db: Db, evs: seq<Event>)
    requires Advancing(cal)
    decreases |evs|
  {
    evs == [] || (CanHappen(db, evs[0]) && CanRun(cal, Step(cal, db, evs[0]), evs[1..]))
  }

  ghost function Run(cal: Calendar, db: Db, evs: seq<Event>): Db
    requires Advancing(cal) && CanRun(cal, db, evs)
    decreases |evs|
  {
    if evs == [] then db else Run(cal, Step(cal, db, evs[0]), evs[1..])
  }

  /** Everything recorded before a run is still there after it. */
  lemma {:induction false} RunKeepsHistory(cal: Calendar, db: Db, evs: seq<Event>)
    requires Advancing(cal) && CanRun(cal, db, evs) && Sane(db)
    ensures Sane(Run(cal, db, evs)) && HistoryKept(db, Run(cal, db, evs))
    decreases |evs|
  {
    if evs != [] {
      var db1 := Step(cal, db, evs[0]);
      StepKeepsHistory(cal, db, evs[0]);
      RunKeepsHistory(cal, db1, evs[1..]);
      HistoryComposes(db, db1, Run(cal, db1, evs[1..]));
    }
  }
}
