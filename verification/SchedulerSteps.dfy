/** What every operation of the scheduler does to the database, as functions on Db values. */
module SchedulerSteps {
  import opened Wrappers
  import opened Schedules

  // ---------- rows ----------

  function WithSchedule(db: Db, s: nat, sched: Schedule): Db
    requires s < |db.schedules|
  {
    db.(schedules := db.schedules[s := sched])
  }

  function WithNextFire(db: Db, s: nat, next: Option<Instant>): Db
    requires s < |db.schedules|
  {
    WithSchedule(db, s, db.schedules[s].(nextFireAt := next))
  }

  function WithOccurrence(db: Db, i: nat, occ: Occurrence): Db
    requires i < |db.occs|
  {
    db.(occs := db.occs[i := occ])
  }

  /** A first attempt produced by the trigger. */
  function RegularRow(s: nat, rev: nat, at: Instant, status: Status): Occurrence {
    Occurrence(s, rev, at, status, 1, None, None, None, false)
  }

  function Record(db: Db, occ: Occurrence): Db {
    db.(occs := db.occs + [occ])
  }

  /** One regular row per instant, in order. */
  function RecordAll(db: Db, s: nat, rev: nat, instants: seq<Instant>, status: Status): Db {
    db.(occs := db.occs + seq(|instants|, k requires 0 <= k < |instants| => RegularRow(s, rev, instants[k], status)))
  }

  predicate OnlyScheduleChanged(db: Db, db': Db, s: nat) {
    && |db'.schedules| == |db.schedules| && db'.revs == db.revs
    && forall t :: 0 <= t < |db.schedules| && t != s ==> db'.schedules[t] == db.schedules[t]
  }

  // ---------- tick ----------

  /** An open transaction: the rows so far and the occurrences to launch after the commit. */
  datatype Tx = Tx(db: Db, launches: seq<nat>)

  /** An answer of the query for due queued rows, ordered by scheduled_for with ties in any order. */
  ghost predicate IsDrainOrder(db: Db, now: Instant, order: seq<nat>) {
    && (forall k :: 0 <= k < |order| ==> order[k] < |db.occs|)
    && (forall i :: 0 <= i < |db.occs| ==>
          (i in order <==> db.occs[i].status == Queued && db.occs[i].scheduledFor <= now))
    && (forall j, k :: 0 <= j < k < |order| ==>
          order[j] != order[k] && db.occs[order[j]].scheduledFor <= db.occs[order[k]].scheduledFor)
  }

  predicate IsDue(sched: Schedule, now: Instant) {
    sched.enabled && sched.nextFireAt.Some? && sched.nextFireAt.value <= now
  }

  /** An answer of the query for due schedules, in any order. */
  ghost predicate IsDueList(db: Db, now: Instant, due: seq<nat>) {
    && (forall k :: 0 <= k < |due| ==> due[k] < |db.schedules|)
    && (forall s :: 0 <= s < |db.schedules| ==> (s in due <==> IsDue(db.schedules[s], now)))
    && (forall j, k :: 0 <= j < k < |due| ==> due[j] != due[k])
  }

  function Start(db: Db, i: nat, now: Instant): Db
    requires i < |db.occs|
  {
    WithOccurrence(db, i, db.occs[i].(status := Running, startedAt := Some(now)))
  }

  function DrainOne(tx: Tx, i: nat, now: Instant): Tx
    requires i < |tx.db.occs|
  {
    if HasRunning(tx.db.occs, tx.db.occs[i].sched) then tx
    else Tx(Start(tx.db, i, now), tx.launches + [i])
  }

  function Drain(tx: Tx, order: seq<nat>, now: Instant): (r: Tx)
    requires forall k :: 0 <= k < |order| ==> order[k] < |tx.db.occs|
    ensures |r.db.occs| == |tx.db.occs|
    ensures r.db == tx.db.(occs := r.db.occs)
    ensures forall i :: 0 <= i < |tx.db.occs| ==>
              r.db.occs[i] == tx.db.occs[i] || r.db.occs[i] == tx.db.occs[i].(status := Running, startedAt := Some(now))
  {
    if order == [] then tx
    else
      var last := |order| - 1;
      DrainOne(Drain(tx, order[..last], now), order[last], now)
  }

  /** cancel_previous marks the row; stopping its task is not visible in the database. */
  function Cancel(db: Db, i: nat, now: Instant): Db
    requires i < |db.occs|
  {
    WithOccurrence(db, i, db.occs[i].(status := Cancelled, finishedAt := Some(now)))
  }

  /** Fires a schedule whose stored instant is due, under its current revision. */
  function FireDue(cal: Calendar, tx: Tx, s: nat, hint: nat, now: Instant): (r: Tx)
    requires Advancing(cal) && WellFormed(tx.db)
    requires s < |tx.db.schedules| && tx.db.schedules[s].nextFireAt.Some?
    ensures WellFormed(r.db) && OnlyScheduleChanged(tx.db, r.db, s)
  {
    var db, sched := tx.db, tx.db.schedules[s];
    if sched.currentRev.None? then tx.(db := WithNextFire(db, s, None))
    else
      var rev, due := sched.currentRev.value, sched.nextFireAt.value;
      var config := db.revs[rev].config;
      var next := NextFire(cal, config.trigger, due);
      var open := OpenOccurrence(db.occs, s, hint);
      if open.Some? && config.overlap == OverlapSkip then
        tx.(db := WithNextFire(Record(db, RegularRow(s, rev, due, SkippedOverlap)), s, next))
      else if open.Some? && config.overlap == OverlapQueue then
        tx.(db := WithNextFire(Record(db, RegularRow(s, rev, due, Queued)), s, next))
      else
        var before := if open.Some? && config.overlap == CancelPrevious then Cancel(db, open.value, now) else db;
        var fired := Record(before, RegularRow(s, rev, due, Running).(startedAt := Some(now)));
        Tx(WithSchedule(fired, s, sched.(lastFiredAt := Some(now), nextFireAt := next)), tx.launches + [|db.occs|])
  }

  function HintFor(hints: map<nat, nat>, s: nat): nat {
    if s in hints then hints[s] else 0
  }

  function FireAll(cal: Calendar, tx: Tx, due: seq<nat>, hints: map<nat, nat>, now: Instant): (r: Tx)
    requires Advancing(cal) && WellFormed(tx.db)
    requires forall k :: 0 <= k < |due| ==> due[k] < |tx.db.schedules| && tx.db.schedules[due[k]].nextFireAt.Some?
    requires forall j, k :: 0 <= j < k < |due| ==> due[j] != due[k]
    ensures WellFormed(r.db) && |r.db.schedules| == |tx.db.schedules|
    ensures forall s :: 0 <= s < |tx.db.schedules| && s !in due ==> r.db.schedules[s] == tx.db.schedules[s]
  {
    if due == [] then tx
    else
      var last := |due| - 1;
      FireDue(cal, FireAll(cal, tx, due[..last], hints, now), due[last], HintFor(hints, due[last]), now)
  }

  /** After the commit every launch becomes a live task. */
  function Launch(tx: Tx): Db {
    tx.db.(live := tx.db.live + map i | i in tx.launches :: Spawned, launched := tx.db.launched + tx.launches)
  }

  function TickStep(cal: Calendar, db: Db, order: seq<nat>, due: seq<nat>, hints: map<nat, nat>, now: Instant): Db
    requires Advancing(cal) && WellFormed(db)
    requires IsDrainOrder(db, now, order) && IsDueList(db, now, due)
  {
    Launch(FireAll(cal, Drain(Tx(db, []), order, now), due, hints, now))
  }

  // ---------- execution ----------

  /** Phase 1: a task whose row is no longer running gives up silently. */
  function BeginStep(db: Db, i: nat): Db
    requires i < |db.occs|
  {
    if db.occs[i].status == Running then db.(live := db.live[i := InRun]) else db.(live := db.live - {i})
  }

  function PreambleFailsStep(db: Db, i: nat, now: Instant): Db
    requires i < |db.occs|
  {
    var db1 := db.(live := db.live - {i});
    if db.occs[i].status == Running then WithOccurrence(db1, i, db.occs[i].(status := Failed, finishedAt := Some(now)))
    else db1
  }

  /** A zero back-off counts as missing, and a missing one means a minute. */
  function Backoff(backoff: int, attempt: nat): int {
    (if backoff == 0 then MINUTE else backoff) * attempt
  }

  function MaybeRetry(db: Db, i: nat, now: Instant): Db
    requires i < |db.occs| && db.occs[i].rev < |db.revs|
  {
    var occ := db.occs[i];
    match db.revs[occ.rev].config.failure
    case NoRetry => db
    case BoundedRetry(maxAttempts, backoff) =>
      if occ.attempt >= maxAttempts then db
      else Record(db, Occurrence(occ.sched, occ.rev, now + Backoff(backoff, occ.attempt), Queued, occ.attempt + 1,
                                 Some(i), None, None, false))
  }

  /** Phase 2: the outcome overwrites whatever status the row has by now. The clock is read twice, for the end
      of the row and for its retry. */
  function FinishStep(db: Db, i: nat, outcome: Status, now: Instant, later: Instant): Db
    requires WellFormed(db) && i < |db.occs|
  {
    var db1 := db.(live := db.live - {i});
    var occ := db.occs[i].(status := outcome, finishedAt := Some(now));
    var sched := db.schedules[occ.sched].(lastStatus := Some(outcome));
    var db2 := WithOccurrence(db1, i, occ);
    if outcome == Completed then WithSchedule(db2, occ.sched, sched.(consecutiveFailures := 0))
    else
      MaybeRetry(WithSchedule(db2, occ.sched, sched.(consecutiveFailures := sched.consecutiveFailures + 1)), i, later)
  }

  // ---------- restart and sweep ----------

  function ReconcileStep(db: Db, now: Instant): Db {
    db.(occs := seq(|db.occs|, i requires 0 <= i < |db.occs| =>
      if db.occs[i].status == Running then db.occs[i].(status := Cancelled, finishedAt := Some(now)) else db.occs[i]))
  }

  datatype Gap = Gap(instants: seq<Instant>, cursor: Instant)

  /** The missed instants from `cursor` up to `now`, at most `room` of them, and where the walk stopped. */
  function Collect(cal: Calendar, trigger: Trigger, cursor: Instant, now: Instant, room: nat): (gap: Gap)
    requires Advancing(cal) && ValidTrigger(trigger)
    decreases room
  {
    if cursor < now && room > 0 then
      var next := NextFire(cal, trigger, cursor);
      var rest := Collect(cal, trigger, if next.Some? then next.value else now, now, room - 1);
      Gap([cursor] + rest.instants, rest.cursor)
    else Gap([], cursor)
  }

  function MissedInstants(cal: Calendar, trigger: Trigger, cursor: Instant, now: Instant): (gap: Gap)
    requires Advancing(cal) && ValidTrigger(trigger)
  {
    var gap := Collect(cal, trigger, cursor, now, CATCH_UP_MAX);
    if trigger.Once? && gap.instants != [] then gap.(instants := gap.instants[..1]) else gap
  }

  function ApplyMissed(db: Db, s: nat, rev: nat, missed: Missed, instants: seq<Instant>): (r: Db)
    requires instants != []
    ensures r == db.(occs := r.occs) && db.occs <= r.occs
    ensures forall i :: |db.occs| <= i < |r.occs| ==> r.occs[i].sched == s && r.occs[i].rev == rev
  {
    var last := instants[|instants| - 1];
    match missed
    case MissedSkip => Record(db, RegularRow(s, rev, last, SkippedMissed))
    case RunOnce => Record(db, RegularRow(s, rev, last, Queued))
    case CatchUp => RecordAll(db, s, rev, instants, Queued)
    case MissedNull => db
  }

  function SweepStep(cal: Calendar, db: Db, s: nat, now: Instant): (r: Db)
    requires Advancing(cal) && WellFormed(db) && s < |db.schedules|
    ensures WellFormed(r) && OnlyScheduleChanged(db, r, s)
  {
    var sched := db.schedules[s];
    if sched.currentRev.None? then db
    else
      var rev := sched.currentRev.value;
      var config := db.revs[rev].config;
      if sched.nextFireAt.None? then WithNextFire(db, s, NextFire(cal, config.trigger, now))
      else
        var gap := MissedInstants(cal, config.trigger, sched.nextFireAt.value, now);
        if gap.instants == [] then db
        else
          WithNextFire(ApplyMissed(db, s, rev, config.missed, gap.instants), s,
                       if gap.cursor > now then Some(gap.cursor) else NextFire(cal, config.trigger, now))
  }

  /** An answer of the query for schedules whose instant has passed. */
  ghost predicate IsOverdueList(db: Db, now: Instant, overdue: seq<nat>) {
    && (forall k :: 0 <= k < |overdue| ==> overdue[k] < |db.schedules|)
    && (forall s :: 0 <= s < |db.schedules| ==> (s in overdue <==>
          db.schedules[s].enabled && db.schedules[s].nextFireAt.Some? && db.schedules[s].nextFireAt.value < now))
    && (forall j, k :: 0 <= j < k < |overdue| ==> overdue[j] != overdue[k])
  }

  function SweepAll(cal: Calendar, db: Db, overdue: seq<nat>, now: Instant): (r: Db)
    requires Advancing(cal) && WellFormed(db)
    requires forall k :: 0 <= k < |overdue| ==> overdue[k] < |db.schedules|
    ensures WellFormed(r) && |r.schedules| == |db.schedules|
  {
    if overdue == [] then db
    else SweepStep(cal, SweepAll(cal, db, overdue[..|overdue| - 1], now), overdue[|overdue| - 1], now)
  }

  // ---------- edits ----------

  /** The highest revision number of a schedule, 0 when it has none. */
  function MaxNumber(revs: seq<Revision>, s: nat): nat {
    if revs == [] then 0
    else
      var last := revs[|revs| - 1];
      var rest := MaxNumber(revs[..|revs| - 1], s);
      if last.sched == s && last.number > rest then last.number else rest
  }

  function WriteRevision(db: Db, s: nat, config: Config): (r: Db)
    requires s < |db.schedules|
  {
    var db1 := db.(revs := db.revs + [Revision(s, MaxNumber(db.revs, s) + 1, config)]);
    WithSchedule(db1, s, db1.schedules[s].(currentRev := Some(|db.revs|)))
  }

  /** A changed configuration becomes a new revision; an unchanged one writes nothing. */
  function Revise(db: Db, s: nat, config: Config): (r: Db)
    requires WellFormed(db) && s < |db.schedules| && ValidTrigger(config.trigger)
    ensures WellFormed(r) && |r.schedules| == |db.schedules|
    ensures r.schedules[s].currentRev.Some? && r.revs[r.schedules[s].currentRev.value].config == config
    ensures r.schedules[s] == db.schedules[s].(currentRev := r.schedules[s].currentRev)
  {
    var rev := db.schedules[s].currentRev;
    if rev.None? || db.revs[rev.value].config != config then WriteRevision(db, s, config) else db
  }

  function EditStep(cal: Calendar, db: Db, s: nat, config: Config, enabled: bool, now: Instant): Db
    requires Advancing(cal) && WellFormed(db) && s < |db.schedules| && ValidTrigger(config.trigger)
  {
    var rev := db.schedules[s].currentRev;
    var triggerChanged := rev.None? || db.revs[rev.value].config.trigger != config.trigger;
    var db1 := Revise(db, s, config);
    var db2 := WithSchedule(db1, s, db1.schedules[s].(enabled := enabled));
    if !enabled then db2
    else if triggerChanged then WithNextFire(db2, s, NextFire(cal, config.trigger, now))
    else if !db.schedules[s].enabled then SweepStep(cal, db2, s, now)
    else db2
  }

  function FreshSchedule(enabled: bool): Schedule {
    Schedule(enabled, false, None, None, None, None, 0)
  }

  function CreateStep(cal: Calendar, db: Db, config: Config, enabled: bool, now: Instant): (r: Db)
    requires Advancing(cal) && WellFormed(db) && ValidTrigger(config.trigger)
  {
    var s := |db.schedules|;
    var db1 := WriteRevision(db.(schedules := db.schedules + [FreshSchedule(enabled)]), s, config);
    WithNextFire(db1, s, if enabled then NextFire(cal, config.trigger, now) else None)
  }

  /** Projects an agent's heartbeat onto its managed schedule; the schedule exists already. */
  function SyncHeartbeatStep(cal: Calendar, db: Db, s: nat, config: Config, enabled: bool, now: Instant): Db
    requires Advancing(cal) && WellFormed(db) && s < |db.schedules| && ValidTrigger(config.trigger)
  {
    var rev := db.schedules[s].currentRev;
    var triggerChanged := rev.Some? && db.revs[rev.value].config.trigger != config.trigger;
    var db1 := Revise(db, s, config);
    var sched := db1.schedules[s].(enabled := enabled);
    WithSchedule(db1, s,
      if !enabled then sched.(nextFireAt := None)
      else if triggerChanged || sched.nextFireAt.None? then sched.(nextFireAt := NextFire(cal, config.trigger, now))
      else sched)
  }

  function ResumeStep(cal: Calendar, db: Db, s: nat, now: Instant): Db
    requires Advancing(cal) && WellFormed(db) && s < |db.schedules|
  {
    SweepStep(cal, WithSchedule(db, s, db.schedules[s].(enabled := true)), s, now)
  }

  function RunNowStep(db: Db, s: nat, rev: nat, now: Instant): Db {
    var i := |db.occs|;
    var db1 := Record(db, Occurrence(s, rev, now, Running, 1, None, Some(now), None, true));
    db1.(live := db1.live[i := Spawned], launched := db1.launched + [i])
  }

  // ---------- runs ----------

  datatype Event =
    | Tick(now: Instant, order: seq<nat>, due: seq<nat>, hints: map<nat, nat>)
    | Begin(occ: nat)
    | PreambleFails(occ: nat, now: Instant)
    | Finish(occ: nat, outcome: Status, now: Instant, later: Instant)
    | OutcomeLost(occ: nat)
    | Restart
    | Reconcile(now: Instant)
    | Sweep(now: Instant, overdue: seq<nat>)
    | Create(config: Config, enabled: bool, now: Instant)
    | Edit(s: nat, config: Config, enabled: bool, now: Instant)
    | SyncHeartbeat(s: nat, config: Config, enabled: bool, now: Instant)
    | Pause(s: nat)
    | Resume(s: nat, now: Instant)
    | Archive(s: nat)
    | Unarchive(s: nat)
    | RunNow(s: nat, now: Instant)

  ghost predicate CanHappen(db: Db, ev: Event) {
    && WellFormed(db)
    && match ev
       case Tick(now, order, due, _) => IsDrainOrder(db, now, order) && IsDueList(db, now, due)
       case Begin(i) => i in db.live && db.live[i] == Spawned
       case PreambleFails(i, _) => i in db.live && db.live[i] == Spawned
       case Finish(i, outcome, now, later) =>
         i in db.live && db.live[i] == InRun && outcome in {Completed, Failed, Cancelled} && now <= later
       case OutcomeLost(i) => i in db.live && db.live[i] == InRun
       case Restart => true
       case Reconcile(_) => db.live == map[]
       case Sweep(now, overdue) => IsOverdueList(db, now, overdue)
       case Create(config, _, _) => ValidTrigger(config.trigger)
       case Edit(s, config, _, _) => s < |db.schedules| && !db.schedules[s].archived && ValidTrigger(config.trigger)
       case SyncHeartbeat(s, config, _, _) => s < |db.schedules| && ValidTrigger(config.trigger)
       case Pause(s) => s < |db.schedules| && !db.schedules[s].archived
       case Resume(s, _) => s < |db.schedules| && !db.schedules[s].archived
       case Archive(s) => s < |db.schedules| && !db.schedules[s].archived
       case Unarchive(s) => s < |db.schedules| && db.schedules[s].archived
       case RunNow(s, _) => s < |db.schedules| && !db.schedules[s].archived && db.schedules[s].currentRev.Some?
  }

  ghost function Step(cal: Calendar, db: Db, ev: Event): Db
    requires Advancing(cal) && CanHappen(db, ev)
  {
    match ev
    case Tick(now, order, due, hints) => TickStep(cal, db, order, due, hints, now)
    case Begin(i) => BeginStep(db, i)
    case PreambleFails(i, now) => PreambleFailsStep(db, i, now)
    case Finish(i, outcome, now, later) => FinishStep(db, i, outcome, now, later)
    case OutcomeLost(i) => db.(live := db.live - {i})
    case Restart => db.(live := map[])
    case Reconcile(now) => ReconcileStep(db, now)
    case Sweep(now, overdue) => SweepAll(cal, db, overdue, now)
    case Create(config, enabled, now) => CreateStep(cal, db, config, enabled, now)
    case Edit(s, config, enabled, now) => EditStep(cal, db, s, config, enabled, now)
    case SyncHeartbeat(s, config, enabled, now) => SyncHeartbeatStep(cal, db, s, config, enabled, now)
    case Pause(s) => WithSchedule(db, s, db.schedules[s].(enabled := false))
    case Resume(s, now) => ResumeStep(cal, db, s, now)
    case Archive(s) => WithSchedule(db, s, db.schedules[s].(enabled := false, archived := true, nextFireAt := None))
    case Unarchive(s) => WithSchedule(db, s, db.schedules[s].(archived := false))
    case RunNow(s, now) => RunNowStep(db, s, db.schedules[s].currentRev.value, now)
  }
}
