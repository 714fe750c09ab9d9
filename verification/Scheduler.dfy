/** The scheduler engine as the program runs it: queries, loops and row updates in place. Every
    method is proved to do to the tables exactly what its step function says. */
module Scheduler {
  import opened Wrappers
  import opened Schedules
  import opened SchedulerSteps

  class Engine {
    const cal: Calendar
    var schedules: seq<Schedule>
    var revs: seq<Revision>
    var occs: seq<Occurrence>
    var live: map<nat, Phase>
    var launched: seq<nat>

    constructor (cal: Calendar)
      ensures State() == Db([], [], [], map[], []) && this.cal == cal
    {
      this.cal := cal;
      schedules, revs, occs, live, launched := [], [], [], map[], [];
    }

    ghost function State(): Db
      reads this
    {
      Db(schedules, revs, occs, live, launched)
    }

    // ---------- rows ----------

    method RecordOccurrence(occ: Occurrence) returns (id: nat)
      modifies this`occs
      ensures State() == Record(old(State()), occ) && id == old(|occs|)
    {
      id := |occs|;
      occs := occs + [occ];
    }

    method CancelOccurrence(i: nat, now: Instant)
      requires i < |occs|
      modifies this`occs
      ensures State() == Cancel(old(State()), i, now)
    {
      occs := occs[i := occs[i].(status := Cancelled, finishedAt := Some(now))];
    }

    // ---------- tick ----------

    method DrainQueued(order: seq<nat>, now: Instant) returns (launchIds: seq<nat>)
      requires forall k :: 0 <= k < |order| ==> order[k] < |occs|
      modifies this`occs
      ensures Tx(State(), launchIds) == Drain(Tx(old(State()), []), order, now)
    {
      launchIds := [];
      for k := 0 to |order|
        invariant |occs| == old(|occs|)
        invariant Tx(State(), launchIds) == Drain(Tx(old(State()), []), order[..k], now)
      {
        assert order[..k + 1][..k] == order[..k];
        var i := order[k];
        if !HasRunning(occs, occs[i].sched) {
          occs := occs[i := occs[i].(status := Running, startedAt := Some(now))];
          launchIds := launchIds + [i];
        }
      }
      assert order[..|order|] == order;
    }

    /** Returns the occurrence to launch, or none when the overlap policy consumed the instant. */
    method FireDueSchedule(s: nat, hint: nat, now: Instant, ghost launches: seq<nat>) returns (fired: Option<nat>)
      requires Advancing(cal) && WellFormed(State())
      requires s < |schedules| && schedules[s].nextFireAt.Some?
      modifies this`schedules, this`occs
      ensures Tx(State(), if fired.Some? then launches + [fired.value] else launches) ==
              FireDue(cal, Tx(old(State()), launches), s, hint, now)
    {
      if schedules[s].currentRev.None? {
        schedules := schedules[s := schedules[s].(nextFireAt := None)];
        return None;
      }
      var rev, due := schedules[s].currentRev.value, schedules[s].nextFireAt.value;
      var config := revs[rev].config;
      var next := NextFire(cal, config.trigger, due);
      var open := OpenOccurrence(occs, s, hint);
      if open.Some? && config.overlap == OverlapSkip {
        var _ := RecordOccurrence(RegularRow(s, rev, due, SkippedOverlap));
        schedules := schedules[s := schedules[s].(nextFireAt := next)];
        return None;
      }
      if open.Some? && config.overlap == OverlapQueue {
        var _ := RecordOccurrence(RegularRow(s, rev, due, Queued));
        schedules := schedules[s := schedules[s].(nextFireAt := next)];
        return None;
      }
      if open.Some? && config.overlap == CancelPrevious {
        CancelOccurrence(open.value, now);
      }
      var id := RecordOccurrence(RegularRow(s, rev, due, Running).(startedAt := Some(now)));
      schedules := schedules[s := schedules[s].(lastFiredAt := Some(now), nextFireAt := next)];
      return Some(id);
    }

    method FireDueSchedules(due: seq<nat>, hints: map<nat, nat>, now: Instant, before: seq<nat>)
      returns (launchIds: seq<nat>)
      requires Advancing(cal) && WellFormed(State())
      requires forall k :: 0 <= k < |due| ==> due[k] < |schedules| && schedules[due[k]].nextFireAt.Some?
      requires forall j, k :: 0 <= j < k < |due| ==> due[j] != due[k]
      modifies this`schedules, this`occs
      ensures live == old(live) && launched == old(launched)
      ensures Tx(State(), launchIds) == FireAll(cal, Tx(old(State()), before), due, hints, now)
    {
      launchIds := before;
      for k := 0 to |due|
        invariant Tx(State(), launchIds) == FireAll(cal, Tx(old(State()), before), due[..k], hints, now)
      {
        FireAllSnoc(cal, Tx(old(State()), before), due, hints, now, k);
        var fired := FireDueSchedule(due[k], HintFor(hints, due[k]), now, launchIds);
        if fired.Some? {
          launchIds := launchIds + [fired.value];
        }
      }
      assert due[..|due|] == due;
    }

    /** order and due are the answers of the two queries, hints steer the ties inside the third. */
    method Tick(now: Instant, order: seq<nat>, due: seq<nat>, hints: map<nat, nat>)
      requires Advancing(cal) && WellFormed(State())
      requires IsDrainOrder(State(), now, order) && IsDueList(State(), now, due)
      modifies this`schedules, this`occs, this`live, this`launched
      ensures State() == TickStep(cal, old(State()), order, due, hints, now)
    {
      var drained := DrainQueued(order, now);
      ghost var tx := Drain(Tx(old(State()), []), order, now);
      assert State() == tx.db && drained == tx.launches;
      DrainKeepsShape(old(State()), order, now);
      var launchIds := FireDueSchedules(due, hints, now, drained);
      LaunchAll(launchIds);
    }

    method LaunchAll(launchIds: seq<nat>)
      modifies this`live, this`launched
      ensures State() == Launch(Tx(old(State()), launchIds))
    {
      for k := 0 to |launchIds|
        invariant live == old(live) + map i | i in launchIds[..k] :: Spawned
        invariant launched == old(launched) + launchIds[..k]
        invariant schedules == old(schedules) && revs == old(revs) && occs == old(occs)
      {
        assert launchIds[..k + 1] == launchIds[..k] + [launchIds[k]];
        live := live[launchIds[k] := Spawned];
        launched := launched + [launchIds[k]];
      }
      assert launchIds[..|launchIds|] == launchIds;
    }

    // ---------- execution ----------

    method MaybeRetryFailed(i: nat, now: Instant)
      requires i < |occs| && occs[i].rev < |revs|
      modifies this`occs
      ensures State() == MaybeRetry(old(State()), i, now)
    {
      var failure := revs[occs[i].rev].config.failure;
      if failure.NoRetry? {
        return;
      }
      if occs[i].attempt >= failure.maxAttempts {
        return;
      }
      var at := now + Backoff(failure.backoff, occs[i].attempt);
      var _ := RecordOccurrence(
        Occurrence(occs[i].sched, occs[i].rev, at, Queued, occs[i].attempt + 1, Some(i), None, None, false));
    }

    method PersistOutcome(i: nat, outcome: Status, now: Instant, later: Instant)
      requires WellFormed(State()) && i < |occs|
      modifies this`schedules, this`occs, this`live
      ensures State() == FinishStep(old(State()), i, outcome, now, later)
    {
      live := live - {i};
      occs := occs[i := occs[i].(status := outcome, finishedAt := Some(now))];
      var s := occs[i].sched;
      schedules := schedules[s := schedules[s].(lastStatus := Some(outcome))];
      if outcome == Completed {
        schedules := schedules[s := schedules[s].(consecutiveFailures := 0)];
      } else {
        schedules := schedules[s := schedules[s].(consecutiveFailures := schedules[s].consecutiveFailures + 1)];
        MaybeRetryFailed(i, later);
      }
    }

    // ---------- restart and sweep ----------

    method ReconcileStale(now: Instant)
      modifies this`occs
      ensures State() == ReconcileStep(old(State()), now)
    {
      ghost var done := ReconcileStep(State(), now).occs;
      for i := 0 to |occs|
        invariant |occs| == old(|occs|)
        invariant occs[..i] == done[..i] && occs[i..] == old(occs)[i..]
      {
        assert occs[i] == occs[i..][0] == old(occs)[i];
        if occs[i].status == Running {
          occs := occs[i := occs[i].(status := Cancelled, finishedAt := Some(now))];
        }
        assert occs[..i + 1] == done[..i + 1];
      }
      assert occs == occs[..|occs|] == done;
    }

    /** The bounded walk over missed instants. */
    method CollectMissed(trigger: Trigger, anchor: Instant, now: Instant) returns (gap: Gap)
      requires Advancing(cal) && ValidTrigger(trigger)
      ensures gap == MissedInstants(cal, trigger, anchor, now)
    {
      var instants, cursor := [], anchor;
      while cursor < now && |instants| < CATCH_UP_MAX
        invariant |instants| <= CATCH_UP_MAX
        invariant IsCollecting(cal, trigger, anchor, now, instants, cursor)
        decreases CATCH_UP_MAX - |instants|
      {
        var next := NextFire(cal, trigger, cursor);
        CollectNext(cal, trigger, anchor, now, instants, cursor);
        instants := instants + [cursor];
        cursor := if next.Some? then next.value else now;
      }
      assert Gap(instants, cursor) == Collect(cal, trigger, anchor, now, CATCH_UP_MAX) by {
        assert instants + [] == instants;
      }
      if trigger.Once? && instants != [] {
        instants := instants[..1];
      }
      gap := Gap(instants, cursor);
    }

    method SweepSchedule(s: nat, now: Instant)
      requires Advancing(cal) && WellFormed(State()) && s < |schedules|
      modifies this`schedules, this`occs
      ensures State() == SweepStep(cal, old(State()), s, now)
    {
      if schedules[s].currentRev.None? {
        return;
      }
      var rev := schedules[s].currentRev.value;
      var config := revs[rev].config;
      if schedules[s].nextFireAt.None? {
        schedules := schedules[s := schedules[s].(nextFireAt := NextFire(cal, config.trigger, now))];
        return;
      }
      var gap := CollectMissed(config.trigger, schedules[s].nextFireAt.value, now);
      if gap.instants == [] {
        return;
      }
      RecordMissed(s, rev, config.missed, gap.instants);
      var next := if gap.cursor > now then Some(gap.cursor) else NextFire(cal, config.trigger, now);
      schedules := schedules[s := schedules[s].(nextFireAt := next)];
    }

    method RecordMissed(s: nat, rev: nat, missed: Missed, instants: seq<Instant>)
      requires instants != []
      modifies this`occs
      ensures State() == ApplyMissed(old(State()), s, rev, missed, instants)
    {
      match missed {
        case MissedSkip =>
          var _ := RecordOccurrence(RegularRow(s, rev, instants[|instants| - 1], SkippedMissed));
        case RunOnce =>
          var _ := RecordOccurrence(RegularRow(s, rev, instants[|instants| - 1], Queued));
        case CatchUp =>
          for k := 0 to |instants|
            invariant State() == RecordAll(old(State()), s, rev, instants[..k], Queued)
          {
            var _ := RecordOccurrence(RegularRow(s, rev, instants[k], Queued));
          }
          assert instants[..|instants|] == instants;
        case MissedNull =>
      }
    }

    method SweepMissed(overdue: seq<nat>, now: Instant)
      requires Advancing(cal) && WellFormed(State()) && IsOverdueList(State(), now, overdue)
      modifies this`schedules, this`occs
      ensures State() == SweepAll(cal, old(State()), overdue, now)
    {
      for k := 0 to |overdue|
        invariant State() == SweepAll(cal, old(State()), overdue[..k], now)
      {
        assert overdue[..k + 1][..k] == overdue[..k];
        SweepSchedule(overdue[k], now);
      }
      assert overdue[..|overdue|] == overdue;
    }

    // ---------- heartbeat ----------

    method SyncHeartbeatSchedule(s: nat, config: Config, enabled: bool, now: Instant)
      requires Advancing(cal) && WellFormed(State()) && s < |schedules| && ValidTrigger(config.trigger)
      modifies this`schedules, this`revs
      ensures State() == SyncHeartbeatStep(cal, old(State()), s, config, enabled, now)
    {
      var triggerChanged := false;
      var rev := schedules[s].currentRev;
      if rev.None? || revs[rev.value].config != config {
        triggerChanged := rev.Some? && revs[rev.value].config.trigger != config.trigger;
        revs := revs + [Revision(s, MaxNumber(revs, s) + 1, config)];
        schedules := schedules[s := schedules[s].(currentRev := Some(|revs| - 1))];
      }
      schedules := schedules[s := schedules[s].(enabled := enabled)];
      if enabled {
        if triggerChanged || schedules[s].nextFireAt.None? {
          schedules := schedules[s := schedules[s].(nextFireAt := NextFire(cal, config.trigger, now))];
        }
      } else {
        schedules := schedules[s := schedules[s].(nextFireAt := None)];
      }
    }
  }

  /** The drain touches nothing but statuses, so the tables stay well formed and the same schedules are due. */
  lemma DrainKeepsShape(db: Db, order: seq<nat>, now: Instant)
    requires WellFormed(db) && forall k :: 0 <= k < |order| ==> order[k] < |db.occs|
    ensures WellFormed(Drain(Tx(db, []), order, now).db)
  {
  }

  lemma FireAllSnoc(cal: Calendar, tx: Tx, due: seq<nat>, hints: map<nat, nat>, now: Instant, k: nat)
    requires Advancing(cal) && WellFormed(tx.db) && k < |due|
    requires forall j :: 0 <= j < |due| ==> due[j] < |tx.db.schedules| && tx.db.schedules[due[j]].nextFireAt.Some?
    requires forall i, j :: 0 <= i < j < |due| ==> due[i] != due[j]
    ensures var mid := FireAll(cal, tx, due[..k], hints, now);
            && mid.db.schedules[due[k]].nextFireAt.Some?
            && FireAll(cal, tx, due[..k + 1], hints, now) == FireDue(cal, mid, due[k], HintFor(hints, due[k]), now)
  {
    assert due[..k + 1][..k] == due[..k];
    assert due[k] !in due[..k];
  }

  /** What has been gathered, and the walk still to come, make up the whole walk. */
  ghost predicate IsCollecting(cal: Calendar, trigger: Trigger, anchor: Instant, now: Instant, instants: seq<Instant>,
                               cursor: Instant)
    requires Advancing(cal) && ValidTrigger(trigger)
  {
    && |instants| <= CATCH_UP_MAX
    && var rest := Collect(cal, trigger, cursor, now, CATCH_UP_MAX - |instants|);
       Collect(cal, trigger, anchor, now, CATCH_UP_MAX) == Gap(instants + rest.instants, rest.cursor)
  }

  lemma CollectNext(cal: Calendar, trigger: Trigger, anchor: Instant, now: Instant, instants: seq<Instant>,
                    cursor: Instant)
    requires Advancing(cal) && ValidTrigger(trigger)
    requires IsCollecting(cal, trigger, anchor, now, instants, cursor) && cursor < now && |instants| < CATCH_UP_MAX
    ensures var next := NextFire(cal, trigger, cursor);
            IsCollecting(cal, trigger, anchor, now, instants + [cursor], if next.Some? then next.value else now)
  {
    var next := NextFire(cal, trigger, cursor);
    var here := Collect(cal, trigger, cursor, now, CATCH_UP_MAX - |instants|);
    var rest := Collect(cal, trigger, if next.Some? then next.value else now, now, CATCH_UP_MAX - |instants| - 1);
    GapNext(Collect(cal, trigger, anchor, now, CATCH_UP_MAX), instants, cursor, here, rest);
  }

  lemma GapNext(whole: Gap, instants: seq<Instant>, cursor: Instant, here: Gap, rest: Gap)
    requires whole == Gap(instants + here.instants, here.cursor) && here == Gap([cursor] + rest.instants, rest.cursor)
    ensures whole == Gap(instants + [cursor] + rest.instants, rest.cursor)
  {
    assert instants + ([cursor] + rest.instants) == instants + [cursor] + rest.instants;
  }
}
