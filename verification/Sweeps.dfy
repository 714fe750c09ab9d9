/** What the missed-run sweep does to a late schedule, and when it loses an instant or the phase. */
module Sweeps {
  import opened Wrappers
  import opened Schedules
  import opened SchedulerSteps
  import opened SchedulerRuns
  import opened QueueOrder
  import opened Cadence

  /** Whatever the trigger: a sweep leaves the stored instant in the future (or none, when a one-time trigger has
      nothing left) exactly unless it equals the clock already, which it then still does. At most CATCH_UP_MAX
      instants are considered, all in the past and none before the anchor, and some exactly when it is late. */
  lemma SweepMovesOn(cal: Calendar, db: Db, s: nat, now: Instant)
    requires Advancing(cal) && Sane(db) && s < |db.schedules| && db.schedules[s].currentRev.Some?
    ensures var db' := SweepStep(cal, db, s, now);
            var before, after := db.schedules[s].nextFireAt, db'.schedules[s].nextFireAt;
            var trigger := db.revs[db.schedules[s].currentRev.value].config.trigger;
            && ((after.None? || after.value > now) <==> before != Some(now))
            && (after.None? ==> trigger.Once?) && (before == Some(now) ==> db' == db)
            && (before.Some? ==>
                ConsidersOnlyPast(MissedInstants(cal, trigger, before.value, now).instants, before.value, now))
  {
    var trigger := db.revs[db.schedules[s].currentRev.value].config.trigger;
    if db.schedules[s].nextFireAt.Some? {
      CollectOrdered(cal, trigger, db.schedules[s].nextFireAt.value, now, CATCH_UP_MAX);
    }
  }

  predicate ConsidersOnlyPast(instants: seq<Instant>, anchor: Instant, now: Instant) {
    && |instants| <= CATCH_UP_MAX && (instants != [] <==> anchor < now)
    && forall k :: 0 <= k < |instants| ==> anchor <= instants[k] < now
  }

  /** The walk of an interval trigger visits the grid, and stops at the clock or when it is full. */
  lemma {:induction false} CollectGrid(cal: Calendar, d: int, a: Instant, now: Instant, room: nat)
    requires Advancing(cal) && d >= MINUTE
    ensures var gap := Collect(cal, Interval(d), a, now, room);
            var k := |gap.instants|;
            && gap.instants == Grid(a, d, k) && gap.cursor == Nth(a, d, k) && k <= room
            && (k < room ==> Nth(a, d, k) >= now) && (k > 0 ==> Nth(a, d, k - 1) < now)
    decreases room
  {
    if a < now && room > 0 {
      CollectGrid(cal, d, a + d, now, room - 1);
    }
  }

  /** How many instants a, a + d, ... lie before now: the quotient rounded up. */
  function MissedCount(a: Instant, d: int, now: Instant): nat
    requires d > 0 && a < now
  {
    (now - a + d - 1) / d
  }

  /** How many of them one sweep looks at. */
  function WalkCount(a: Instant, d: int, now: Instant): nat
    requires d > 0 && a < now
  {
    var m := MissedCount(a, d, now);
    if m <= CATCH_UP_MAX then m else CATCH_UP_MAX
  }

  predicate OnGrid(a: Instant, d: int, t: Instant)
    requires d > 0
  {
    (t - a) % d == 0
  }

  /** A quotient and remainder are recognised by their bounds. */
  lemma DivisionIs(x: int, q: int, r: int, d: int)
    requires x == q * d + r && 0 <= r < d
    ensures x / d == q && x % d == r
  {
    var q', r' := x / d, x % d;
    assert (q - q') * d == q * d - q' * d == r' - r;
    assert q - q' >= 1 ==> (q - q') * d >= d;
    assert q - q' <= -1 ==> (q - q') * d <= -d;
  }

  lemma MissedCountBounds(a: Instant, d: int, now: Instant)
    requires d > 0 && a < now
    ensures var m := MissedCount(a, d, now);
            m >= 1 && a + (m - 1) * d < now <= a + m * d && (OnGrid(a, d, now) <==> a + m * d == now)
  {
    var x := now - a;
    var q, r := x / d, x % d;
    assert x == q * d + r && (q + 1) * d == q * d + d;
    if r == 0 {
      DivisionIs(x + d - 1, q, d - 1, d);
      assert (q - 1) * d == q * d - d;
    } else {
      DivisionIs(x + d - 1, q + 1, r - 1, d);
    }
  }

  lemma GridShift(a: Instant, d: int, now: Instant, m: int)
    requires d > 0
    ensures OnGrid(a, d, a + m * d)
    ensures OnGrid(a, d, now + d) <==> OnGrid(a, d, now)
  {
    DivisionIs(m * d, m, 0, d);
    var q, r := (now - a) / d, (now - a) % d;
    assert now - a == q * d + r && (q + 1) * d == q * d + d;
    DivisionIs(now + d - a, q + 1, r, d);
  }

  /** Multiplying out is monotone. */
  lemma GridMonotone(j: int, k: int, d: int)
    requires j <= k && d > 0
    ensures j * d <= k * d
  {
  }

  lemma WalkLength(cal: Calendar, d: int, a: Instant, now: Instant)
    requires Advancing(cal) && d >= MINUTE && a < now
    ensures var k := WalkCount(a, d, now);
            Collect(cal, Interval(d), a, now, CATCH_UP_MAX) == Gap(Grid(a, d, k), a + k * d)
            && k >= 1 && |Grid(a, d, k)| == k
  {
    var m := MissedCount(a, d, now);
    var gap := Collect(cal, Interval(d), a, now, CATCH_UP_MAX);
    var k := |gap.instants|;
    CollectGrid(cal, d, a, now, CATCH_UP_MAX);
    CollectOrdered(cal, Interval(d), a, now, CATCH_UP_MAX);
    MissedCountBounds(a, d, now);
    NthClosedForm(a, d, k);
    NthClosedForm(a, d, k - 1);
    GridClosedForm(a, d, k);
    if m < k { GridMonotone(m, k - 1, d); }
    if k < m { GridMonotone(k, m - 1, d); }
  }

  ghost predicate LateInterval(db: Db, s: nat, rev: nat, d: int, missed: Missed, a: Instant, now: Instant) {
    && s < |db.schedules| && db.schedules[s].currentRev == Some(rev) && rev < |db.revs|
    && db.revs[rev].config.trigger == Interval(d) && db.revs[rev].config.missed == missed
    && db.schedules[s].nextFireAt == Some(a) && a < now
  }

  /** The sweep in terms of its walk: what it stores and what it records. */
  lemma SweepByWalk(cal: Calendar, db: Db, s: nat, rev: nat, d: int, missed: Missed, a: Instant, now: Instant, gap: Gap)
    requires Advancing(cal) && WellFormed(db) && LateInterval(db, s, rev, d, missed, a, now)
    requires gap == Collect(cal, Interval(d), a, now, CATCH_UP_MAX) && gap.instants != []
    ensures var db' := SweepStep(cal, db, s, now);
            && db'.schedules[s].nextFireAt == Some(if gap.cursor > now then gap.cursor else now + d)
            && db'.occs == ApplyMissed(db, s, rev, missed, gap.instants).occs
  {
  }

  /** Where an interval schedule goes next: on its own grid if the gap fits and does not end on
      `now`, otherwise a full beat from `now`. */
  function NextAfterSweep(a: Instant, d: int, now: Instant): Instant
    requires d > 0 && a < now
  {
    if MissedCount(a, d, now) <= CATCH_UP_MAX && !OnGrid(a, d, now) then a + MissedCount(a, d, now) * d else now + d
  }

  lemma WalkEnd(a: Instant, d: int, now: Instant)
    requires d > 0 && a < now
    ensures var c := a + WalkCount(a, d, now) * d;
            NextAfterSweep(a, d, now) == (if c > now then c else now + d)
  {
    MissedCountBounds(a, d, now);
    var m := MissedCount(a, d, now);
    if m > CATCH_UP_MAX { GridMonotone(CATCH_UP_MAX, m - 1, d); }
  }

  lemma SweepNext(cal: Calendar, db: Db, s: nat, rev: nat, d: int, missed: Missed, a: Instant, now: Instant)
    requires Advancing(cal) && WellFormed(db) && LateInterval(db, s, rev, d, missed, a, now)
    ensures SweepStep(cal, db, s, now).schedules[s].nextFireAt == Some(NextAfterSweep(a, d, now))
  {
    var k := WalkCount(a, d, now);
    WalkLength(cal, d, a, now);
    WalkEnd(a, d, now);
    SweepByWalk(cal, db, s, rev, d, missed, a, now, Gap(Grid(a, d, k), a + k * d));
  }

  /** The sweep keeps the phase of the schedule exactly when the gap fits, or ends on the grid anyway. */
  lemma PhaseKeptIff(cal: Calendar, db: Db, s: nat, rev: nat, d: int, missed: Missed, a: Instant, now: Instant)
    requires Advancing(cal) && WellFormed(db) && LateInterval(db, s, rev, d, missed, a, now)
    ensures OnGrid(a, d, SweepStep(cal, db, s, now).schedules[s].nextFireAt.value) <==>
            MissedCount(a, d, now) <= CATCH_UP_MAX || OnGrid(a, d, now)
  {
    SweepNext(cal, db, s, rev, d, missed, a, now);
    GridShift(a, d, now, MissedCount(a, d, now));
  }

  /** The rows a sweep over k instants writes, policy by policy. */
  ghost predicate SweptRowsAre(occs: seq<Occurrence>, occs': seq<Occurrence>, s: nat, rev: nat, missed: Missed,
                               a: Instant, d: int, k: nat)
  {
    && occs <= occs'
    && match missed
       case CatchUp => |occs'| == |occs| + k && forall j :: 0 <= j < k ==>
                         occs'[|occs| + j] == RegularRow(s, rev, a + j * d, Queued)
       case RunOnce => occs' == occs + [RegularRow(s, rev, a + (k - 1) * d, Queued)]
       case MissedSkip => occs' == occs + [RegularRow(s, rev, a + (k - 1) * d, SkippedMissed)]
       case MissedNull => occs' == occs
  }

  lemma SweepRecords(cal: Calendar, db: Db, s: nat, rev: nat, d: int, missed: Missed, a: Instant, now: Instant)
    requires Advancing(cal) && WellFormed(db) && LateInterval(db, s, rev, d, missed, a, now)
    ensures SweptRowsAre(db.occs, SweepStep(cal, db, s, now).occs, s, rev, missed, a, d, WalkCount(a, d, now))
  {
    var k := WalkCount(a, d, now);
    WalkLength(cal, d, a, now);
    SweepByWalk(cal, db, s, rev, d, missed, a, now, Gap(Grid(a, d, k), a + k * d));
    RecordedRows(db, s, rev, missed, a, d, k);
  }

  lemma RecordedRows(db: Db, s: nat, rev: nat, missed: Missed, a: Instant, d: int, k: nat)
    requires k >= 1 && |Grid(a, d, k)| == k
    ensures SweptRowsAre(db.occs, ApplyMissed(db, s, rev, missed, Grid(a, d, k)).occs, s, rev, missed, a, d, k)
  {
    GridClosedForm(a, d, k);
  }

  /** catch_up leaves no instant undecided exactly when the gap fits and `now` is not itself an instant:
      an instant equal to `now` is dropped, and so is everything past the limit. */
  lemma CatchUpCompleteIff(cal: Calendar, db: Db, s: nat, rev: nat, d: int, a: Instant, now: Instant)
    requires Advancing(cal) && WellFormed(db) && LateInterval(db, s, rev, d, CatchUp, a, now)
    ensures var db' := SweepStep(cal, db, s, now);
            db'.schedules[s].nextFireAt == Some(a + (|db'.occs| - |db.occs|) * d) <==>
            MissedCount(a, d, now) <= CATCH_UP_MAX && !OnGrid(a, d, now)
  {
    SweepNext(cal, db, s, rev, d, CatchUp, a, now);
    SweepRecords(cal, db, s, rev, d, CatchUp, a, now);
    WalkEndsOnNextIff(a, d, now);
  }

  lemma WalkEndsOnNextIff(a: Instant, d: int, now: Instant)
    requires d > 0 && a < now
    ensures NextAfterSweep(a, d, now) == a + WalkCount(a, d, now) * d <==>
            MissedCount(a, d, now) <= CATCH_UP_MAX && !OnGrid(a, d, now)
  {
    MissedCountBounds(a, d, now);
    var m := MissedCount(a, d, now);
    if m > CATCH_UP_MAX { GridMonotone(CATCH_UP_MAX, m - 1, d); }
  }

  // ---------- any trigger ----------

  /** Each instant is the trigger's next after the one before. */
  ghost predicate IsWalk(cal: Calendar, trigger: Trigger, instants: seq<Instant>)
    requires Advancing(cal) && ValidTrigger(trigger)
  {
    forall k :: 0 <= k < |instants| - 1 ==> NextFire(cal, trigger, instants[k]) == Some(instants[k + 1])
  }

  lemma {:induction false} CollectWalks(cal: Calendar, trigger: Trigger, cursor: Instant, now: Instant, room: nat)
    requires Advancing(cal) && ValidTrigger(trigger)
    ensures var gap := Collect(cal, trigger, cursor, now, room); var n := |gap.instants|;
            && (n > 0 <==> cursor < now && room > 0) && (n > 0 ==> gap.instants[0] == cursor) && n <= room
            && IsWalk(cal, trigger, gap.instants)
            && (0 < n < room ==>
                  var next := NextFire(cal, trigger, gap.instants[n - 1]); next.None? || next.value >= now)
    decreases room
  {
    if cursor < now && room > 0 {
      var next := NextFire(cal, trigger, cursor);
      CollectWalks(cal, trigger, if next.Some? then next.value else now, now, room - 1);
    }
  }

  /** The instants a sweep looks at, for any trigger: from the stored one on, each the next after the one before, up
      to the clock or to the limit; a one-time trigger has only the stored one. */
  lemma MissedAreWalk(cal: Calendar, trigger: Trigger, anchor: Instant, now: Instant)
    requires Advancing(cal) && ValidTrigger(trigger) && anchor < now
    ensures var instants := MissedInstants(cal, trigger, anchor, now).instants; var n := |instants|;
            && 0 < n <= CATCH_UP_MAX && instants[0] == anchor && IsWalk(cal, trigger, instants)
            && (trigger.Once? ==> instants == [anchor])
            && (!trigger.Once? && n < CATCH_UP_MAX ==> NextFire(cal, trigger, instants[n - 1]).value >= now)
  {
    CollectWalks(cal, trigger, anchor, now, CATCH_UP_MAX);
  }

  /** The rows for missed instants: catch_up lets all of them wait, run_once the last, skip drops the last, an
      explicit null writes nothing. */
  ghost predicate WritesMissed(occs: seq<Occurrence>, occs': seq<Occurrence>, s: nat, rev: nat, missed: Missed,
                               instants: seq<Instant>)
    requires instants != []
  {
    var last := instants[|instants| - 1];
    match missed
    case MissedSkip => occs' == occs + [Occurrence(s, rev, last, SkippedMissed, 1, None, None, None, false)]
    case RunOnce => occs' == occs + [Occurrence(s, rev, last, Queued, 1, None, None, None, false)]
    case MissedNull => occs' == occs
    case CatchUp => occs <= occs' && |occs'| == |occs| + |instants| && forall k :: 0 <= k < |instants| ==>
      occs'[|occs| + k] == Occurrence(s, rev, instants[k], Queued, 1, None, None, None, false)
  }

  lemma AppliedRows(db: Db, s: nat, rev: nat, missed: Missed, instants: seq<Instant>, db': Db)
    requires instants != [] && db' == ApplyMissed(db, s, rev, missed, instants)
    ensures WritesMissed(db.occs, db'.occs, s, rev, missed, instants)
  {
  }

  /** What a sweep writes for a late schedule with any trigger. */
  lemma SweepWrites(cal: Calendar, db: Db, s: nat, rev: nat, anchor: Instant, now: Instant, instants: seq<Instant>)
    requires Advancing(cal) && WellFormed(db) && s < |db.schedules| && db.schedules[s].currentRev == Some(rev)
    requires db.schedules[s].nextFireAt == Some(anchor) && anchor < now
    requires instants == MissedInstants(cal, db.revs[rev].config.trigger, anchor, now).instants
    ensures instants != []
    ensures WritesMissed(db.occs, SweepStep(cal, db, s, now).occs, s, rev, db.revs[rev].config.missed, instants)
  {
    var missed := db.revs[rev].config.missed;
    MissedAreWalk(cal, db.revs[rev].config.trigger, anchor, now);
    AppliedRows(db, s, rev, missed, instants, ApplyMissed(db, s, rev, missed, instants));
  }

  /** The sweep at start-up: no schedule it finds late is late afterwards, and the others stay as they are. */
  lemma {:induction false} SweepAllMovesOn(cal: Calendar, db: Db, overdue: seq<nat>, now: Instant, s: nat)
    requires Advancing(cal) && Sane(db) && s < |db.schedules|
    requires forall k :: 0 <= k < |overdue| ==> overdue[k] < |db.schedules|
    requires forall j, k :: 0 <= j < k < |overdue| ==> overdue[j] != overdue[k]
    ensures var db' := SweepAll(cal, db, overdue, now);
            && Sane(db') && s < |db'.schedules| && db'.revs == db.revs
            && db'.schedules[s].currentRev == db.schedules[s].currentRev
            && (s !in overdue ==> db'.schedules[s] == db.schedules[s])
            && (s in overdue && db.schedules[s].currentRev.Some? && db.schedules[s].nextFireAt != Some(now) ==>
                  db'.schedules[s].nextFireAt.None? || db'.schedules[s].nextFireAt.value > now)
  {
    if overdue != [] {
      var last := |overdue| - 1;
      var mid := SweepAll(cal, db, overdue[..last], now);
      assert overdue[last] !in overdue[..last];
      SweepAllMovesOn(cal, db, overdue[..last], now, s);
      SweepKeeps(cal, mid, overdue[last], now);
      if overdue[last] == s && db.schedules[s].currentRev.Some? {
        SweepMovesOn(cal, mid, s, now);
      }
    }
  }
}
