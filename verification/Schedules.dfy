/** The persisted entities of the scheduler and its trigger arithmetic.

    Instants are microseconds since the epoch, always UTC. croniter and zoneinfo are outside
    the model: a Calendar supplies the next cron instant and the local wall-clock reading. */
module Schedules {
  import opened Wrappers

  type Instant = int

  const MINUTE: int := 60_000_000

  /** How many missed instants one sweep may look at. */
  const CATCH_UP_MAX: nat := 25

  datatype Calendar = Calendar(
    cronNext: (string, string, Instant) -> Instant,
    wallClock: (string, Instant) -> int)

  /** The one property of croniter the engine relies on: it always moves forward. */
  ghost predicate Advancing(cal: Calendar) {
    forall expr, zone, t :: cal.cronNext(expr, zone, t) > t
  }

  datatype Trigger =
    | Once(at: Instant)
    | Interval(every: int)
    | Cron(expr: string, zone: string)

  /** validate_config refuses intervals shorter than a minute. */
  predicate ValidTrigger(trigger: Trigger) {
    trigger.Interval? ==> trigger.every >= MINUTE
  }

  /** MissedNull and OverlapNull are an explicit JSON null: validation lets it through, and the
      merge with the defaults keeps it, so it selects none of the named branches. */
  datatype Missed = MissedSkip | RunOnce | CatchUp | MissedNull
  datatype Overlap = OverlapSkip | OverlapQueue | CancelPrevious | AllowParallel | OverlapNull
  datatype Failure = NoRetry | BoundedRetry(maxAttempts: int, backoff: int)

  /** `task` stands for the fields the engine only hands on: prompt, limits, approvals, model. */
  datatype Config = Config(trigger: Trigger, missed: Missed, overlap: Overlap, failure: Failure, task: string)

  datatype Revision = Revision(sched: nat, number: nat, config: Config)

  datatype Status = Queued | Running | Completed | Failed | Cancelled | SkippedMissed | SkippedOverlap

  datatype Schedule = Schedule(
    enabled: bool,
    archived: bool,
    nextFireAt: Option<Instant>,
    lastFiredAt: Option<Instant>,
    currentRev: Option<nat>,
    lastStatus: Option<Status>,
    consecutiveFailures: nat)

  /** adHoc is a history variable: it marks the rows run_now wrote, which the database does not. */
  datatype Occurrence = Occurrence(
    sched: nat,
    rev: nat,
    scheduledFor: Instant,
    status: Status,
    attempt: nat,
    retryOf: Option<nat>,
    startedAt: Option<Instant>,
    finishedAt: Option<Instant>,
    adHoc: bool)

  /** A live execution task: spawned and not yet past its first phase, or inside the run. */
  datatype Phase = Spawned | InRun

  /** Everything the engine reads and writes. Rows are identified by their position, which never
      changes; `launched` is the history of calls to _launch and _execute. */
  datatype Db = Db(
    schedules: seq<Schedule>,
    revs: seq<Revision>,
    occs: seq<Occurrence>,
    live: map<nat, Phase>,
    launched: seq<nat>)

  predicate WellFormed(db: Db) {
    && (forall s :: 0 <= s < |db.schedules| && db.schedules[s].currentRev.Some? ==>
          db.schedules[s].currentRev.value < |db.revs| && db.revs[db.schedules[s].currentRev.value].sched == s)
    && (forall r :: 0 <= r < |db.revs| ==> ValidTrigger(db.revs[r].config.trigger))
    && (forall i :: 0 <= i < |db.occs| ==> db.occs[i].sched < |db.schedules| && db.occs[i].rev < |db.revs|)
    && (forall i :: i in db.live ==> i < |db.occs|)
    && (forall k :: 0 <= k < |db.launched| ==> db.launched[k] < |db.occs|)
  }

  /** The next instant strictly after `after`. The cron branch skips the second pass of an
      ambiguous wall-clock time. */
  function NextFire(cal: Calendar, trigger: Trigger, after: Instant): (next: Option<Instant>)
    requires Advancing(cal) && ValidTrigger(trigger)
    ensures next.Some? ==> next.value > after
    ensures trigger.Once? ==> (next.Some? <==> trigger.at > after)
    ensures !trigger.Once? ==> next.Some?
  {
    match trigger
    case Once(at) => if at > after then Some(at) else None
    case Interval(every) => Some(after + every)
    case Cron(expr, zone) =>
      var nxt := cal.cronNext(expr, zone, after);
      if cal.wallClock(zone, nxt) == cal.wallClock(zone, after) then
        Some(cal.cronNext(expr, zone, nxt))
      else
        Some(nxt)
  }

  /** A wall-clock time that comes twice in a row, when clocks are set back, counts once: the next instant of a cron
      trigger shows another time than `after`, as long as none comes three times, and it is the first to do so. */
  lemma CronCountsOnce(cal: Calendar, expr: string, zone: string, after: Instant, next: Instant)
    requires Advancing(cal) && NextFire(cal, Cron(expr, zone), after) == Some(next)
    ensures var first := cal.cronNext(expr, zone, after);
            var second := cal.cronNext(expr, zone, first);
            && (next == first || (next == second && cal.wallClock(zone, first) == cal.wallClock(zone, after)))
            && (cal.wallClock(zone, second) != cal.wallClock(zone, after) ==>
                  cal.wallClock(zone, next) != cal.wallClock(zone, after))
  {
  }

  predicate IsOpen(status: Status) {
    status == Queued || status == Running
  }

  /** A row that came from the trigger itself: fired or swept, not a retry and not ad hoc. */
  predicate IsRegular(occ: Occurrence) {
    occ.retryOf.None? && !occ.adHoc
  }

  /** The first row of a schedule, from position k on, with the given status. */
  function FindFrom(occs: seq<Occurrence>, s: nat, status: Status, k: nat): (r: Option<nat>)
    requires k <= |occs|
    ensures r.Some? ==> k <= r.value < |occs| && occs[r.value].sched == s && occs[r.value].status == status
    ensures r.None? ==> forall i :: k <= i < |occs| ==> !(occs[i].sched == s && occs[i].status == status)
    decreases |occs| - k
  {
    if k == |occs| then None
    else if occs[k].sched == s && occs[k].status == status then Some(k)
    else FindFrom(occs, s, status, k + 1)
  }

  predicate HasRunning(occs: seq<Occurrence>, s: nat) {
    FindFrom(occs, s, Running, 0).Some?
  }

  /** Row i may come first in the open-occurrence query: running rows sort before queued ones. */
  predicate IsFirstOpen(occs: seq<Occurrence>, s: nat, i: nat) {
    && i < |occs| && occs[i].sched == s
    && occs[i].status == (if HasRunning(occs, s) then Running else Queued)
  }

  /** One row the open-occurrence query may return first: a running row of the schedule if there is
      one, else a queued one. SQL leaves ties open, so the answer may be steered to any candidate. */
  function OpenOccurrence(occs: seq<Occurrence>, s: nat, hint: nat): (r: Option<nat>)
    ensures r.Some? ==> r.value < |occs| && occs[r.value].sched == s && IsOpen(occs[r.value].status)
    ensures r.Some? ==> IsFirstOpen(occs, s, r.value)
    ensures r.None? <==> forall i :: 0 <= i < |occs| ==> !(occs[i].sched == s && IsOpen(occs[i].status))
    ensures IsFirstOpen(occs, s, hint) ==> r == Some(hint)
  {
    if IsFirstOpen(occs, s, hint) then Some(hint)
    else FindFrom(occs, s, if HasRunning(occs, s) then Running else Queued, 0)
  }
}
