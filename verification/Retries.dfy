/** Retry chains: one retry per attempt, one revision per chain, bounded attempts, linear back-off. */
module Retries {
  import opened Wrappers
  import opened Schedules
  import opened SchedulerSteps
  import opened SchedulerRuns

  /** The attempt ended without success. */
  predicate HasFailed(occ: Occurrence) {
    occ.status == Failed || occ.status == Cancelled
  }

  /** Row `retry` is the bounded retry of the finished row `parent`. */
  ghost predicate RetryLink(revs: seq<Revision>, parent: Occurrence, retry: Occurrence) {
    && retry.sched == parent.sched && retry.rev == parent.rev && retry.rev < |revs|
    && revs[retry.rev].config.failure.BoundedRetry?
    && retry.attempt == parent.attempt + 1 && retry.attempt <= revs[retry.rev].config.failure.maxAttempts
    && HasFailed(parent) && parent.finishedAt.Some?
    && retry.scheduledFor >= DueBack(revs, parent)
  }

  /** The end of an attempt and its back-off: the clock is read again for the retry, so it may park longer. */
  ghost function DueBack(revs: seq<Revision>, parent: Occurrence): Instant
    requires parent.rev < |revs| && revs[parent.rev].config.failure.BoundedRetry? && parent.finishedAt.Some?
  {
    parent.finishedAt.value + Backoff(revs[parent.rev].config.failure.backoff, parent.attempt)
  }

  ghost predicate Unretried(db: Db, p: nat) {
    forall i :: 0 <= i < |db.occs| ==> db.occs[i].retryOf != Some(p)
  }

  ghost predicate ChainsSound(db: Db) {
    && (forall i :: 0 <= i < |db.occs| && db.occs[i].retryOf.Some? ==>
          db.occs[i].retryOf.value < i && RetryLink(db.revs, db.occs[db.occs[i].retryOf.value], db.occs[i]))
    && (forall i :: 0 <= i < |db.occs| && db.occs[i].retryOf.None? ==> db.occs[i].attempt == 1)
    && (forall i, j :: 0 <= i < j < |db.occs| && db.occs[i].retryOf.Some? ==> db.occs[j].retryOf != db.occs[i].retryOf)
  }

  ghost predicate LiveUnretried(db: Db) {
    forall i :: i in db.live ==> Unretried(db, i)
  }

  // ---------- steps that make no retry ----------

  /** Settled rows are left alone and every new row is a first attempt. */
  ghost predicate NoRetryMade(db: Db, db': Db) {
    && db.revs <= db'.revs && |db.occs| <= |db'.occs|
    && (forall i :: 0 <= i < |db.occs| ==> RowKept(db.occs[i], db'.occs[i]))
    && (forall i :: 0 <= i < |db.occs| && !IsOpen(db.occs[i].status) ==>
          db'.occs[i].finishedAt == db.occs[i].finishedAt && db'.occs[i].status == db.occs[i].status)
    && (forall i :: |db.occs| <= i < |db'.occs| ==> db'.occs[i].retryOf.None? && db'.occs[i].attempt == 1)
  }

  lemma NoRetryComposes(a: Db, b: Db, c: Db)
    requires NoRetryMade(a, b) && NoRetryMade(b, c)
    ensures NoRetryMade(a, c)
  {
    forall i | 0 <= i < |a.occs|
      ensures RowKept(a.occs[i], c.occs[i])
      ensures !IsOpen(a.occs[i].status) ==>
                c.occs[i].finishedAt == a.occs[i].finishedAt && c.occs[i].status == a.occs[i].status
    {
      assert RowKept(a.occs[i], b.occs[i]) && RowKept(b.occs[i], c.occs[i]);
    }
    forall i | |a.occs| <= i < |c.occs| ensures c.occs[i].retryOf.None? && c.occs[i].attempt == 1 {
      if i < |b.occs| { assert RowKept(b.occs[i], c.occs[i]); }
    }
  }

  lemma ChainsKept(db: Db, db': Db)
    requires ChainsSound(db) && NoRetryMade(db, db')
    ensures ChainsSound(db')
    ensures forall p: nat :: Unretried(db, p) ==> Unretried(db', p)
  {
    forall i | 0 <= i < |db'.occs| && db'.occs[i].retryOf.Some?
      ensures i < |db.occs| && db'.occs[i].retryOf == db.occs[i].retryOf && db'.occs[i].retryOf.value < i
      ensures RetryLink(db'.revs, db'.occs[db'.occs[i].retryOf.value], db'.occs[i])
    {
      var p := db.occs[i].retryOf.value;
      assert RowKept(db.occs[i], db'.occs[i]) && RowKept(db.occs[p], db'.occs[p]);
    }
  }

  /** A launched row had not been retried: it was still open, or it is new. */
  ghost predicate TxUnretried(tx: Tx) {
    forall i :: i in tx.launches ==> Unretried(tx.db, i)
  }

  /** Open rows and fresh positions have no retry. */
  lemma OpenUnretried(db: Db, i: nat)
    requires ChainsSound(db) && (i < |db.occs| ==> IsOpen(db.occs[i].status))
    ensures Unretried(db, i)
  {
  }

  lemma {:induction false} DrainMakesNoRetry(tx: Tx, order: seq<nat>, now: Instant)
    requires Sane(tx.db) && ChainsSound(tx.db) && TxUnretried(tx) && forall i :: i in tx.launches ==> i < |tx.db.occs|
    requires forall k :: 0 <= k < |order| ==> order[k] < |tx.db.occs| && tx.db.occs[order[k]].status == Queued
    requires forall j, k :: 0 <= j < k < |order| ==> order[j] != order[k]
    ensures NoRetryMade(tx.db, Drain(tx, order, now).db) && TxUnretried(Drain(tx, order, now))
  {
    if order != [] {
      var last := |order| - 1;
      var mid := Drain(tx, order[..last], now);
      DrainMakesNoRetry(tx, order[..last], now);
      DrainKeeps(tx, order[..last], now);
      assert order[last] !in order[..last];
      StartMakesNoRetry(tx.db, mid, order[last], now);
    }
  }

  lemma StartMakesNoRetry(db: Db, tx: Tx, i: nat, now: Instant)
    requires ChainsSound(db) && NoRetryMade(db, tx.db) && |tx.db.occs| == |db.occs| && TxUnretried(tx)
    requires i < |db.occs| && tx.db.occs[i] == db.occs[i] && db.occs[i].status == Queued && db.occs[i].startedAt.None?
    ensures NoRetryMade(db, DrainOne(tx, i, now).db) && TxUnretried(DrainOne(tx, i, now))
  {
    ChainsKept(db, tx.db);
    OpenUnretried(tx.db, i);
    var tx' := DrainOne(tx, i, now);
    StartKeepsLinks(db, tx, i, now);
    assert forall p: nat :: Unretried(tx.db, p) ==> Unretried(tx'.db, p);
  }

  lemma StartKeepsLinks(db: Db, tx: Tx, i: nat, now: Instant)
    requires NoRetryMade(db, tx.db) && i < |db.occs| == |tx.db.occs|
    requires tx.db.occs[i] == db.occs[i] && db.occs[i].status == Queued && db.occs[i].startedAt.None?
    ensures NoRetryMade(db, DrainOne(tx, i, now).db)
  {
  }

  lemma FireMakesNoRetry(cal: Calendar, tx: Tx, s: nat, hint: nat, now: Instant)
    requires Advancing(cal) && Sane(tx.db) && ChainsSound(tx.db) && TxUnretried(tx)
    requires s < |tx.db.schedules| && tx.db.schedules[s].nextFireAt.Some?
    ensures NoRetryMade(tx.db, FireDue(cal, tx, s, hint, now).db)
    ensures ChainsSound(FireDue(cal, tx, s, hint, now).db) && TxUnretried(FireDue(cal, tx, s, hint, now))
  {
    FireAddsFirstAttempt(cal, tx, s, hint, now);
    ChainsKept(tx.db, FireDue(cal, tx, s, hint, now).db);
    OpenUnretried(tx.db, |tx.db.occs|);
  }

  lemma FireAddsFirstAttempt(cal: Calendar, tx: Tx, s: nat, hint: nat, now: Instant)
    requires Advancing(cal) && Sane(tx.db)
    requires s < |tx.db.schedules| && tx.db.schedules[s].nextFireAt.Some?
    ensures NoRetryMade(tx.db, FireDue(cal, tx, s, hint, now).db)
    ensures forall i :: i in FireDue(cal, tx, s, hint, now).launches ==> i in tx.launches || i == |tx.db.occs|
  {
  }

  lemma {:induction false} FireAllMakesNoRetry(cal: Calendar, tx: Tx, due: seq<nat>, hints: map<nat, nat>, now: Instant)
    requires Advancing(cal) && Sane(tx.db) && forall i :: i in tx.launches ==> i < |tx.db.occs|
    requires ChainsSound(tx.db) && TxUnretried(tx)
    requires forall k :: 0 <= k < |due| ==> due[k] < |tx.db.schedules| && tx.db.schedules[due[k]].nextFireAt.Some?
    requires forall j, k :: 0 <= j < k < |due| ==> due[j] != due[k]
    ensures var tx' := FireAll(cal, tx, due, hints, now);
            NoRetryMade(tx.db, tx'.db) && ChainsSound(tx'.db) && TxUnretried(tx')
  {
    if due != [] {
      var last := |due| - 1;
      var mid := FireAll(cal, tx, due[..last], hints, now);
      FireAllMakesNoRetry(cal, tx, due[..last], hints, now);
      FireAllKeeps(cal, tx, due[..last], hints, now);
      assert due[last] !in due[..last];
      FireMakesNoRetry(cal, mid, due[last], HintFor(hints, due[last]), now);
      NoRetryComposes(tx.db, mid.db, FireDue(cal, mid, due[last], HintFor(hints, due[last]), now).db);
    }
  }

  lemma TickChains(cal: Calendar, db: Db, order: seq<nat>, due: seq<nat>, hints: map<nat, nat>, now: Instant)
    requires Advancing(cal) && Sane(db) && IsDrainOrder(db, now, order) && IsDueList(db, now, due)
    requires ChainsSound(db) && LiveUnretried(db)
    ensures var db' := TickStep(cal, db, order, due, hints, now); ChainsSound(db') && LiveUnretried(db')
  {
    var tx := Drain(Tx(db, []), order, now);
    DrainKeeps(Tx(db, []), order, now);
    DrainMakesNoRetry(Tx(db, []), order, now);
    ChainsKept(db, tx.db);
    FireAllMakesNoRetry(cal, tx, due, hints, now);
    FireAllKeeps(cal, tx, due, hints, now);
    var tx' := FireAll(cal, tx, due, hints, now);
    ChainsKept(tx.db, tx'.db);
    LaunchChains(db, tx');
  }

  lemma LaunchChains(db: Db, tx: Tx)
    requires ChainsSound(tx.db) && TxUnretried(tx) && tx.db.live == db.live && LiveUnretried(db)
    requires forall p: nat :: Unretried(db, p) ==> Unretried(tx.db, p)
    ensures ChainsSound(Launch(tx)) && LiveUnretried(Launch(tx))
  {
    assert forall p: nat :: Unretried(tx.db, p) ==> Unretried(Launch(tx), p);
  }

  lemma {:induction false} SweepAllMakesNoRetry(cal: Calendar, db: Db, overdue: seq<nat>, now: Instant)
    requires Advancing(cal) && WellFormed(db) && forall k :: 0 <= k < |overdue| ==> overdue[k] < |db.schedules|
    ensures NoRetryMade(db, SweepAll(cal, db, overdue, now)) && SweepAll(cal, db, overdue, now).live == db.live
  {
    if overdue != [] {
      var last := |overdue| - 1;
      var mid := SweepAll(cal, db, overdue[..last], now);
      SweepAllMakesNoRetry(cal, db, overdue[..last], now);
      SweepMakesNoRetry(cal, mid, overdue[last], now);
      NoRetryComposes(db, mid, SweepStep(cal, mid, overdue[last], now));
    }
  }

  lemma SweepMakesNoRetry(cal: Calendar, db: Db, s: nat, now: Instant)
    requires Advancing(cal) && WellFormed(db) && s < |db.schedules|
    ensures NoRetryMade(db, SweepStep(cal, db, s, now)) && SweepStep(cal, db, s, now).live == db.live
  {
  }

  lemma EditMakesNoRetry(cal: Calendar, db: Db, s: nat, config: Config, enabled: bool, now: Instant)
    requires Advancing(cal) && WellFormed(db) && s < |db.schedules| && ValidTrigger(config.trigger)
    ensures NoRetryMade(db, EditStep(cal, db, s, config, enabled, now))
    ensures EditStep(cal, db, s, config, enabled, now).live == db.live
  {
    var db1 := Revise(db, s, config);
    var db2 := WithSchedule(db1, s, db1.schedules[s].(enabled := enabled));
    SweepMakesNoRetry(cal, db2, s, now);
    NoRetryComposes(db, db2, SweepStep(cal, db2, s, now));
  }

  // ---------- finishing ----------

  /** Settling a live row: no chain goes through it yet. */
  lemma SettleChains(db: Db, db': Db, i: nat, occ: Occurrence)
    requires ChainsSound(db) && LiveUnretried(db) && i in db.live && i < |db.occs|
    requires RowKept(db.occs[i], occ)
    requires db'.revs == db.revs && db'.occs == db.occs[i := occ] && db'.live == db.live - {i}
    ensures ChainsSound(db') && LiveUnretried(db') && Unretried(db', i)
  {
    assert Unretried(db, i);
    forall p | p in db'.live ensures Unretried(db', p) {
      assert p in db.live && Unretried(db, p);
    }
  }

  lemma MaybeRetryChains(db: Db, i: nat, now: Instant, later: Instant)
    requires ChainsSound(db) && LiveUnretried(db) && Unretried(db, i) && i !in db.live
    requires i < |db.occs| && db.occs[i].rev < |db.revs|
    requires HasFailed(db.occs[i]) && db.occs[i].finishedAt == Some(now) && now <= later
    ensures ChainsSound(MaybeRetry(db, i, later)) && LiveUnretried(MaybeRetry(db, i, later))
  {
    forall p | p in db.live ensures Unretried(MaybeRetry(db, i, later), p) {
      assert Unretried(db, p);
    }
  }

  lemma FinishChains(db: Db, i: nat, outcome: Status, now: Instant, later: Instant)
    requires WellFormed(db) && i in db.live && outcome in {Completed, Failed, Cancelled} && now <= later
    requires ChainsSound(db) && LiveUnretried(db)
    ensures ChainsSound(FinishStep(db, i, outcome, now, later)) && LiveUnretried(FinishStep(db, i, outcome, now, later))
  {
    var occ := db.occs[i].(status := outcome, finishedAt := Some(now));
    var sched := db.schedules[occ.sched].(lastStatus := Some(outcome),
      consecutiveFailures := if outcome == Completed then 0 else db.schedules[occ.sched].consecutiveFailures + 1);
    var settled := WithSchedule(WithOccurrence(db.(live := db.live - {i}), i, occ), occ.sched, sched);
    SettleChains(db, settled, i, occ);
    if outcome != Completed {
      MaybeRetryChains(settled, i, now, later);
      assert FinishStep(db, i, outcome, now, later) == MaybeRetry(settled, i, later);
    }
  }

  lemma SettlingMakesNoRetry(cal: Calendar, db: Db, ev: Event)
    requires Advancing(cal) && CanHappen(db, ev)
    requires ev.Begin? || ev.PreambleFails? || ev.OutcomeLost? || ev.Restart? || ev.Reconcile?
             || ev.Pause? || ev.Archive? || ev.Unarchive?
    ensures NoRetryMade(db, Step(cal, db, ev)) && Step(cal, db, ev).live.Keys <= db.live.Keys
  {
  }

  /** run_now writes a row that is no retry and starts it. */
  lemma RunNowChains(cal: Calendar, db: Db, ev: Event)
    requires Advancing(cal) && CanHappen(db, ev) && Sane(db) && ChainsSound(db) && LiveUnretried(db) && ev.RunNow?
    ensures ChainsSound(Step(cal, db, ev)) && LiveUnretried(Step(cal, db, ev))
  {
    OpenUnretried(db, |db.occs|);
    ChainsKept(db, Step(cal, db, ev));
  }

  /** A step other than a tick or the end of a run makes no retry row. */
  lemma StepMakesNoRetry(cal: Calendar, db: Db, ev: Event)
    requires Advancing(cal) && CanHappen(db, ev) && Sane(db) && !ev.Tick? && !ev.Finish? && !ev.RunNow?
    ensures NoRetryMade(db, Step(cal, db, ev)) && Step(cal, db, ev).live.Keys <= db.live.Keys
  {
    match ev
    case Sweep(now, overdue) => SweepAllMakesNoRetry(cal, db, overdue, now);
    case Edit(s, config, enabled, now) => EditMakesNoRetry(cal, db, s, config, enabled, now);
    case Resume(s, now) => SweepMakesNoRetry(cal, WithSchedule(db, s, db.schedules[s].(enabled := true)), s, now);
    case Create(_, _, _) =>
    case SyncHeartbeat(_, _, _, _) =>
    case _ => SettlingMakesNoRetry(cal, db, ev);
  }

  lemma StepChains(cal: Calendar, db: Db, ev: Event)
    requires Advancing(cal) && CanHappen(db, ev) && Sane(db) && ChainsSound(db) && LiveUnretried(db)
    ensures ChainsSound(Step(cal, db, ev)) && LiveUnretried(Step(cal, db, ev))
  {
    match ev
    case Tick(now, order, due, hints) => TickChains(cal, db, order, due, hints, now);
    case Finish(i, outcome, now, later) => FinishChains(db, i, outcome, now, later);
    case RunNow(s, now) => RunNowChains(cal, db, ev);
    case _ =>
      StepMakesNoRetry(cal, db, ev);
      ChainsKept(db, Step(cal, db, ev));
  }

  lemma {:induction false} RunChains(cal: Calendar, db: Db, evs: seq<Event>)
    requires Advancing(cal) && CanRun(cal, db, evs) && Sane(db) && ChainsSound(db) && LiveUnretried(db)
    ensures ChainsSound(Run(cal, db, evs)) && LiveUnretried(Run(cal, db, evs))
    decreases |evs|
  {
    if evs != [] {
      StepKeepsHistory(cal, db, evs[0]);
      StepChains(cal, db, evs[0]);
      RunChains(cal, Step(cal, db, evs[0]), evs[1..]);
    }
  }

  // ---------- what a chain adds up to ----------

  /** The first attempt of the chain that row i belongs to. */
  ghost function ChainRoot(db: Db, i: nat): (root: nat)
    requires ChainsSound(db) && i < |db.occs|
    ensures root <= i && db.occs[root].retryOf.None?
    decreases i
  {
    if db.occs[i].retryOf.None? then i else ChainRoot(db, db.occs[i].retryOf.value)
  }

  /** The time the chain of row i has spent parked: from each failure to the instant of its retry. */
  ghost function ChainParked(db: Db, i: nat): int
    requires ChainsSound(db) && i < |db.occs|
    decreases i
  {
    if db.occs[i].retryOf.None? then 0
    else
      var p := db.occs[i].retryOf.value;
      db.occs[i].scheduledFor - db.occs[p].finishedAt.value + ChainParked(db, p)
  }

  /** Every retry of the chain was scheduled at the very reading that ended its attempt. */
  ghost predicate IsPrompt(db: Db, i: nat)
    requires ChainsSound(db) && i < |db.occs|
    decreases i
  {
    db.occs[i].retryOf.Some? ==>
      var p := db.occs[i].retryOf.value;
      RetryLink(db.revs, db.occs[p], db.occs[i]) && db.occs[i].scheduledFor == DueBack(db.revs, db.occs[p]) &&
      IsPrompt(db, p)
  }

  /** A chain has one schedule and one revision and counts 1, 2, ... up to its bound. After m attempts it has been
      parked for at least b + 2b + ... + (m - 1)b, and for exactly that if and only if no time passed between the
      two clock readings of any of its attempts. */
  lemma {:induction false} ChainAddsUp(db: Db, i: nat)
    requires ChainsSound(db) && i < |db.occs|
    ensures var root, m := db.occs[ChainRoot(db, i)], db.occs[i].attempt;
            && root.sched == db.occs[i].sched && root.rev == db.occs[i].rev && root.attempt == 1
            && (db.occs[i].retryOf.Some? ==>
                  && db.occs[i].rev < |db.revs| && db.revs[db.occs[i].rev].config.failure.BoundedRetry?
                  && 2 <= m <= db.revs[db.occs[i].rev].config.failure.maxAttempts
                  && var least := Backoff(db.revs[db.occs[i].rev].config.failure.backoff, 1) * (m * (m - 1));
                     2 * ChainParked(db, i) >= least && (2 * ChainParked(db, i) == least <==> IsPrompt(db, i)))
    decreases i
  {
    if db.occs[i].retryOf.Some? {
      var p := db.occs[i].retryOf.value;
      ChainAddsUp(db, p);
      assert RetryLink(db.revs, db.occs[p], db.occs[i]);
      BackoffSum(Backoff(db.revs[db.occs[i].rev].config.failure.backoff, 1), db.occs[p].attempt);
    }
  }

  lemma BackoffSum(b: int, m: int)
    ensures 2 * (b * m) + b * (m * (m - 1)) == b * ((m + 1) * m)
  {
    assert (m + 1) * m == m * (m - 1) + 2 * m;
    assert b * (m * (m - 1) + 2 * m) == b * (m * (m - 1)) + b * (2 * m);
  }
}
