/** What a tick leaves: the fate of every due instant under every overlap policy, and exactly which rows start. */
module Firing {
  import opened Wrappers
  import opened Schedules
  import opened SchedulerSteps
  import opened SchedulerRuns

  // ---------- one firing ----------

  predicate IsOpenOf(occ: Occurrence, s: nat) {
    occ.sched == s && (occ.status == Queued || occ.status == Running)
  }

  ghost predicate RunsOf(occs: seq<Occurrence>, s: nat) {
    exists j: nat :: j < |occs| && occs[j].sched == s && occs[j].status == Running
  }

  ghost predicate HasOpen(occs: seq<Occurrence>, s: nat) {
    exists i: nat :: i < |occs| && IsOpenOf(occs[i], s)
  }

  /** Row i, open and running if any row of its schedule runs, was cancelled; the other rows stayed. */
  ghost predicate CancelsOnly(before: seq<Occurrence>, after: seq<Occurrence>, s: nat, i: nat, now: Instant) {
    && i < |before| <= |after| && IsOpenOf(before[i], s)
    && (before[i].status == Running || !RunsOf(before, s))
    && after[i] == before[i].(status := Cancelled, finishedAt := Some(now))
    && forall j :: 0 <= j < |before| && j != i ==> after[j] == before[j]
  }

  /** The instant is kept waiting or dropped: one row says so, nothing starts. */
  ghost predicate Holds(tx: Tx, tx': Tx, row: Occurrence) {
    tx'.db.occs == tx.db.occs + [row] && tx'.launches == tx.launches
  }

  /** The instant starts a run, in the row at the end of the table. */
  ghost predicate Starts(tx: Tx, tx': Tx, row: Occurrence) {
    && |tx'.db.occs| == |tx.db.occs| + 1 && tx'.db.occs[|tx.db.occs|] == row
    && tx'.launches == tx.launches + [|tx.db.occs|]
  }

  ghost predicate SameRows(before: seq<Occurrence>, after: seq<Occurrence>) {
    |before| <= |after| && forall j :: 0 <= j < |before| ==> after[j] == before[j]
  }

  lemma HasOpenIff(occs: seq<Occurrence>, s: nat, hint: nat)
    ensures OpenOccurrence(occs, s, hint).Some? <==> HasOpen(occs, s)
  {
    var open := OpenOccurrence(occs, s, hint);
    if open.Some? {
      assert IsOpenOf(occs[open.value], s);
    }
    if i: nat :| i < |occs| && IsOpenOf(occs[i], s) {
      assert IsOpen(occs[i].status);
    }
  }

  /** With a row of its schedule still open, a due instant is recorded as skipped under `skip` and as waiting under
      `queue`, and nothing starts. */
  lemma FireHolds(cal: Calendar, tx: Tx, s: nat, hint: nat, now: Instant, rev: nat, due: Instant)
    requires Advancing(cal) && WellFormed(tx.db) && s < |tx.db.schedules| && HasOpen(tx.db.occs, s)
    requires tx.db.schedules[s].nextFireAt == Some(due) && tx.db.schedules[s].currentRev == Some(rev)
    ensures var tx' := FireDue(cal, tx, s, hint, now);
            match tx.db.revs[rev].config.overlap
            case OverlapSkip => Holds(tx, tx', Occurrence(s, rev, due, SkippedOverlap, 1, None, None, None, false))
            case OverlapQueue => Holds(tx, tx', Occurrence(s, rev, due, Queued, 1, None, None, None, false))
            case _ => Starts(tx, tx', Occurrence(s, rev, due, Running, 1, None, Some(now), None, false))
  {
    HasOpenIff(tx.db.occs, s, hint);
  }

  /** With nothing open, it starts under every policy. */
  lemma FireStarts(cal: Calendar, tx: Tx, s: nat, hint: nat, now: Instant, rev: nat, due: Instant)
    requires Advancing(cal) && WellFormed(tx.db) && s < |tx.db.schedules| && !HasOpen(tx.db.occs, s)
    requires tx.db.schedules[s].nextFireAt == Some(due) && tx.db.schedules[s].currentRev == Some(rev)
    ensures var tx' := FireDue(cal, tx, s, hint, now);
            Starts(tx, tx', Occurrence(s, rev, due, Running, 1, None, Some(now), None, false))
  {
    HasOpenIff(tx.db.occs, s, hint);
  }

  /** Rows from before stay as they are, except that `cancel_previous` cancels one open row. */
  lemma FireCancels(cal: Calendar, tx: Tx, s: nat, hint: nat, now: Instant, rev: nat)
    requires Advancing(cal) && WellFormed(tx.db) && s < |tx.db.schedules|
    requires tx.db.schedules[s].nextFireAt.Some? && tx.db.schedules[s].currentRev == Some(rev)
    ensures var occs' := FireDue(cal, tx, s, hint, now).db.occs;
            if tx.db.revs[rev].config.overlap == CancelPrevious && HasOpen(tx.db.occs, s)
            then exists i: nat :: CancelsOnly(tx.db.occs, occs', s, i, now)
            else SameRows(tx.db.occs, occs')
  {
    HasOpenIff(tx.db.occs, s, hint);
    var open := OpenOccurrence(tx.db.occs, s, hint);
    if tx.db.revs[rev].config.overlap == CancelPrevious && open.Some? {
      FirstOpenRuns(tx.db.occs, s, open.value);
      CancelsOpen(cal, tx, s, hint, now, rev, open.value);
    }
  }

  lemma FirstOpenRuns(occs: seq<Occurrence>, s: nat, i: nat)
    requires IsFirstOpen(occs, s, i) && IsOpen(occs[i].status)
    ensures occs[i].status == Running || !RunsOf(occs, s)
  {
  }

  lemma CancelsOpen(cal: Calendar, tx: Tx, s: nat, hint: nat, now: Instant, rev: nat, i: nat)
    requires Advancing(cal) && WellFormed(tx.db) && s < |tx.db.schedules|
    requires tx.db.schedules[s].nextFireAt.Some? && tx.db.schedules[s].currentRev == Some(rev)
    requires tx.db.revs[rev].config.overlap == CancelPrevious && OpenOccurrence(tx.db.occs, s, hint) == Some(i)
    requires tx.db.occs[i].status == Running || !RunsOf(tx.db.occs, s)
    ensures CancelsOnly(tx.db.occs, FireDue(cal, tx, s, hint, now).db.occs, s, i, now)
  {
  }

  /** The schedule moves on to the instant after the due one, remembers a start and nothing else; without a
      revision it merely loses its instant. */
  lemma FireMovesOn(cal: Calendar, tx: Tx, s: nat, hint: nat, now: Instant, due: Instant)
    requires Advancing(cal) && WellFormed(tx.db) && s < |tx.db.schedules| && tx.db.schedules[s].nextFireAt == Some(due)
    ensures var tx', sched := FireDue(cal, tx, s, hint, now), tx.db.schedules[s];
            var started := tx'.launches != tx.launches;
            if sched.currentRev.None?
            then tx' == tx.(db := tx.db.(schedules := tx.db.schedules[s := sched.(nextFireAt := None)]))
            else tx'.db.schedules[s] == sched.(
                   nextFireAt := NextFire(cal, tx.db.revs[sched.currentRev.value].config.trigger, due),
                   lastFiredAt := if started then Some(now) else sched.lastFiredAt)
  {
    var tx' := FireDue(cal, tx, s, hint, now);
    assert |tx'.launches| == |tx.launches| || |tx'.launches| == |tx.launches| + 1;
  }

  // ---------- one tick ----------

  /** The row has a start that it did not have before. */
  predicate JustStarted(before: seq<Occurrence>, after: seq<Occurrence>, i: nat) {
    i < |after| && after[i].startedAt.Some? && (i < |before| ==> before[i].startedAt.None?)
  }

  /** To be launched are exactly the rows that the transaction has started. */
  ghost predicate LaunchesStarted(db: Db, tx: Tx, now: Instant) {
    && |db.occs| <= |tx.db.occs| && tx.db.live == db.live && tx.db.launched == db.launched
    && (forall i: nat :: i in tx.launches <==> JustStarted(db.occs, tx.db.occs, i))
    && (forall i: nat :: i in tx.launches ==> i < |tx.db.occs| && tx.db.occs[i].startedAt == Some(now))
    && (forall j, k :: 0 <= j < k < |tx.launches| ==> tx.launches[j] != tx.launches[k])
  }

  lemma StartLaunches(db: Db, tx: Tx, i: nat, now: Instant)
    requires LaunchesStarted(db, tx, now) && i < |db.occs|
    requires tx.db.occs[i] == db.occs[i] && db.occs[i].startedAt.None?
    ensures LaunchesStarted(db, DrainOne(tx, i, now), now)
  {
    var tx' := DrainOne(tx, i, now);
    assert i !in tx.launches;
    forall k: nat ensures k in tx'.launches <==> JustStarted(db.occs, tx'.db.occs, k) {
      assert k in tx.launches <==> JustStarted(db.occs, tx.db.occs, k);
    }
  }

  lemma {:induction false} DrainLaunches(db: Db, order: seq<nat>, now: Instant)
    requires Sane(db)
    requires forall k :: 0 <= k < |order| ==> order[k] < |db.occs| && db.occs[order[k]].status == Queued
    requires forall j, k :: 0 <= j < k < |order| ==> order[j] != order[k]
    ensures LaunchesStarted(db, Drain(Tx(db, []), order, now), now)
  {
    if order != [] {
      var last := |order| - 1;
      DrainLaunches(db, order[..last], now);
      DrainKeeps(Tx(db, []), order[..last], now);
      assert order[last] !in order[..last];
      StartLaunches(db, Drain(Tx(db, []), order[..last], now), order[last], now);
    }
  }

  /** Old rows keep their starts, and at most one row is added. */
  ghost predicate KeepsStarts(before: seq<Occurrence>, after: seq<Occurrence>) {
    |before| <= |after| <= |before| + 1 && forall i :: 0 <= i < |before| ==> after[i].startedAt == before[i].startedAt
  }

  lemma FireKeepsStarts(cal: Calendar, tx: Tx, s: nat, hint: nat, now: Instant, tx': Tx)
    requires Advancing(cal) && WellFormed(tx.db) && s < |tx.db.schedules| && tx.db.schedules[s].nextFireAt.Some?
    requires tx' == FireDue(cal, tx, s, hint, now)
    ensures KeepsStarts(tx.db.occs, tx'.db.occs) && tx'.db.live == tx.db.live && tx'.db.launched == tx.db.launched
    ensures if |tx'.db.occs| > |tx.db.occs| && tx'.db.occs[|tx.db.occs|].startedAt.Some?
            then tx'.launches == tx.launches + [|tx.db.occs|] && tx'.db.occs[|tx.db.occs|].startedAt == Some(now)
            else tx'.launches == tx.launches
  {
  }

  lemma AppendLaunches(db: Db, tx: Tx, tx': Tx, now: Instant)
    requires LaunchesStarted(db, tx, now) && KeepsStarts(tx.db.occs, tx'.db.occs)
    requires tx'.db.live == tx.db.live && tx'.db.launched == tx.db.launched
    requires if |tx'.db.occs| > |tx.db.occs| && tx'.db.occs[|tx.db.occs|].startedAt.Some?
             then tx'.launches == tx.launches + [|tx.db.occs|] && tx'.db.occs[|tx.db.occs|].startedAt == Some(now)
             else tx'.launches == tx.launches
    ensures LaunchesStarted(db, tx', now)
  {
    assert |tx.db.occs| !in tx.launches;
    forall k: nat ensures k in tx'.launches <==> JustStarted(db.occs, tx'.db.occs, k) {
      assert k in tx.launches <==> JustStarted(db.occs, tx.db.occs, k);
    }
  }

  lemma {:induction false} FireAllLaunches(cal: Calendar, db: Db, tx: Tx, due: seq<nat>, hints: map<nat, nat>,
                                           now: Instant)
    requires Advancing(cal) && WellFormed(tx.db) && LaunchesStarted(db, tx, now)
    requires forall k :: 0 <= k < |due| ==> due[k] < |tx.db.schedules| && tx.db.schedules[due[k]].nextFireAt.Some?
    requires forall j, k :: 0 <= j < k < |due| ==> due[j] != due[k]
    ensures LaunchesStarted(db, FireAll(cal, tx, due, hints, now), now)
  {
    if due != [] {
      var last := |due| - 1;
      var mid := FireAll(cal, tx, due[..last], hints, now);
      assert due[last] !in due[..last];
      FireAllLaunches(cal, db, tx, due[..last], hints, now);
      var tx' := FireDue(cal, mid, due[last], HintFor(hints, due[last]), now);
      FireKeepsStarts(cal, mid, due[last], HintFor(hints, due[last]), now, tx');
      AppendLaunches(db, mid, tx', now);
    }
  }

  /** A tick launches exactly the rows whose start it records, each once; every one of them has a task that has not
      begun, and no other task is touched. */
  lemma TickLaunches(cal: Calendar, db: Db, order: seq<nat>, due: seq<nat>, hints: map<nat, nat>, now: Instant, db': Db)
    requires Advancing(cal) && Sane(db) && IsDrainOrder(db, now, order) && IsDueList(db, now, due)
    requires db' == TickStep(cal, db, order, due, hints, now)
    ensures db.launched <= db'.launched
    ensures var added := db'.launched[|db.launched|..];
            && (forall i: nat :: i in added <==> JustStarted(db.occs, db'.occs, i))
            && (forall i: nat :: i in added ==> i < |db'.occs| && db'.occs[i].startedAt == Some(now))
            && (forall j, k :: 0 <= j < k < |added| ==> added[j] != added[k])
            && (forall i: nat :: i in db'.live <==> i in db.live || i in added)
            && (forall i: nat :: i in db'.live ==> db'.live[i] == if i in added then Spawned else db.live[i])
  {
    var tx := Drain(Tx(db, []), order, now);
    DrainLaunches(db, order, now);
    DrainKeeps(Tx(db, []), order, now);
    FireAllLaunches(cal, db, tx, due, hints, now);
    var tx' := FireAll(cal, tx, due, hints, now);
    assert db'.launched[|db.launched|..] == tx'.launches;
  }
}
