/** The instants of a schedule are decided once each, in increasing order, and under the skip and
    queue overlap policies its occurrences also start in that order. */
module QueueOrder {
  import opened Wrappers
  import opened Schedules
  import opened SchedulerSteps
  import opened SchedulerRuns
  import opened Revisions

  predicate Regular(occ: Occurrence, s: nat) {
    occ.sched == s && IsRegular(occ)
  }

  /** The regular rows of s carry strictly increasing instants, none later than the clock, and all
      earlier than the instant that is stored to fire next. */
  ghost predicate InstantsOrdered(db: Db, s: nat, clock: Instant) {
    && (forall i, j :: 0 <= i < j < |db.occs| && Regular(db.occs[i], s) && Regular(db.occs[j], s) ==>
          db.occs[i].scheduledFor < db.occs[j].scheduledFor)
    && (forall i :: 0 <= i < |db.occs| && Regular(db.occs[i], s) ==> db.occs[i].scheduledFor <= clock)
    && (s < |db.schedules| && db.schedules[s].nextFireAt.Some? ==>
          forall i :: 0 <= i < |db.occs| && Regular(db.occs[i], s) ==>
            db.occs[i].scheduledFor < db.schedules[s].nextFireAt.value)
  }

  /** No regular row of s is still waiting behind a later one that has started. */
  ghost predicate NoneOvertaken(db: Db, s: nat) {
    forall i, j :: 0 <= i < j < |db.occs| && Regular(db.occs[i], s) && Regular(db.occs[j], s) ==>
      (db.occs[j].startedAt.Some? ==> db.occs[i].status != Queued)
  }

  /** Everything launched has started, and the regular rows of s were launched in table order. */
  ghost predicate LaunchOrder(db: Db, launches: seq<nat>, s: nat) {
    && (forall k :: 0 <= k < |launches| ==> launches[k] < |db.occs| && db.occs[launches[k]].startedAt.Some?)
    && (forall j, k :: 0 <= j < k < |launches| ==>
          (Regular(db.occs[launches[j]], s) && Regular(db.occs[launches[k]], s) ==> launches[j] < launches[k]))
  }

  ghost predicate Orderly(tx: Tx, s: nat) {
    && NoneOvertaken(tx.db, s)
    && LaunchOrder(tx.db, tx.db.launched + tx.launches, s)
  }

  predicate InOrder(overlap: Overlap) {
    overlap == OverlapSkip || overlap == OverlapQueue
  }

  ghost predicate AllInOrder(db: Db, s: nat) {
    forall r :: 0 <= r < |db.revs| && db.revs[r].sched == s ==> InOrder(db.revs[r].config.overlap)
  }

  // ---------- the drain ----------

  /** Appending one started row to the launches. */
  lemma LaunchOne(db: Db, launches: seq<nat>, db': Db, i: nat, s: nat)
    requires LaunchOrder(db, launches, s)
    requires |db.occs| <= |db'.occs| && i < |db'.occs| && db'.occs[i].startedAt.Some?
    requires forall k :: 0 <= k < |db.occs| ==> RowKept(db.occs[k], db'.occs[k])
    requires Regular(db'.occs[i], s) ==>
               forall k :: 0 <= k < |db.occs| && k >= i && Regular(db.occs[k], s) ==> db.occs[k].startedAt.None?
    ensures LaunchOrder(db', launches + [i], s)
  {
    var l := launches + [i];
    forall j, k | 0 <= j < k < |l| && Regular(db'.occs[l[j]], s) && Regular(db'.occs[l[k]], s)
      ensures l[j] < l[k]
    {
      assert RowKept(db.occs[l[j]], db'.occs[l[j]]);
      if k < |launches| { assert RowKept(db.occs[l[k]], db'.occs[l[k]]); }
    }
  }

  lemma StartInOrder(tx: Tx, i: nat, now: Instant, s: nat)
    requires Sane(tx.db) && Orderly(tx, s) && i < |tx.db.occs| && tx.db.occs[i].status == Queued
    requires Regular(tx.db.occs[i], s) ==>
               forall k :: 0 <= k < i && Regular(tx.db.occs[k], s) ==> tx.db.occs[k].status != Queued
    ensures Orderly(Tx(Start(tx.db, i, now), tx.launches + [i]), s)
  {
    LaunchOne(tx.db, tx.db.launched + tx.launches, Start(tx.db, i, now), i, s);
    assert tx.db.launched + (tx.launches + [i]) == tx.db.launched + tx.launches + [i];
  }

  ghost predicate AllReached(db: Db, order: seq<nat>, occs: seq<Occurrence>, n: nat)
    requires n <= |order| && forall k :: 0 <= k < |order| ==> order[k] < |db.occs|
  {
    forall m :: 0 <= m < n ==> HasRunning(occs, db.occs[order[m]].sched)
  }

  /** A queued row with no running row beside it: nothing earlier of its schedule is still queued. */
  lemma NothingEarlierQueued(db: Db, order: seq<nat>, n: nat, now: Instant, tx: Tx, k: nat, s: nat)
    requires IsDrainOrder(db, now, order) && n < |order| && InstantsOrdered(db, s, now)
    requires HistoryKept(db, tx.db) && AllReached(db, order, tx.db.occs, n)
    requires k < order[n] && Regular(db.occs[k], s) && Regular(db.occs[order[n]], s)
    requires !HasRunning(tx.db.occs, s)
    ensures tx.db.occs[k].status != Queued
  {
    assert RowKept(db.occs[k], tx.db.occs[k]);
    if db.occs[k].status == Queued {
      assert false;
    }
  }

  lemma StillReached(db: Db, order: seq<nat>, n: nat, tx: Tx, now: Instant)
    requires n < |order| && forall k :: 0 <= k < |order| ==> order[k] < |db.occs|
    requires |tx.db.occs| == |db.occs| && AllReached(db, order, tx.db.occs, n)
    requires tx.db.occs[order[n]].sched == db.occs[order[n]].sched
    ensures AllReached(db, order, DrainOne(tx, order[n], now).db.occs, n + 1)
  {
    var occs' := DrainOne(tx, order[n], now).db.occs;
    forall m | 0 <= m < n + 1 ensures HasRunning(occs', db.occs[order[m]].sched) {
      if m < n {
        var r := FindFrom(tx.db.occs, db.occs[order[m]].sched, Running, 0).value;
        assert occs'[r].status == Running;
      } else if !HasRunning(tx.db.occs, db.occs[order[n]].sched) {
        assert occs'[order[n]].status == Running;
      }
    }
  }

  lemma DrainOneInOrder(db: Db, order: seq<nat>, n: nat, tx: Tx, now: Instant, s: nat)
    requires Sane(tx.db) && IsDrainOrder(db, now, order) && n < |order|
    requires InstantsOrdered(db, s, now) && Orderly(tx, s)
    requires HistoryKept(db, tx.db) && |tx.db.occs| == |db.occs| && AllReached(db, order, tx.db.occs, n)
    requires tx.db.occs[order[n]] == db.occs[order[n]]
    ensures Orderly(DrainOne(tx, order[n], now), s)
    ensures AllReached(db, order, DrainOne(tx, order[n], now).db.occs, n + 1)
  {
    var i := order[n];
    StillReached(db, order, n, tx, now);
    if !HasRunning(tx.db.occs, db.occs[i].sched) {
      forall k | Regular(db.occs[i], s) && 0 <= k < i && Regular(tx.db.occs[k], s)
        ensures tx.db.occs[k].status != Queued
      {
        assert RowKept(db.occs[k], tx.db.occs[k]);
        NothingEarlierQueued(db, order, n, now, tx, k, s);
      }
      StartInOrder(tx, i, now, s);
    }
  }

  lemma DrainSnoc(tx: Tx, order: seq<nat>, n: nat, now: Instant)
    requires n < |order| && forall k :: 0 <= k < |order| ==> order[k] < |tx.db.occs|
    ensures Drain(tx, order[..n + 1], now) == DrainOne(Drain(tx, order[..n], now), order[n], now)
  {
    assert order[..n + 1][..n] == order[..n];
  }

  /** The drain reaches the rows of a schedule in order and stops at the first that starts. */
  lemma {:induction false} DrainInOrder(db: Db, order: seq<nat>, n: nat, now: Instant, s: nat)
    requires Sane(db) && IsDrainOrder(db, now, order) && n <= |order|
    requires InstantsOrdered(db, s, now) && Orderly(Tx(db, []), s)
    ensures Orderly(Drain(Tx(db, []), order[..n], now), s)
    ensures AllReached(db, order, Drain(Tx(db, []), order[..n], now).db.occs, n)
  {
    if n == 0 {
      assert order[..0] == [];
    } else {
      DrainInOrder(db, order, n - 1, now, s);
      assert order[n - 1] !in order[..n - 1];
      DrainKeeps(Tx(db, []), order[..n - 1], now);
      DrainOneInOrder(db, order, n - 1, Drain(Tx(db, []), order[..n - 1], now), now, s);
      DrainSnoc(Tx(db, []), order, n - 1, now);
    }
  }

  /** Row i is the first of its schedule in the order. */
  ghost predicate IsFirstOfSchedule(occs: seq<Occurrence>, order: seq<nat>, i: nat)
    requires forall k :: 0 <= k < |order| ==> order[k] < |occs|
  {
    exists n: nat :: n < |order| && order[n] == i && forall m :: 0 <= m < n ==> occs[order[m]].sched != occs[i].sched
  }

  lemma DrainOneStarts(db: Db, order: seq<nat>, n: nat, tx: Tx, now: Instant)
    requires n < |order| && forall k :: 0 <= k < |order| ==> order[k] < |db.occs|
    requires |tx.db.occs| == |db.occs| && AllReached(db, order, tx.db.occs, n)
    requires forall k :: 0 <= k < |db.occs| ==> tx.db.occs[k].sched == db.occs[k].sched
    requires forall i :: i in tx.launches ==> IsFirstOfSchedule(db.occs, order, i)
    ensures forall i :: i in DrainOne(tx, order[n], now).launches ==> IsFirstOfSchedule(db.occs, order, i)
  {
    forall i | i in DrainOne(tx, order[n], now).launches ensures IsFirstOfSchedule(db.occs, order, i) {
      if i !in tx.launches {
        assert i == order[n];
      }
    }
  }

  lemma {:induction false} DrainStartsUpTo(db: Db, order: seq<nat>, n: nat, now: Instant)
    requires n <= |order| && forall k :: 0 <= k < |order| ==> order[k] < |db.occs|
    ensures var tx := Drain(Tx(db, []), order[..n], now);
            && AllReached(db, order, tx.db.occs, n)
            && forall i :: i in tx.launches ==> IsFirstOfSchedule(db.occs, order, i)
  {
    if n > 0 {
      var tx := Drain(Tx(db, []), order[..n - 1], now);
      DrainStartsUpTo(db, order, n - 1, now);
      DrainOneStarts(db, order, n - 1, tx, now);
      StillReached(db, order, n - 1, tx, now);
      DrainSnoc(Tx(db, []), order, n - 1, now);
    }
  }

  /** Of the due queued rows of a schedule the drain starts at most one, and that the first in the order. */
  lemma DrainStartsFirst(db: Db, order: seq<nat>, now: Instant, i: nat, j: nat)
    requires IsDrainOrder(db, now, order)
    requires i in Drain(Tx(db, []), order, now).launches && j in Drain(Tx(db, []), order, now).launches
    ensures IsFirstOfSchedule(db.occs, order, i) && IsFirstOfSchedule(db.occs, order, j)
    ensures i != j ==> db.occs[i].sched != db.occs[j].sched
  {
    assert order[..|order|] == order;
    DrainStartsUpTo(db, order, |order|, now);
    var m: nat :| m < |order| && order[m] == i &&
                  forall l :: 0 <= l < m ==> db.occs[order[l]].sched != db.occs[i].sched;
    var n: nat :| n < |order| && order[n] == j &&
                  forall l :: 0 <= l < n ==> db.occs[order[l]].sched != db.occs[j].sched;
  }

  // ---------- one step ----------

  /** Steps that record no regular row of s, and move its stored instant at most past the clock. */
  lemma InstantsKept(db: Db, db': Db, s: nat, clock: Instant, clock': Instant)
    requires InstantsOrdered(db, s, clock) && clock <= clock'
    requires |db.occs| <= |db'.occs| && forall i :: 0 <= i < |db.occs| ==> RowKept(db.occs[i], db'.occs[i])
    requires forall i :: |db.occs| <= i < |db'.occs| ==> !Regular(db'.occs[i], s)
    requires s < |db'.schedules| && db'.schedules[s].nextFireAt.Some? ==>
               || db'.schedules[s].nextFireAt.value > clock'
               || (s < |db.schedules| && db'.schedules[s].nextFireAt == db.schedules[s].nextFireAt)
    ensures InstantsOrdered(db', s, clock')
  {
    forall i | 0 <= i < |db'.occs| && Regular(db'.occs[i], s)
      ensures i < |db.occs| && RowKept(db.occs[i], db'.occs[i])
    {
    }
  }

  lemma FireInstants(cal: Calendar, tx: Tx, t: nat, hint: nat, now: Instant, s: nat)
    requires Advancing(cal) && Sane(tx.db) && t < |tx.db.schedules| && IsDue(tx.db.schedules[t], now)
    requires InstantsOrdered(tx.db, s, now) && forall i :: i in tx.launches ==> i < |tx.db.occs|
    ensures InstantsOrdered(FireDue(cal, tx, t, hint, now).db, s, now)
  {
    var db, db' := tx.db, FireDue(cal, tx, t, hint, now).db;
    FireKeeps(cal, tx, t, hint, now);
    if t == s && db.schedules[s].currentRev.Some? {
      var due := db.schedules[s].nextFireAt.value;
      assert |db'.occs| == |db.occs| + 1 && db'.occs[|db.occs|].scheduledFor == due;
      forall i | 0 <= i < |db.occs| && Regular(db'.occs[i], s) ensures db'.occs[i].scheduledFor < due {
        assert RowKept(db.occs[i], db'.occs[i]);
      }
      InstantsAppended(db, db', s, now);
    } else {
      InstantsKept(db, db', s, now, now);
    }
  }

  /** Recording the stored instant itself and moving it forward. */
  lemma InstantsAppended(db: Db, db': Db, s: nat, now: Instant)
    requires InstantsOrdered(db, s, now) && s < |db.schedules| && s < |db'.schedules|
    requires db.schedules[s].nextFireAt.Some? && db.schedules[s].nextFireAt.value <= now
    requires |db'.occs| == |db.occs| + 1 && forall i :: 0 <= i < |db.occs| ==> RowKept(db.occs[i], db'.occs[i])
    requires db'.occs[|db.occs|].scheduledFor == db.schedules[s].nextFireAt.value
    requires db'.schedules[s].nextFireAt.Some? ==> db'.schedules[s].nextFireAt.value > db.schedules[s].nextFireAt.value
    ensures InstantsOrdered(db', s, now)
  {
    forall i | 0 <= i < |db.occs| ensures RowKept(db.occs[i], db'.occs[i]) {
    }
  }

  /** Steps that start no row and launch nothing. */
  lemma OrderlyKept(db: Db, db': Db, s: nat)
    requires Orderly(Tx(db, []), s) && db'.launched == db.launched
    requires |db.occs| <= |db'.occs|
    requires forall i :: 0 <= i < |db.occs| ==>
               RowKept(db.occs[i], db'.occs[i]) && db'.occs[i].startedAt == db.occs[i].startedAt
    requires forall i :: |db.occs| <= i < |db'.occs| ==> db'.occs[i].startedAt.None?
    ensures Orderly(Tx(db', []), s)
  {
    assert db'.launched + [] == db'.launched && db.launched + [] == db.launched;
  }

  /** Recording a row that starts at once: harmless if it is not of s, or if nothing of s is open. */
  lemma OrderlyFired(tx: Tx, db': Db, s: nat)
    requires Orderly(tx, s) && db'.launched == tx.db.launched && |db'.occs| == |tx.db.occs| + 1
    requires forall i :: 0 <= i < |tx.db.occs| ==>
               RowKept(tx.db.occs[i], db'.occs[i]) && db'.occs[i].startedAt == tx.db.occs[i].startedAt
    requires db'.occs[|tx.db.occs|].startedAt.Some?
    requires Regular(db'.occs[|tx.db.occs|], s) ==>
               forall i :: 0 <= i < |tx.db.occs| && Regular(tx.db.occs[i], s) ==> tx.db.occs[i].status != Queued
    ensures Orderly(Tx(db', tx.launches + [|tx.db.occs|]), s)
  {
    var n := |tx.db.occs|;
    LaunchOne(tx.db, tx.db.launched + tx.launches, db', n, s);
    assert db'.launched + (tx.launches + [n]) == tx.db.launched + tx.launches + [n];
    forall i, j | 0 <= i < j < |db'.occs| && Regular(db'.occs[i], s) && Regular(db'.occs[j], s)
                  && db'.occs[j].startedAt.Some?
      ensures db'.occs[i].status != Queued
    {
      assert RowKept(tx.db.occs[i], db'.occs[i]);
      if j < n { assert RowKept(tx.db.occs[j], db'.occs[j]); }
    }
  }

  /** Recording a row that waits or is skipped. */
  lemma OrderlyRecorded(tx: Tx, db': Db, s: nat)
    requires Orderly(tx, s) && db'.launched == tx.db.launched && |db'.occs| == |tx.db.occs| + 1
    requires db'.occs[..|tx.db.occs|] == tx.db.occs && db'.occs[|tx.db.occs|].startedAt.None?
    ensures Orderly(Tx(db', tx.launches), s)
  {
    forall i | 0 <= i < |tx.db.occs| ensures db'.occs[i] == tx.db.occs[i] {
      assert db'.occs[..|tx.db.occs|][i] == db'.occs[i];
    }
    var l := tx.db.launched + tx.launches;
    assert forall k :: 0 <= k < |l| ==> db'.occs[l[k]] == tx.db.occs[l[k]];
  }

  lemma FireOrderly(cal: Calendar, tx: Tx, t: nat, hint: nat, now: Instant, s: nat)
    requires Advancing(cal) && Sane(tx.db) && t < |tx.db.schedules| && tx.db.schedules[t].nextFireAt.Some?
    requires AllInOrder(tx.db, s) && Orderly(tx, s) && forall i :: i in tx.launches ==> i < |tx.db.occs|
    ensures Orderly(FireDue(cal, tx, t, hint, now), s)
  {
    var tx' := FireDue(cal, tx, t, hint, now);
    FireKeeps(cal, tx, t, hint, now);
    if tx.db.schedules[t].currentRev.None? {
      assert tx'.db.occs == tx.db.occs && tx'.launches == tx.launches;
    } else if tx'.launches == tx.launches {
      OrderlyRecorded(tx, tx'.db, s);
    } else {
      OrderlyFired(tx, tx'.db, s);
    }
  }

  lemma {:induction false} FireAllInstants(cal: Calendar, tx: Tx, due: seq<nat>, hints: map<nat, nat>, now: Instant,
                                           s: nat)
    requires Advancing(cal) && Sane(tx.db) && forall i :: i in tx.launches ==> i < |tx.db.occs|
    requires forall k :: 0 <= k < |due| ==> due[k] < |tx.db.schedules| && tx.db.schedules[due[k]].nextFireAt.Some?
    requires forall k :: 0 <= k < |due| ==> IsDue(tx.db.schedules[due[k]], now)
    requires forall j, k :: 0 <= j < k < |due| ==> due[j] != due[k]
    requires InstantsOrdered(tx.db, s, now)
    ensures InstantsOrdered(FireAll(cal, tx, due, hints, now).db, s, now)
  {
    if due != [] {
      var last := |due| - 1;
      FireAllInstants(cal, tx, due[..last], hints, now, s);
      FireAllKeeps(cal, tx, due[..last], hints, now);
      assert due[last] !in due[..last];
      FireInstants(cal, FireAll(cal, tx, due[..last], hints, now), due[last], HintFor(hints, due[last]), now, s);
    }
  }

  lemma {:induction false} FireAllOrderly(cal: Calendar, tx: Tx, due: seq<nat>, hints: map<nat, nat>, now: Instant,
                                          s: nat)
    requires Advancing(cal) && Sane(tx.db) && forall i :: i in tx.launches ==> i < |tx.db.occs|
    requires forall k :: 0 <= k < |due| ==> due[k] < |tx.db.schedules| && tx.db.schedules[due[k]].nextFireAt.Some?
    requires forall j, k :: 0 <= j < k < |due| ==> due[j] != due[k]
    requires AllInOrder(tx.db, s) && Orderly(tx, s)
    ensures Orderly(FireAll(cal, tx, due, hints, now), s)
    ensures FireAll(cal, tx, due, hints, now).db.revs == tx.db.revs
  {
    if due != [] {
      var last := |due| - 1;
      FireAllOrderly(cal, tx, due[..last], hints, now, s);
      FireAllKeeps(cal, tx, due[..last], hints, now);
      assert due[last] !in due[..last];
      FireOrderly(cal, FireAll(cal, tx, due[..last], hints, now), due[last], HintFor(hints, due[last]), now, s);
    }
  }

  lemma DrainFacts(db: Db, order: seq<nat>, now: Instant, s: nat)
    requires Sane(db) && IsDrainOrder(db, now, order) && InstantsOrdered(db, s, now)
    ensures TxKept(Tx(db, []), Drain(Tx(db, []), order, now))
    ensures InstantsOrdered(Drain(Tx(db, []), order, now).db, s, now)
    ensures Orderly(Tx(db, []), s) ==> Orderly(Drain(Tx(db, []), order, now), s)
  {
    DrainKeeps(Tx(db, []), order, now);
    InstantsKept(db, Drain(Tx(db, []), order, now).db, s, now, now);
    if Orderly(Tx(db, []), s) {
      assert order[..|order|] == order;
      DrainInOrder(db, order, |order|, now, s);
    }
  }

  lemma LaunchOrderly(tx: Tx, s: nat, now: Instant)
    ensures InstantsOrdered(tx.db, s, now) ==> InstantsOrdered(Launch(tx), s, now)
    ensures Orderly(tx, s) ==> Orderly(Tx(Launch(tx), []), s)
  {
    assert Launch(tx).launched + [] == tx.db.launched + tx.launches;
  }

  lemma TickOrdered(cal: Calendar, db: Db, order: seq<nat>, due: seq<nat>, hints: map<nat, nat>, now: Instant, s: nat)
    requires Advancing(cal) && Sane(db) && IsDrainOrder(db, now, order) && IsDueList(db, now, due)
    requires InstantsOrdered(db, s, now)
    ensures InstantsOrdered(TickStep(cal, db, order, due, hints, now), s, now)
    ensures AllInOrder(db, s) && Orderly(Tx(db, []), s) ==>
            Orderly(Tx(TickStep(cal, db, order, due, hints, now), []), s)
  {
    var tx := Drain(Tx(db, []), order, now);
    DrainFacts(db, order, now, s);
    FireAllInstants(cal, tx, due, hints, now, s);
    if AllInOrder(db, s) && Orderly(Tx(db, []), s) {
      FireAllOrderly(cal, tx, due, hints, now, s);
    }
    LaunchOrderly(FireAll(cal, tx, due, hints, now), s, now);
  }

  // ---------- sweeps ----------

  lemma {:induction false} CollectOrdered(cal: Calendar, trigger: Trigger, cursor: Instant, now: Instant, room: nat)
    requires Advancing(cal) && ValidTrigger(trigger)
    ensures var gap := Collect(cal, trigger, cursor, now, room);
            && |gap.instants| <= room && gap.cursor >= cursor
            && (forall k :: 0 <= k < |gap.instants| ==> cursor <= gap.instants[k] < now && gap.instants[k] < gap.cursor)
            && (forall j, k :: 0 <= j < k < |gap.instants| ==> gap.instants[j] < gap.instants[k])
            && (gap.instants == [] <==> cursor >= now || room == 0)
            && (gap.instants != [] ==> gap.instants[0] == cursor)
    decreases room
  {
    if cursor < now && room > 0 {
      var next := NextFire(cal, trigger, cursor);
      CollectOrdered(cal, trigger, if next.Some? then next.value else now, now, room - 1);
    }
  }

  lemma SweepInstants(cal: Calendar, db: Db, t: nat, now: Instant, s: nat)
    requires Advancing(cal) && Sane(db) && t < |db.schedules| && InstantsOrdered(db, s, now)
    ensures InstantsOrdered(SweepStep(cal, db, t, now), s, now)
  {
    var db', sched := SweepStep(cal, db, t, now), db.schedules[t];
    SweepKeeps(cal, db, t, now);
    if t != s || |db'.occs| == |db.occs| {
      if t == s && sched.currentRev.Some? && sched.nextFireAt.Some? {
        CollectOrdered(cal, db.revs[sched.currentRev.value].config.trigger, sched.nextFireAt.value, now, CATCH_UP_MAX);
      }
      InstantsKept(db, db', s, now, now);
    } else {
      CollectOrdered(cal, db.revs[sched.currentRev.value].config.trigger, sched.nextFireAt.value, now, CATCH_UP_MAX);
      var gap := MissedInstants(cal, db.revs[sched.currentRev.value].config.trigger, sched.nextFireAt.value, now);
      SweptRows(db, db', s, sched.currentRev.value, db.revs[sched.currentRev.value].config.missed, gap.instants, now);
    }
  }

  /** Recording missed instants that lie between the stored instant and the clock. */
  lemma SweptRows(db: Db, db': Db, s: nat, rev: nat, missed: Missed, instants: seq<Instant>, now: Instant)
    requires InstantsOrdered(db, s, now) && s < |db.schedules| && db.schedules[s].nextFireAt.Some?
    requires instants != [] && db'.occs == ApplyMissed(db, s, rev, missed, instants).occs
    requires forall k :: 0 <= k < |instants| ==> db.schedules[s].nextFireAt.value <= instants[k] < now
    requires forall j, k :: 0 <= j < k < |instants| ==> instants[j] < instants[k]
    requires s < |db'.schedules| && (db'.schedules[s].nextFireAt.Some? ==> db'.schedules[s].nextFireAt.value > now)
    ensures InstantsOrdered(db', s, now)
  {
    forall i | |db.occs| <= i < |db'.occs|
      ensures db.schedules[s].nextFireAt.value <= db'.occs[i].scheduledFor < now
    {
    }
  }

  lemma {:induction false} SweepAllInstants(cal: Calendar, db: Db, overdue: seq<nat>, now: Instant, s: nat)
    requires Advancing(cal) && Sane(db) && InstantsOrdered(db, s, now)
    requires forall k :: 0 <= k < |overdue| ==> overdue[k] < |db.schedules|
    ensures InstantsOrdered(SweepAll(cal, db, overdue, now), s, now)
  {
    if overdue != [] {
      var last := |overdue| - 1;
      SweepAllInstants(cal, db, overdue[..last], now, s);
      SweepAllKeeps(cal, db, overdue[..last], now);
      SweepInstants(cal, SweepAll(cal, db, overdue[..last], now), overdue[last], now, s);
    }
  }

  // ---------- every other step ----------

  /** Steps other than ticks start no row, except run_now, whose row is not regular. */
  ghost predicate Quiet(db: Db, db': Db) {
    && db'.launched == db.launched && |db.occs| <= |db'.occs|
    && (forall i :: 0 <= i < |db.occs| ==>
          RowKept(db.occs[i], db'.occs[i]) && db'.occs[i].startedAt == db.occs[i].startedAt)
    && (forall i :: |db.occs| <= i < |db'.occs| ==> db'.occs[i].startedAt.None?)
  }

  lemma {:induction false} SweepAllQuiet(cal: Calendar, db: Db, overdue: seq<nat>, now: Instant)
    requires Advancing(cal) && Sane(db) && forall k :: 0 <= k < |overdue| ==> overdue[k] < |db.schedules|
    ensures Quiet(db, SweepAll(cal, db, overdue, now))
  {
    if overdue != [] {
      var last := |overdue| - 1;
      var mid := SweepAll(cal, db, overdue[..last], now);
      SweepAllQuiet(cal, db, overdue[..last], now);
      SweepQuiet(cal, mid, overdue[last], now);
      QuietComposes(db, mid, SweepStep(cal, mid, overdue[last], now));
    }
  }

  lemma SweepQuiet(cal: Calendar, db: Db, t: nat, now: Instant)
    requires Advancing(cal) && WellFormed(db) && t < |db.schedules|
    ensures Quiet(db, SweepStep(cal, db, t, now))
  {
  }

  lemma QuietComposes(a: Db, b: Db, c: Db)
    requires Quiet(a, b) && Quiet(b, c)
    ensures Quiet(a, c)
  {
    forall i | 0 <= i < |a.occs|
      ensures RowKept(a.occs[i], c.occs[i]) && c.occs[i].startedAt == a.occs[i].startedAt
    {
      assert RowKept(a.occs[i], b.occs[i]) && RowKept(b.occs[i], c.occs[i]);
    }
    forall i | |a.occs| <= i < |c.occs| ensures c.occs[i].startedAt.None? {
      if i < |b.occs| { assert c.occs[i].startedAt == b.occs[i].startedAt; }
    }
  }

  lemma EditFacts(cal: Calendar, db: Db, t: nat, config: Config, enabled: bool, now: Instant, s: nat)
    requires Advancing(cal) && Sane(db) && t < |db.schedules| && ValidTrigger(config.trigger)
    requires InstantsOrdered(db, s, now)
    ensures InstantsOrdered(EditStep(cal, db, t, config, enabled, now), s, now)
    ensures Quiet(db, EditStep(cal, db, t, config, enabled, now))
  {
    var db1 := Revise(db, t, config);
    var db2 := WithSchedule(db1, t, db1.schedules[t].(enabled := enabled));
    assert db2.occs == db.occs && db2.launched == db.launched;
    InstantsKept(db, db2, s, now, now);
    SweepInstants(cal, db2, t, now, s);
    SweepQuiet(cal, db2, t, now);
    var next := NextFire(cal, config.trigger, now);
    InstantsKept(db, WithNextFire(db2, t, next), s, now, now);
  }

  lemma ResumeFacts(cal: Calendar, db: Db, t: nat, now: Instant, s: nat)
    requires Advancing(cal) && Sane(db) && t < |db.schedules| && InstantsOrdered(db, s, now)
    ensures InstantsOrdered(ResumeStep(cal, db, t, now), s, now) && Quiet(db, ResumeStep(cal, db, t, now))
  {
    var db1 := WithSchedule(db, t, db.schedules[t].(enabled := true));
    InstantsKept(db, db1, s, now, now);
    SweepInstants(cal, db1, t, now, s);
    SweepQuiet(cal, db1, t, now);
  }

  lemma FinishFacts(db: Db, i: nat, outcome: Status, now: Instant, later: Instant, s: nat)
    requires Sane(db) && i < |db.occs| && outcome in {Completed, Failed, Cancelled} && InstantsOrdered(db, s, later)
    ensures InstantsOrdered(FinishStep(db, i, outcome, now, later), s, later)
    ensures Quiet(db, FinishStep(db, i, outcome, now, later))
  {
    InstantsKept(db, FinishStep(db, i, outcome, now, later), s, later, later);
  }

  /** The clock reading an event takes, if it takes one. */
  function EventTime(ev: Event, clock: Instant): Instant {
    match ev
    case Tick(now, _, _, _) => now
    case PreambleFails(_, now) => now
    case Finish(_, _, _, later) => later
    case Reconcile(now) => now
    case Sweep(now, _) => now
    case Create(_, _, now) => now
    case Edit(_, _, _, now) => now
    case SyncHeartbeat(_, _, _, now) => now
    case Resume(_, now) => now
    case RunNow(_, now) => now
    case _ => clock
  }

  lemma RunNowFacts(db: Db, t: nat, rev: nat, now: Instant, s: nat)
    requires Sane(db) && InstantsOrdered(db, s, now)
    ensures InstantsOrdered(RunNowStep(db, t, rev, now), s, now)
    ensures Orderly(Tx(db, []), s) ==> Orderly(Tx(RunNowStep(db, t, rev, now), []), s)
  {
    var n, db' := |db.occs|, RunNowStep(db, t, rev, now);
    InstantsKept(db, db', s, now, now);
    if Orderly(Tx(db, []), s) {
      OrderlyFired(Tx(db, []), db'.(launched := db.launched), s);
      assert db'.launched + [] == db.launched + ([] + [n]);
    }
  }

  /** Create, heartbeat sync and the steps that only settle rows or flip switches. */
  lemma PlainFacts(cal: Calendar, db: Db, ev: Event, s: nat, now: Instant)
    requires Advancing(cal) && CanHappen(db, ev) && Sane(db) && InstantsOrdered(db, s, now)
    requires ev.Create? || ev.SyncHeartbeat? || ev.Begin? || ev.PreambleFails? || ev.OutcomeLost? || ev.Restart?
             || ev.Reconcile? || ev.Pause? || ev.Archive? || ev.Unarchive?
    requires EventTime(ev, now) == now
    ensures InstantsOrdered(Step(cal, db, ev), s, now) && Quiet(db, Step(cal, db, ev))
  {
    var db' := Step(cal, db, ev);
    if ev.Create? || ev.SyncHeartbeat? {
      DefinesQuietly(cal, db, ev, db');
    } else {
      SettlesQuietly(cal, db, ev, db');
    }
    InstantsKept(db, db', s, now, now);
  }

  lemma DefinesQuietly(cal: Calendar, db: Db, ev: Event, db': Db)
    requires Advancing(cal) && CanHappen(db, ev) && (ev.Create? || ev.SyncHeartbeat?) && db' == Step(cal, db, ev)
    ensures Quiet(db, db') && |db'.occs| == |db.occs|
  {
  }

  lemma SettlesQuietly(cal: Calendar, db: Db, ev: Event, db': Db)
    requires Advancing(cal) && CanHappen(db, ev) && db' == Step(cal, db, ev)
    requires ev.Begin? || ev.PreambleFails? || ev.OutcomeLost? || ev.Restart? || ev.Reconcile?
             || ev.Pause? || ev.Archive? || ev.Unarchive?
    ensures Quiet(db, db') && |db'.occs| == |db.occs|
  {
  }

  ghost predicate InOrderEvent(db: Db, ev: Event, s: nat) {
    match ev
    case Create(config, _, _) => |db.schedules| == s ==> InOrder(config.overlap)
    case Edit(t, config, _, _) => t == s ==> InOrder(config.overlap)
    case SyncHeartbeat(t, config, _, _) => t == s ==> InOrder(config.overlap)
    case _ => true
  }

  lemma AllInOrderKept(cal: Calendar, db: Db, ev: Event, s: nat)
    requires Advancing(cal) && CanHappen(db, ev) && InOrderEvent(db, ev, s) && AllInOrder(db, s)
    requires ev.Create? || ev.Edit? || ev.SyncHeartbeat?
    ensures AllInOrder(Step(cal, db, ev), s)
  {
  }

  /** Every step but ticks and run_now starts no row. */
  lemma StepQuiet(cal: Calendar, db: Db, ev: Event, s: nat, now: Instant)
    requires Advancing(cal) && CanHappen(db, ev) && Sane(db) && InstantsOrdered(db, s, now)
    requires EventTime(ev, now) == now && !ev.Tick? && !ev.RunNow?
    ensures InstantsOrdered(Step(cal, db, ev), s, now) && Quiet(db, Step(cal, db, ev))
  {
    match ev
    case Finish(i, outcome, first, _) => FinishFacts(db, i, outcome, first, now, s);
    case Sweep(_, overdue) =>
      SweepAllInstants(cal, db, overdue, now, s);
      SweepAllQuiet(cal, db, overdue, now);
    case Edit(t, config, enabled, _) => EditFacts(cal, db, t, config, enabled, now, s);
    case Resume(t, _) => ResumeFacts(cal, db, t, now, s);
    case _ => PlainFacts(cal, db, ev, s, now);
  }

  lemma QuietOrdered(db: Db, db': Db, s: nat)
    requires Quiet(db, db') && AllInOrder(db, s) && Orderly(Tx(db, []), s)
    ensures Orderly(Tx(db', []), s)
  {
    OrderlyKept(db, db', s);
  }

  /** What one step keeps. */
  ghost predicate StaysOrdered(db: Db, db': Db, s: nat, now: Instant) {
    InstantsOrdered(db', s, now) && (AllInOrder(db, s) && Orderly(Tx(db, []), s) ==> Orderly(Tx(db', []), s))
  }

  lemma TickStepOrdered(cal: Calendar, db: Db, ev: Event, s: nat)
    requires Advancing(cal) && CanHappen(db, ev) && Sane(db) && ev.Tick? && InstantsOrdered(db, s, ev.now)
    ensures StaysOrdered(db, Step(cal, db, ev), s, ev.now)
  {
    TickOrdered(cal, db, ev.order, ev.due, ev.hints, ev.now, s);
  }

  lemma RunNowStepOrdered(cal: Calendar, db: Db, ev: Event, s: nat)
    requires Advancing(cal) && CanHappen(db, ev) && Sane(db) && ev.RunNow? && InstantsOrdered(db, s, ev.now)
    ensures StaysOrdered(db, Step(cal, db, ev), s, ev.now)
  {
    RunNowFacts(db, ev.s, db.schedules[ev.s].currentRev.value, ev.now, s);
  }

  lemma QuietStepOrdered(cal: Calendar, db: Db, ev: Event, s: nat, now: Instant)
    requires Advancing(cal) && CanHappen(db, ev) && Sane(db) && InstantsOrdered(db, s, now)
    requires EventTime(ev, now) == now && !ev.Tick? && !ev.RunNow?
    ensures StaysOrdered(db, Step(cal, db, ev), s, now)
  {
    StepQuiet(cal, db, ev, s, now);
    if AllInOrder(db, s) && Orderly(Tx(db, []), s) {
      QuietOrdered(db, Step(cal, db, ev), s);
    }
  }

  lemma StepOrdered(cal: Calendar, db: Db, ev: Event, s: nat, clock: Instant)
    requires Advancing(cal) && CanHappen(db, ev) && Sane(db)
    requires InstantsOrdered(db, s, clock) && clock <= EventTime(ev, clock)
    ensures StaysOrdered(db, Step(cal, db, ev), s, EventTime(ev, clock))
  {
    var now := EventTime(ev, clock);
    InstantsKept(db, db, s, clock, now);
    if ev.Tick? {
      TickStepOrdered(cal, db, ev, s);
    } else if ev.RunNow? {
      RunNowStepOrdered(cal, db, ev, s);
    } else {
      QuietStepOrdered(cal, db, ev, s, now);
    }
  }

  // ---------- runs ----------

  ghost predicate MonotoneClock(evs: seq<Event>, clock: Instant)
    decreases |evs|
  {
    evs == [] || (clock <= EventTime(evs[0], clock) && MonotoneClock(evs[1..], EventTime(evs[0], clock)))
  }

  ghost function LastTime(evs: seq<Event>, clock: Instant): Instant
    decreases |evs|
  {
    if evs == [] then clock else LastTime(evs[1..], EventTime(evs[0], clock))
  }

  ghost predicate InOrderRun(cal: Calendar, db: Db, evs: seq<Event>, s: nat)
    requires Advancing(cal) && CanRun(cal, db, evs)
    decreases |evs|
  {
    evs == [] || (InOrderEvent(db, evs[0], s) && InOrderRun(cal, Step(cal, db, evs[0]), evs[1..], s))
  }

  /** Whatever mix of ticks, sweeps, edits, restarts and policies: no instant is decided twice. */
  lemma {:induction false} InstantsDecidedOnce(cal: Calendar, db: Db, evs: seq<Event>, s: nat, clock: Instant)
    requires Advancing(cal) && CanRun(cal, db, evs) && Sane(db)
    requires MonotoneClock(evs, clock) && InstantsOrdered(db, s, clock)
    ensures InstantsOrdered(Run(cal, db, evs), s, LastTime(evs, clock))
    decreases |evs|
  {
    if evs != [] {
      StepKeepsHistory(cal, db, evs[0]);
      StepOrdered(cal, db, evs[0], s, clock);
      InstantsDecidedOnce(cal, Step(cal, db, evs[0]), evs[1..], s, EventTime(evs[0], clock));
    }
  }

  lemma {:induction false} RunOrderly(cal: Calendar, db: Db, evs: seq<Event>, s: nat, clock: Instant)
    requires Advancing(cal) && CanRun(cal, db, evs) && Sane(db) && InOrderRun(cal, db, evs, s)
    requires MonotoneClock(evs, clock) && InstantsOrdered(db, s, clock)
    requires AllInOrder(db, s) && Orderly(Tx(db, []), s)
    ensures Orderly(Tx(Run(cal, db, evs), []), s)
    decreases |evs|
  {
    if evs != [] {
      var ev, db1 := evs[0], Step(cal, db, evs[0]);
      StepKeepsHistory(cal, db, ev);
      StepOrdered(cal, db, ev, s, clock);
      StepKeepsPolicies(cal, db, ev, s);
      RunOrderly(cal, db1, evs[1..], s, EventTime(ev, clock));
    }
  }

  lemma StepKeepsPolicies(cal: Calendar, db: Db, ev: Event, s: nat)
    requires Advancing(cal) && CanHappen(db, ev) && InOrderEvent(db, ev, s) && AllInOrder(db, s)
    ensures AllInOrder(Step(cal, db, ev), s)
  {
    match ev
    case Tick(now, order, due, hints) => TickSameRevs(cal, db, order, due, hints, now);
    case Sweep(now, overdue) => SweepAllSameRevs(cal, db, overdue, now);
    case Create(_, _, _) => AllInOrderKept(cal, db, ev, s);
    case Edit(_, _, _, _) => AllInOrderKept(cal, db, ev, s);
    case SyncHeartbeat(_, _, _, _) => AllInOrderKept(cal, db, ev, s);
    case _ => assert Step(cal, db, ev).revs == db.revs;
  }

  /** From the empty database: under skip and queue, the occurrences of a schedule that its trigger
      produced are started in strictly increasing order of their instants. */
  lemma StartsInOrder(cal: Calendar, evs: seq<Event>, s: nat, clock: Instant, j: nat, k: nat)
    requires Advancing(cal) && CanRun(cal, EMPTY, evs) && MonotoneClock(evs, clock) && InOrderRun(cal, EMPTY, evs, s)
    requires j < k < |Run(cal, EMPTY, evs).launched|
    ensures var db := Run(cal, EMPTY, evs);
            && db.launched[j] < |db.occs| && db.launched[k] < |db.occs|
            && (Regular(db.occs[db.launched[j]], s) && Regular(db.occs[db.launched[k]], s) ==>
                  db.occs[db.launched[j]].scheduledFor < db.occs[db.launched[k]].scheduledFor)
  {
    InstantsDecidedOnce(cal, EMPTY, evs, s, clock);
    RunOrderly(cal, EMPTY, evs, s, clock);
    LaunchedInOrder(Run(cal, EMPTY, evs), s, LastTime(evs, clock), j, k);
  }

  lemma LaunchedInOrder(db: Db, s: nat, clock: Instant, j: nat, k: nat)
    requires InstantsOrdered(db, s, clock) && Orderly(Tx(db, []), s) && j < k < |db.launched|
    ensures db.launched[j] < |db.occs| && db.launched[k] < |db.occs|
    ensures Regular(db.occs[db.launched[j]], s) && Regular(db.occs[db.launched[k]], s) ==>
              db.occs[db.launched[j]].scheduledFor < db.occs[db.launched[k]].scheduledFor
  {
    assert db.launched + [] == db.launched;
  }

  predicate IsWaiting(occ: Occurrence, s: nat) {
    Regular(occ, s) && occ.status == Queued
  }

  /** Firing overtakes a waiting row exactly when the policy starts a run beside or instead of it. */
  lemma FireOvertakesIff(cal: Calendar, tx: Tx, s: nat, hint: nat, now: Instant)
    requires Advancing(cal) && Sane(tx.db)
    requires s < |tx.db.schedules| && tx.db.schedules[s].nextFireAt.Some? && tx.db.schedules[s].currentRev.Some?
    requires NoneOvertaken(tx.db, s)
    ensures var overlap := tx.db.revs[tx.db.schedules[s].currentRev.value].config.overlap;
            NoneOvertaken(FireDue(cal, tx, s, hint, now).db, s) <==>
            InOrder(overlap) || forall i :: 0 <= i < |tx.db.occs| && IsWaiting(tx.db.occs[i], s) ==>
              overlap == CancelPrevious && OpenOccurrence(tx.db.occs, s, hint) == Some(i)
  {
    var db, db' := tx.db, FireDue(cal, tx, s, hint, now).db;
    var overlap := db.revs[db.schedules[s].currentRev.value].config.overlap;
    var n := |db.occs|;
    assert |db'.occs| == n + 1 && Regular(db'.occs[n], s);
    var cancels := overlap == CancelPrevious;
    if i :| 0 <= i < n && IsWaiting(db.occs[i], s) && !(cancels && OpenOccurrence(db.occs, s, hint) == Some(i)) {
      assert db'.occs[i] == db.occs[i];
      if !InOrder(overlap) {
        assert db'.occs[n].startedAt.Some?;
        assert !NoneOvertaken(db', s);
      }
    }
  }
}
