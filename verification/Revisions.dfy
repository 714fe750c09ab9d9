/** The revisions of a schedule: numbered without a gap, never twice the same in a row, the newest current. */
module Revisions {
  import opened Schedules
  import opened SchedulerSteps
  import opened SchedulerRuns

  /** The revisions of one schedule, oldest first. */
  function Of(revs: seq<Revision>, s: nat): seq<Revision> {
    if revs == [] then []
    else
      var before, last := revs[..|revs| - 1], revs[|revs| - 1];
      if last.sched == s then Of(before, s) + [last] else Of(before, s)
  }

  /** Numbers 1, 2, 3, ..., and every revision changes something. */
  ghost predicate Chain(list: seq<Revision>) {
    && (forall i :: 0 <= i < |list| ==> list[i].number == i + 1)
    && (forall i :: 0 < i < |list| ==> list[i].config != list[i - 1].config)
  }

  predicate IsCurrent(db: Db, s: nat, list: seq<Revision>)
    requires s < |db.schedules|
  {
    var current := db.schedules[s].currentRev;
    list != [] && current.Some? && current.value < |db.revs| && db.revs[current.value] == list[|list| - 1]
  }

  ghost predicate Versioned(db: Db) {
    && (forall r :: 0 <= r < |db.revs| ==> db.revs[r].sched < |db.schedules|)
    && (forall s: nat :: s < |db.schedules| ==> Chain(Of(db.revs, s)) && IsCurrent(db, s, Of(db.revs, s)))
  }

  lemma OfNext(revs: seq<Revision>, rev: Revision, s: nat)
    ensures Of(revs + [rev], s) == if rev.sched == s then Of(revs, s) + [rev] else Of(revs, s)
  {
    assert (revs + [rev])[..|revs + [rev]| - 1] == revs;
  }

  lemma {:induction false} NoneOf(revs: seq<Revision>, s: nat)
    requires forall r :: 0 <= r < |revs| ==> revs[r].sched != s
    ensures Of(revs, s) == []
  {
    if revs != [] { NoneOf(revs[..|revs| - 1], s); }
  }

  /** Of a gapless history the highest number is the length. */
  lemma {:induction false} MaxIsCount(revs: seq<Revision>, s: nat)
    requires Chain(Of(revs, s))
    ensures MaxNumber(revs, s) == |Of(revs, s)|
  {
    if revs != [] {
      var before, last := revs[..|revs| - 1], revs[|revs| - 1];
      var list := Of(revs, s);
      if last.sched == s {
        assert Of(before, s) == list[..|list| - 1] && list[|list| - 1] == last;
      }
      MaxIsCount(before, s);
    }
  }

  // ---------- writing a revision ----------

  lemma ChainNext(list: seq<Revision>, rev: Revision)
    requires Chain(list) && rev.number == |list| + 1 && (list != [] ==> rev.config != list[|list| - 1].config)
    ensures Chain(list + [rev])
  {
  }

  /** A revision that changes something, for a schedule with a gapless history or none. */
  lemma WriteVersions(db: Db, db': Db, s: nat, config: Config)
    requires s < |db.schedules| && forall r :: 0 <= r < |db.revs| ==> db.revs[r].sched < |db.schedules|
    requires forall t: nat :: t < |db.schedules| && t != s ==> Chain(Of(db.revs, t)) && IsCurrent(db, t, Of(db.revs, t))
    requires Chain(Of(db.revs, s))
    requires Of(db.revs, s) != [] ==> config != Of(db.revs, s)[|Of(db.revs, s)| - 1].config
    requires db' == WriteRevision(db, s, config)
    ensures Versioned(db') && Of(db'.revs, s) == Of(db.revs, s) + [Revision(s, |Of(db.revs, s)| + 1, config)]
  {
    var list := Of(db.revs, s);
    var rev := Revision(s, |list| + 1, config);
    MaxIsCount(db.revs, s);
    assert db'.revs == db.revs + [rev];
    ChainNext(list, rev);
    OfNext(db.revs, rev, s);
    forall t: nat | t < |db.schedules| ensures Chain(Of(db'.revs, t)) && IsCurrent(db', t, Of(db'.revs, t)) {
      if t != s {
        OtherVersion(db, db', rev, t);
      }
    }
  }

  lemma OtherVersion(db: Db, db': Db, rev: Revision, t: nat)
    requires t < |db.schedules| == |db'.schedules| && db'.schedules[t] == db.schedules[t]
    requires db'.revs == db.revs + [rev] && rev.sched != t
    requires Chain(Of(db.revs, t)) && IsCurrent(db, t, Of(db.revs, t))
    ensures Chain(Of(db'.revs, t)) && IsCurrent(db', t, Of(db'.revs, t))
  {
    OfNext(db.revs, rev, t);
  }

  /** A configuration that differs from the current one becomes the next number of its schedule; the current one
      changes nothing at all; no other schedule, no occurrence and no task is touched either way. */
  lemma ReviseAppends(db: Db, s: nat, config: Config, r: Db)
    requires WellFormed(db) && Versioned(db) && s < |db.schedules| && ValidTrigger(config.trigger)
    requires r == Revise(db, s, config)
    ensures Versioned(r)
    ensures var list := Of(db.revs, s);
            if list[|list| - 1].config == config then r == db
            else Of(r.revs, s) == list + [Revision(s, |list| + 1, config)]
    ensures r.occs == db.occs && r.live == db.live && r.launched == db.launched && OnlyRevised(db, r, s)
  {
    var list := Of(db.revs, s);
    if list[|list| - 1].config != config {
      WriteVersions(db, r, s, config);
      forall t: nat | t != s ensures Of(r.revs, t) == Of(db.revs, t) {
        OfNext(db.revs, Revision(s, MaxNumber(db.revs, s) + 1, config), t);
      }
    }
  }

  ghost predicate OnlyRevised(db: Db, db': Db, s: nat) {
    && |db'.schedules| == |db.schedules|
    && forall t: nat :: t < |db.schedules| && t != s ==>
         db'.schedules[t] == db.schedules[t] && Of(db'.revs, t) == Of(db.revs, t)
  }

  // ---------- steps that write no revision ----------

  ghost predicate SameRevs(db: Db, db': Db) {
    && db'.revs == db.revs && |db'.schedules| == |db.schedules|
    && forall s :: 0 <= s < |db.schedules| ==> db'.schedules[s].currentRev == db.schedules[s].currentRev
  }

  lemma SameVersions(db: Db, db': Db)
    requires Versioned(db) && SameRevs(db, db')
    ensures Versioned(db')
  {
    forall s: nat | s < |db'.schedules| ensures Chain(Of(db'.revs, s)) && IsCurrent(db', s, Of(db'.revs, s)) {
      assert IsCurrent(db, s, Of(db.revs, s));
    }
  }

  lemma {:induction false} DrainSameRevs(tx: Tx, order: seq<nat>, now: Instant)
    requires forall k :: 0 <= k < |order| ==> order[k] < |tx.db.occs|
    ensures SameRevs(tx.db, Drain(tx, order, now).db)
  {
    if order != [] { DrainSameRevs(tx, order[..|order| - 1], now); }
  }

  lemma FireSameRevs(cal: Calendar, tx: Tx, s: nat, hint: nat, now: Instant)
    requires Advancing(cal) && WellFormed(tx.db) && s < |tx.db.schedules| && tx.db.schedules[s].nextFireAt.Some?
    ensures SameRevs(tx.db, FireDue(cal, tx, s, hint, now).db)
  {
  }

  lemma {:induction false} FireAllSameRevs(cal: Calendar, tx: Tx, due: seq<nat>, hints: map<nat, nat>, now: Instant)
    requires Advancing(cal) && WellFormed(tx.db)
    requires forall k :: 0 <= k < |due| ==> due[k] < |tx.db.schedules| && tx.db.schedules[due[k]].nextFireAt.Some?
    requires forall j, k :: 0 <= j < k < |due| ==> due[j] != due[k]
    ensures SameRevs(tx.db, FireAll(cal, tx, due, hints, now).db)
  {
    if due != [] {
      var last := |due| - 1;
      assert due[last] !in due[..last];
      FireAllSameRevs(cal, tx, due[..last], hints, now);
      FireSameRevs(cal, FireAll(cal, tx, due[..last], hints, now), due[last], HintFor(hints, due[last]), now);
    }
  }

  lemma SweepSameRevs(cal: Calendar, db: Db, s: nat, now: Instant)
    requires Advancing(cal) && WellFormed(db) && s < |db.schedules|
    ensures SameRevs(db, SweepStep(cal, db, s, now))
  {
  }

  lemma {:induction false} SweepAllSameRevs(cal: Calendar, db: Db, overdue: seq<nat>, now: Instant)
    requires Advancing(cal) && WellFormed(db) && forall k :: 0 <= k < |overdue| ==> overdue[k] < |db.schedules|
    ensures SameRevs(db, SweepAll(cal, db, overdue, now))
  {
    if overdue != [] {
      var last := |overdue| - 1;
      SweepAllSameRevs(cal, db, overdue[..last], now);
      SweepSameRevs(cal, SweepAll(cal, db, overdue[..last], now), overdue[last], now);
    }
  }

  lemma TickSameRevs(cal: Calendar, db: Db, order: seq<nat>, due: seq<nat>, hints: map<nat, nat>, now: Instant)
    requires Advancing(cal) && WellFormed(db) && IsDrainOrder(db, now, order) && IsDueList(db, now, due)
    ensures SameRevs(db, TickStep(cal, db, order, due, hints, now))
  {
    DrainSameRevs(Tx(db, []), order, now);
    FireAllSameRevs(cal, Drain(Tx(db, []), order, now), due, hints, now);
  }

  // ---------- every step, every run ----------

  /** Settling rows, starting and ending tasks, flipping switches. */
  lemma PlainSameRevs(cal: Calendar, db: Db, ev: Event)
    requires Advancing(cal) && CanHappen(db, ev)
    requires !ev.Tick? && !ev.Sweep? && !ev.Resume? && !ev.Create? && !ev.Edit? && !ev.SyncHeartbeat?
    ensures SameRevs(db, Step(cal, db, ev))
  {
  }

  lemma CreateVersions(cal: Calendar, db: Db, config: Config, enabled: bool, now: Instant)
    requires Advancing(cal) && WellFormed(db) && Versioned(db) && ValidTrigger(config.trigger)
    ensures Versioned(CreateStep(cal, db, config, enabled, now))
  {
    var s := |db.schedules|;
    var added := db.(schedules := db.schedules + [FreshSchedule(enabled)]);
    NoneOf(db.revs, s);
    forall t: nat | t < s ensures IsCurrent(added, t, Of(db.revs, t)) {
      assert IsCurrent(db, t, Of(db.revs, t));
    }
    var written := WriteRevision(added, s, config);
    WriteVersions(added, written, s, config);
    SameVersions(written, CreateStep(cal, db, config, enabled, now));
  }

  lemma EditVersions(cal: Calendar, db: Db, s: nat, config: Config, enabled: bool, now: Instant)
    requires Advancing(cal) && WellFormed(db) && Versioned(db) && s < |db.schedules| && ValidTrigger(config.trigger)
    ensures Versioned(EditStep(cal, db, s, config, enabled, now))
  {
    var db1 := Revise(db, s, config);
    ReviseAppends(db, s, config, db1);
    SweepSameRevs(cal, WithSchedule(db1, s, db1.schedules[s].(enabled := enabled)), s, now);
    SameVersions(db1, EditStep(cal, db, s, config, enabled, now));
  }

  lemma SyncVersions(cal: Calendar, db: Db, s: nat, config: Config, enabled: bool, now: Instant)
    requires Advancing(cal) && WellFormed(db) && Versioned(db) && s < |db.schedules| && ValidTrigger(config.trigger)
    ensures Versioned(SyncHeartbeatStep(cal, db, s, config, enabled, now))
  {
    ReviseAppends(db, s, config, Revise(db, s, config));
    SameVersions(Revise(db, s, config), SyncHeartbeatStep(cal, db, s, config, enabled, now));
  }

  lemma StepVersions(cal: Calendar, db: Db, ev: Event, db': Db)
    requires Advancing(cal) && CanHappen(db, ev) && Versioned(db) && db' == Step(cal, db, ev)
    ensures Versioned(db')
  {
    match ev
    case Create(config, enabled, now) => CreateVersions(cal, db, config, enabled, now);
    case Edit(s, config, enabled, now) => EditVersions(cal, db, s, config, enabled, now);
    case SyncHeartbeat(s, config, enabled, now) => SyncVersions(cal, db, s, config, enabled, now);
    case Tick(now, order, due, hints) =>
      TickSameRevs(cal, db, order, due, hints, now);
      SameVersions(db, db');
    case Sweep(now, overdue) =>
      SweepAllSameRevs(cal, db, overdue, now);
      SameVersions(db, db');
    case Resume(s, now) =>
      SweepSameRevs(cal, WithSchedule(db, s, db.schedules[s].(enabled := true)), s, now);
      SameVersions(db, db');
    case _ =>
      PlainSameRevs(cal, db, ev);
      SameVersions(db, db');
  }

  lemma {:induction false} RunVersions(cal: Calendar, db: Db, evs: seq<Event>)
    requires Advancing(cal) && CanRun(cal, db, evs) && Versioned(db)
    ensures Versioned(Run(cal, db, evs))
    decreases |evs|
  {
    if evs != [] {
      StepVersions(cal, db, evs[0], Step(cal, db, evs[0]));
      RunVersions(cal, Step(cal, db, evs[0]), evs[1..]);
    }
  }

  /** After any run: the revisions of a schedule carry the numbers 1, 2, 3, ..., no two neighbours are equal, and
      the schedule's current revision is the last of them. */
  lemma RevisionsNumbered(cal: Calendar, evs: seq<Event>, s: nat)
    requires Advancing(cal) && CanRun(cal, EMPTY, evs) && s < |Run(cal, EMPTY, evs).schedules|
    ensures var db := Run(cal, EMPTY, evs);
            Chain(Of(db.revs, s)) && IsCurrent(db, s, Of(db.revs, s))
  {
    RunVersions(cal, EMPTY, evs);
  }
}
