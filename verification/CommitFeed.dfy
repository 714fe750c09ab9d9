/** Notifications are broadcast when, and only when, the transaction that wrote them commits: listeners
    armed per payload on the writer's session, disarmed by a rollback. */
module CommitFeed {
  import opened Fanout

  /** One armed payload: an entry in the session's commit list and one in its rollback list, by one id. */
  datatype Listener = Listener(id: nat, payload: Payload)

  /** `rows` are the event ids the open transaction has inserted. */
  datatype Session = Session(rows: set<string>, onCommit: seq<Listener>, onRollback: seq<nat>)

  datatype Db = Db(rows: set<string>, sessions: map<nat, Session>, next: nat, sent: seq<Payload>)

  const FRESH := Session({}, [], [])
  const EMPTY := Db({}, map[], 0, [])

  function Of(db: Db, sid: nat): Session {
    if sid in db.sessions then db.sessions[sid] else FRESH
  }

  /** _emit_after_commit_payload */
  function Arm(db: Db, sid: nat, session: Session, payload: Payload): Db {
    db.(sessions := db.sessions[sid := session.(onCommit := session.onCommit + [Listener(db.next, payload)],
                                                onRollback := session.onRollback + [db.next])],
        next := db.next + 1)
  }

  /** create_notification: an event id that the session can see is not written again. */
  function Create(db: Db, sid: nat, eventId: string): Db {
    var session := Of(db, sid);
    if eventId in db.rows || eventId in session.rows then db
    else Arm(db, sid, session.(rows := session.rows + {eventId}), Notice(eventId))
  }

  /** notify_inbox_changed */
  function NoteChange(db: Db, sid: nat): Db {
    Arm(db, sid, Of(db, sid), Changed)
  }

  function Payloads(listeners: seq<Listener>): seq<Payload> {
    seq(|listeners|, i requires 0 <= i < |listeners| => listeners[i].payload)
  }

  function Without(ids: seq<nat>, id: nat): seq<nat> {
    if ids == [] then []
    else if ids[0] == id then Without(ids[1..], id)
    else [ids[0]] + Without(ids[1..], id)
  }

  function WithoutListener(listeners: seq<Listener>, id: nat): seq<Listener> {
    if listeners == [] then []
    else if listeners[0].id == id then WithoutListener(listeners[1..], id)
    else [listeners[0]] + WithoutListener(listeners[1..], id)
  }

  /** The commit listeners fire in turn: each removes its counterpart and broadcasts. */
  function Fire(db: Db, sid: nat, listeners: seq<Listener>): Db
    decreases listeners
  {
    if listeners == [] then db
    else
      var session := Of(db, sid);
      Fire(db.(sessions := db.sessions[sid := session.(onRollback := Without(session.onRollback, listeners[0].id))],
               sent := db.sent + [listeners[0].payload]), sid, listeners[1..])
  }

  function Commit(db: Db, sid: nat): Db {
    var session := Of(db, sid);
    var fired := Fire(db, sid, session.onCommit);
    fired.(rows := fired.rows + session.rows,
           sessions := fired.sessions[sid := Of(fired, sid).(rows := {}, onCommit := [])])
  }

  /** The rollback listeners remove their counterparts. */
  function Disarm(session: Session, ids: seq<nat>): Session
    decreases |ids|
  {
    if ids == [] then session.(onRollback := [])
    else Disarm(session.(onCommit := WithoutListener(session.onCommit, ids[0])), ids[1..])
  }

  function Rollback(db: Db, sid: nat): Db {
    db.(sessions := db.sessions[sid := Disarm(Of(db, sid), Of(db, sid).onRollback).(rows := {})])
  }

  datatype Event = Creates(sid: nat, eventId: string) | Changes(sid: nat) | Commits(sid: nat) | RollsBack(sid: nat)

  /** The unique index: a second writer of an event id waits until the first has ended. */
  predicate CanHappen(db: Db, ev: Event) {
    ev.Creates? ==> forall other :: other in db.sessions && other != ev.sid ==> ev.eventId !in db.sessions[other].rows
  }

  function Step(db: Db, ev: Event): Db {
    match ev
    case Creates(sid, eventId) => Create(db, sid, eventId)
    case Changes(sid) => NoteChange(db, sid)
    case Commits(sid) => Commit(db, sid)
    case RollsBack(sid) => Rollback(db, sid)
  }

  // ---------- the reference: what each transaction wrote ----------

  /** Committed payloads in order, and per session what its open transaction has written so far. */
  datatype Ledger = Ledger(committed: seq<Payload>, open: map<nat, seq<Payload>>)

  function Written(book: Ledger, sid: nat): seq<Payload> {
    if sid in book.open then book.open[sid] else []
  }

  function Book(db: Db, book: Ledger, ev: Event): Ledger {
    match ev
    case Creates(sid, eventId) =>
      if eventId in db.rows || eventId in Of(db, sid).rows then book
      else book.(open := book.open[sid := Written(book, sid) + [Notice(eventId)]])
    case Changes(sid) => book.(open := book.open[sid := Written(book, sid) + [Changed]])
    case Commits(sid) => Ledger(book.committed + Written(book, sid), book.open[sid := []])
    case RollsBack(sid) => book.(open := book.open[sid := []])
  }

  function Ids(listeners: seq<Listener>): seq<nat> {
    seq(|listeners|, i requires 0 <= i < |listeners| => listeners[i].id)
  }

  predicate Increasing(ids: seq<nat>, bound: nat) {
    && (forall i :: 0 <= i < |ids| ==> ids[i] < bound)
    && forall i, j :: 0 <= i < j < |ids| ==> ids[i] < ids[j]
  }

  /** The session is armed with exactly what its transaction has written. */
  ghost predicate IsArmed(session: Session, written: seq<Payload>, next: nat) {
    && Payloads(session.onCommit) == written
    && session.onRollback == Ids(session.onCommit) && Increasing(session.onRollback, next)
    && (forall e :: e in session.rows <==> Notice(e) in written)
  }

  /** No notice stands twice. */
  ghost predicate OnceEach(payloads: seq<Payload>) {
    forall i, j :: 0 <= i < j < |payloads| && payloads[i].Notice? ==> payloads[i] != payloads[j]
  }

  ghost predicate Holds(db: Db, book: Ledger, sid: nat) {
    && IsArmed(Of(db, sid), Written(book, sid), db.next)
    && OnceEach(Written(book, sid))
    && forall e :: e in Of(db, sid).rows ==> e !in db.rows
  }

  ghost predicate Apart(db: Db, a: nat, b: nat) {
    a != b ==> Of(db, a).rows !! Of(db, b).rows
  }

  ghost predicate InStep(db: Db, book: Ledger) {
    && db.sent == book.committed && OnceEach(book.committed)
    && (forall e :: e in db.rows <==> Notice(e) in book.committed)
    && (forall sid :: Holds(db, book, sid))
    && (forall a, b :: Apart(db, a, b))
  }

  // ---------- firing and disarming ----------

  lemma {:induction false} WithoutNone(ids: seq<nat>, id: nat)
    requires id !in ids
    ensures Without(ids, id) == ids
  {
    if ids != [] { WithoutNone(ids[1..], id); }
  }

  lemma {:induction false} WithoutNoListener(listeners: seq<Listener>, id: nat)
    requires id !in Ids(listeners)
    ensures WithoutListener(listeners, id) == listeners
  {
    if listeners != [] {
      assert Ids(listeners)[0] == listeners[0].id && Ids(listeners)[1..] == Ids(listeners[1..]);
      WithoutNoListener(listeners[1..], id);
    }
  }

  /** Every armed payload is broadcast once, in order, and no rollback listener stays behind. */
  lemma {:induction false} Fires(db: Db, sid: nat, listeners: seq<Listener>, bound: nat)
    requires Of(db, sid).onRollback == Ids(listeners) && Increasing(Ids(listeners), bound)
    ensures var fired := Fire(db, sid, listeners);
            && fired.sent == db.sent + Payloads(listeners) && fired.rows == db.rows && fired.next == db.next
            && Of(fired, sid) == Of(db, sid).(onRollback := [])
            && forall other :: other != sid ==> Of(fired, other) == Of(db, other)
    decreases listeners
  {
    if listeners != [] {
      var ids := Ids(listeners);
      assert ids[1..] == Ids(listeners[1..]);
      WithoutNone(ids[1..], ids[0]);
      var session := Of(db, sid);
      var session' := session.(onRollback := Without(session.onRollback, listeners[0].id));
      var db' := db.(sessions := db.sessions[sid := session'],
                     sent := db.sent + [listeners[0].payload]);
      Fires(db', sid, listeners[1..], bound);
      assert Payloads(listeners) == [listeners[0].payload] + Payloads(listeners[1..]);
    }
  }

  lemma {:induction false} Disarms(session: Session, ids: seq<nat>, bound: nat)
    requires ids == Ids(session.onCommit) && Increasing(ids, bound)
    ensures Disarm(session, ids) == session.(onCommit := [], onRollback := [])
    decreases |ids|
  {
    if ids != [] {
      var rest := session.onCommit[1..];
      assert ids[1..] == Ids(rest);
      WithoutNoListener(rest, ids[0]);
      Disarms(session.(onCommit := rest), ids[1..], bound);
    }
  }

  // ---------- every step ----------

  lemma ArmKeeps(session: Session, written: seq<Payload>, next: nat, payload: Payload, rows: set<string>)
    requires IsArmed(session, written, next)
    requires rows == session.rows + if payload.Notice? then {payload.eventId} else {}
    ensures IsArmed(Session(rows, session.onCommit + [Listener(next, payload)], session.onRollback + [next]),
                    written + [payload], next + 1)
  {
    var listeners := session.onCommit + [Listener(next, payload)];
    assert Payloads(listeners) == written + [payload];
    assert Ids(listeners) == session.onRollback + [next];
  }

  lemma OnceMore(payloads: seq<Payload>, payload: Payload)
    requires OnceEach(payloads) && (payload.Notice? ==> payload !in payloads)
    ensures OnceEach(payloads + [payload])
  {
  }

  lemma OnceTogether(a: seq<Payload>, b: seq<Payload>)
    requires OnceEach(a) && OnceEach(b) && forall p :: p in a && p.Notice? ==> p !in b
    ensures OnceEach(a + b)
  {
    forall i, j | 0 <= i < j < |a + b| && (a + b)[i].Notice? ensures (a + b)[i] != (a + b)[j] {
      if i < |a| && j >= |a| {
        assert (a + b)[i] in a && (a + b)[j] in b;
      }
    }
  }

  /** One more payload written by session sid. */
  lemma WriteKeeps(db: Db, book: Ledger, sid: nat, payload: Payload, rows: set<string>)
    requires InStep(db, book)
    requires rows == Of(db, sid).rows + if payload.Notice? then {payload.eventId} else {}
    requires payload.Notice? ==> payload.eventId !in db.rows && payload.eventId !in Of(db, sid).rows
    requires payload.Notice? ==> forall other :: other != sid ==> payload.eventId !in Of(db, other).rows
    ensures InStep(Arm(db, sid, Of(db, sid).(rows := rows), payload),
                   book.(open := book.open[sid := Written(book, sid) + [payload]]))
  {
    var db' := Arm(db, sid, Of(db, sid).(rows := rows), payload);
    var book' := book.(open := book.open[sid := Written(book, sid) + [payload]]);
    assert Holds(db, book, sid);
    ArmKeeps(Of(db, sid), Written(book, sid), db.next, payload, rows);
    OnceMore(Written(book, sid), payload);
    forall other ensures Holds(db', book', other) {
      assert Holds(db, book, other);
    }
    forall a, b ensures Apart(db', a, b) {
      assert Apart(db, a, b);
    }
  }

  lemma CommitKeeps(db: Db, book: Ledger, sid: nat)
    requires InStep(db, book)
    ensures InStep(Commit(db, sid), Book(db, book, Commits(sid)))
  {
    var session, written := Of(db, sid), Written(book, sid);
    var db', book' := Commit(db, sid), Book(db, book, Commits(sid));
    assert Holds(db, book, sid);
    Fires(db, sid, session.onCommit, db.next);
    assert Of(db', sid) == Session({}, [], []);
    forall p | p in book.committed && p.Notice? ensures p !in written {
      assert p.eventId in db.rows;
    }
    OnceTogether(book.committed, written);
    forall other ensures Holds(db', book', other) {
      assert Holds(db, book, other) && Apart(db, sid, other);
    }
    forall a, b ensures Apart(db', a, b) {
      assert Apart(db, a, b);
    }
  }

  lemma RollbackKeeps(db: Db, book: Ledger, sid: nat)
    requires InStep(db, book)
    ensures InStep(Rollback(db, sid), Book(db, book, RollsBack(sid)))
  {
    var db', book' := Rollback(db, sid), Book(db, book, RollsBack(sid));
    assert Holds(db, book, sid);
    Disarms(Of(db, sid), Of(db, sid).onRollback, db.next);
    forall other ensures Holds(db', book', other) {
      assert Holds(db, book, other);
    }
    forall a, b ensures Apart(db', a, b) {
      assert Apart(db, a, b);
    }
  }

  lemma StepKeeps(db: Db, book: Ledger, ev: Event)
    requires InStep(db, book) && CanHappen(db, ev)
    ensures InStep(Step(db, ev), Book(db, book, ev))
  {
    match ev
    case Creates(sid, eventId) =>
      if eventId !in db.rows && eventId !in Of(db, sid).rows {
        WriteKeeps(db, book, sid, Notice(eventId), Of(db, sid).rows + {eventId});
      }
    case Changes(sid) =>
      assert Of(db, sid).(rows := Of(db, sid).rows) == Of(db, sid);
      WriteKeeps(db, book, sid, Changed, Of(db, sid).rows);
    case Commits(sid) => CommitKeeps(db, book, sid);
    case RollsBack(sid) => RollbackKeeps(db, book, sid);
  }

  // ---------- every run ----------

  ghost predicate CanRun(db: Db, events: seq<Event>)
    decreases |events|
  {
    events == [] || (CanHappen(db, events[0]) && CanRun(Step(db, events[0]), events[1..]))
  }

  ghost function Run(db: Db, book: Ledger, events: seq<Event>): (Db, Ledger)
    requires CanRun(db, events)
    decreases |events|
  {
    if events == [] then (db, book) else Run(Step(db, events[0]), Book(db, book, events[0]), events[1..])
  }

  lemma {:induction false} RunKeeps(db: Db, book: Ledger, events: seq<Event>)
    requires CanRun(db, events) && InStep(db, book)
    ensures InStep(Run(db, book, events).0, Run(db, book, events).1)
    decreases |events|
  {
    if events != [] {
      StepKeeps(db, book, events[0]);
      RunKeeps(Step(db, events[0]), Book(db, book, events[0]), events[1..]);
    }
  }

  /** Whatever sessions write, commit and roll back, in whatever order: the payloads broadcast are those of
      the committed transactions, in the order of the commits and within one in the order written; each
      notification goes out once, and exactly those that are in the table have gone out. */
  lemma BroadcastsAreCommits(events: seq<Event>)
    requires CanRun(EMPTY, events)
    ensures var (db, book) := Run(EMPTY, Ledger([], map[]), events);
            && db.sent == book.committed && OnceEach(db.sent)
            && forall e :: e in db.rows <==> Notice(e) in db.sent
  {
    RunKeeps(EMPTY, Ledger([], map[]), events);
  }
}
