/** The course of one job: left alone it installs everything it planned, and cancelled it starts nothing more. */
module InstallCourse {
  import opened Wrappers
  import opened InstallJob
  import opened InstallWorld
  import opened InstallSafety
  import opened InstallRuns

  // ---------- cancelled ----------

  ghost predicate NoneDone(rows: seq<RowStatus>, q: nat) {
    forall i: nat :: q <= i < |rows| ==> rows[i] != RowStatus.Completed && rows[i] != Reused
  }

  /** Job j has been told to stop: rows from q on are not done, and only a switch below q may still be under way. */
  ghost predicate IsStopped(w: World, j: JobId, q: nat) {
    && j in w.files && NoneDone(w.files[j].rows, q)
    && (j in w.workers ==>
          && w.workers[j].flagged && NoneDone(w.workers[j].rows, q)
          && (w.workers[j].stage == Renamed ==> w.workers[j].at < q))
  }

  lemma FinalizedNoneDone(rows: seq<RowStatus>, inFlight: Option<nat>, q: nat)
    requires NoneDone(rows, q)
    ensures NoneDone(Finalized(rows, inFlight), q)
  {
  }

  /** Worker i moves; if it is j, then to a stopped state. */
  lemma StopMove(w: World, w': World, i: JobId, k: Worker, j: JobId, q: nat)
    requires IsStopped(w, j, q) && w'.workers == w.workers[i := k]
    requires i in w'.files && w'.files == w.files[i := w'.files[i]]
    requires i == j ==> k.flagged && NoneDone(k.rows, q) && (k.stage == Renamed ==> k.at < q)
    requires i == j ==> NoneDone(w'.files[i].rows, q)
    ensures IsStopped(w', j, q)
  {
  }

  lemma AbortStops(w: World, w': World, i: JobId, k: Worker, inFlight: Option<nat>, j: JobId, q: nat)
    requires IsStopped(w, j, q) && i in w.files && (i == j ==> k.flagged && NoneDone(k.rows, q))
    requires w'.workers == Abort(w, i, k, inFlight).workers && w'.files == Abort(w, i, k, inFlight).files
    ensures IsStopped(w', j, q)
  {
    if i == j { FinalizedNoneDone(k.rows, inFlight, q); }
    StopMove(w, w', i, k.(rows := Finalized(k.rows, inFlight), stage := Closing), j, q);
  }

  lemma TopStops(w: World, w': World, i: JobId, j: JobId, q: nat)
    requires Shapely(w) && IsStopped(w, j, q) && i in w.workers && w.workers[i].stage == Top
    requires w' == TopStep(w, i, w.workers[i])
    ensures IsStopped(w', j, q)
  {
    var k := w.workers[i];
    if k.at == |k.specs| {
      StopMove(w, w', i, k.(stage := Closing), j, q);
    } else if k.flagged {
      AbortStops(w, w', i, SetRow(k, NotStarted), None, j, q);
    } else {
      LoopStops(w, w', i, j, q);
    }
  }

  lemma LoopStops(w: World, w': World, i: JobId, j: JobId, q: nat)
    requires Shapely(w) && IsStopped(w, j, q) && i in w.workers && w.workers[i].stage == Top
    requires w.workers[i].at < |w.workers[i].specs| && !w.workers[i].flagged && w' == TopStep(w, i, w.workers[i])
    ensures IsStopped(w', j, q)
  {
    assert i != j;
    StopMove(w, w', i, w'.workers[i], j, q);
  }

  lemma CancelHereStops(w: World, w': World, i: JobId, j: JobId, q: nat)
    requires IsStopped(w, j, q) && i in w.workers && i in w.files && w.workers[i].at < |w.workers[i].rows|
    requires w'.workers == CancelHere(w, i, w.workers[i]).workers && w'.files == CancelHere(w, i, w.workers[i]).files
    ensures IsStopped(w', j, q)
  {
    AbortStops(w, w', i, SetRow(w.workers[i], RowStatus.Cancelled), None, j, q);
  }

  lemma StageStops(w: World, w': World, i: JobId, j: JobId, q: nat)
    requires Shapely(w) && IsStopped(w, j, q) && i in w.workers
    requires w.workers[i].stage in {Downloading, Extracting, Verifying} && w' == StageOk(w, i, w.workers[i])
    ensures IsStopped(w', j, q)
  {
    if w.workers[i].flagged {
      CancelHereStops(w, w', i, j, q);
    } else {
      StopMove(w, w', i, w'.workers[i], j, q);
    }
  }

  lemma RenameStops(w: World, w': World, i: JobId, j: JobId, q: nat)
    requires Shapely(w) && IsStopped(w, j, q) && i in w.workers && w.workers[i].stage == Activating
    requires w' == RenameStep(w, i, w.workers[i])
    ensures IsStopped(w', j, q)
  {
    var k := w.workers[i];
    if (k.specs[k.at].dep, k.specs[k.at].dest) !in w.installed && k.flagged {
      CancelHereStops(w, w', i, j, q);
    } else {
      StopMove(w, w', i, w'.workers[i], j, q);
    }
  }

  lemma WorkerStops(w: World, ev: Event, w': World, j: JobId, q: nat)
    requires Shapely(w) && CanHappen(w, ev) && w' == Step(w, ev) && IsStopped(w, j, q)
    requires ev.Begin? || ev.Fails? || ev.CancelSeen? || ev.Thrown? || ev.Point?
    ensures IsStopped(w', j, q)
  {
    if ev.CancelSeen? {
      CancelHereStops(w, w', ev.job, j, q);
    } else if ev.Thrown? {
      AbortStops(w, w', ev.job, w.workers[ev.job], Some(w.workers[ev.job].at), j, q);
    } else {
      RowStops(w, ev, w', j, q);
    }
  }

  lemma RowStops(w: World, ev: Event, w': World, j: JobId, q: nat)
    requires Shapely(w) && CanHappen(w, ev) && w' == Step(w, ev) && IsStopped(w, j, q)
    requires ev.Begin? || ev.Fails? || ev.Point?
    ensures IsStopped(w', j, q)
  {
    StopMove(w, w', ev.job, w'.workers[ev.job], j, q);
  }

  lemma TaskEndStops(w: World, w': World, i: JobId, j: JobId, q: nat)
    requires IsStopped(w, j, q) && i in w.files && w' == TaskDone(w, i)
    ensures IsStopped(w', j, q)
  {
    if i == j { FinalizedNoneDone(w.files[j].rows, None, q); }
  }

  lemma InstallerStops(w: World, ev: Event, w': World, j: JobId, q: nat)
    requires Shapely(w) && CanHappen(w, ev) && w' == Step(w, ev) && IsStopped(w, j, q)
    requires ev.Start? || ev.TaskEnds? || ev.Cancel? || ev.Shutdown? || ev.Restart?
    ensures IsStopped(w', j, q)
  {
    match ev
    case TaskEnds(i) => TaskEndStops(w, w', i, j, q);
    case _ =>
  }

  lemma StepStops(w: World, ev: Event, w': World, j: JobId, q: nat)
    requires Shapely(w) && CanHappen(w, ev) && w' == Step(w, ev) && IsStopped(w, j, q)
    ensures IsStopped(w', j, q)
  {
    if ev.LoopTop? {
      TopStops(w, w', ev.job, j, q);
    } else if ev.Succeeds? {
      StageStops(w, w', ev.job, j, q);
    } else if ev.Rename? {
      RenameStops(w, w', ev.job, j, q);
    } else if ev.Begin? || ev.Fails? || ev.CancelSeen? || ev.Thrown? || ev.Point? {
      WorkerStops(w, ev, w', j, q);
    } else {
      InstallerStops(w, ev, w', j, q);
    }
  }

  lemma {:induction false} RunStops(w: World, events: seq<Event>, j: JobId, q: nat)
    requires CanRun(w, events) && IsStopped(w, j, q)
    ensures IsStopped(Run(w, events), j, q)
    decreases |events|
  {
    if events != [] {
      StepStops(w, events[0], Step(w, events[0]), j, q);
      RunStops(Step(w, events[0]), events[1..], j, q);
    }
  }

  /** The dependencies a job may still complete when it is told to stop: those before its position, and the one at
      its position if the build stands in place already. */
  function Reach(k: Worker): nat {
    if k.stage == Renamed then k.at + 1 else k.at
  }

  /** An unfinished file tells of no dependency that the worker has not come to. */
  ghost predicate FilesBehind(w: World) {
    forall j :: j in w.workers ==> j in w.files && NoneDone(w.files[j].rows, w.workers[j].at)
                                   && (w.workers[j].stage != Closing ==> NoneDone(w.workers[j].rows, w.workers[j].at))
  }

  /** However the world goes on after a cancellation or a shutdown: the job completes and reuses nothing more than
      the dependencies it had come to; what its file says of the later ones is never that they are there. */
  lemma CancelStops(w: World, j: JobId, stop: Event, events: seq<Event>)
    requires Inv(w) && FilesBehind(w) && j in w.workers && w.workers[j].stage != Closing
    requires (stop == Cancel(j) && w.files[j].state == Busy) || stop == Shutdown
    requires CanRun(Step(w, stop), events)
    ensures var w' := Run(Step(w, stop), events);
            j in w'.files && NoneDone(w'.files[j].rows, Reach(w.workers[j]))
            && (j in w'.workers ==> w'.workers[j].flagged && NoneDone(w'.workers[j].rows, Reach(w.workers[j])))
  {
    RunStops(Step(w, stop), events, j, Reach(w.workers[j]));
  }

  // ---------- files never run ahead ----------

  lemma BehindMove(w: World, w': World, j: JobId, k: Worker)
    requires FilesBehind(w) && w'.workers == w.workers[j := k]
    requires j in w'.files && w'.files == w.files[j := w'.files[j]]
    requires NoneDone(w'.files[j].rows, k.at) && (k.stage != Closing ==> NoneDone(k.rows, k.at))
    ensures FilesBehind(w')
  {
  }

  lemma AbortBehind(w: World, w': World, j: JobId, k: Worker, inFlight: Option<nat>)
    requires FilesBehind(w) && j in w.files && NoneDone(k.rows, k.at)
    requires w'.workers == Abort(w, j, k, inFlight).workers && w'.files == Abort(w, j, k, inFlight).files
    ensures FilesBehind(w')
  {
    FinalizedNoneDone(k.rows, inFlight, k.at);
    BehindMove(w, w', j, k.(rows := Finalized(k.rows, inFlight), stage := Closing));
  }

  lemma TopBehind(w: World, w': World, j: JobId)
    requires Shapely(w) && FilesBehind(w) && j in w.workers && w.workers[j].stage == Top
    requires w' == TopStep(w, j, w.workers[j])
    ensures FilesBehind(w')
  {
    var k := w.workers[j];
    if k.at == |k.specs| {
      BehindMove(w, w', j, k.(stage := Closing));
    } else if k.flagged {
      AbortBehind(w, w', j, SetRow(k, NotStarted), None);
    } else {
      LoopBehind(w, w', j);
    }
  }

  lemma LoopBehind(w: World, w': World, j: JobId)
    requires Shapely(w) && FilesBehind(w) && j in w.workers && w.workers[j].stage == Top
    requires w.workers[j].at < |w.workers[j].specs| && !w.workers[j].flagged && w' == TopStep(w, j, w.workers[j])
    ensures FilesBehind(w')
  {
    BehindMove(w, w', j, w'.workers[j]);
  }

  lemma CancelHereBehind(w: World, w': World, j: JobId)
    requires Shapely(w) && FilesBehind(w) && j in w.workers && w.workers[j].stage !in {Created, Top, Closing}
    requires w'.workers == CancelHere(w, j, w.workers[j]).workers && w'.files == CancelHere(w, j, w.workers[j]).files
    ensures FilesBehind(w')
  {
    AbortBehind(w, w', j, SetRow(w.workers[j], RowStatus.Cancelled), None);
  }

  lemma StageBehind(w: World, w': World, j: JobId)
    requires Shapely(w) && FilesBehind(w) && j in w.workers
    requires w.workers[j].stage in {Downloading, Extracting, Verifying} && w' == StageOk(w, j, w.workers[j])
    ensures FilesBehind(w')
  {
    if w.workers[j].flagged {
      CancelHereBehind(w, w', j);
    } else {
      BehindMove(w, w', j, w'.workers[j]);
    }
  }

  lemma RenameBehind(w: World, w': World, j: JobId)
    requires Shapely(w) && FilesBehind(w) && j in w.workers && w.workers[j].stage == Activating
    requires w' == RenameStep(w, j, w.workers[j])
    ensures FilesBehind(w')
  {
    var k := w.workers[j];
    if (k.specs[k.at].dep, k.specs[k.at].dest) !in w.installed && k.flagged {
      CancelHereBehind(w, w', j);
    } else {
      BehindMove(w, w', j, w'.workers[j]);
    }
  }

  lemma WorkerBehind(w: World, ev: Event, w': World)
    requires Shapely(w) && CanHappen(w, ev) && w' == Step(w, ev) && FilesBehind(w)
    requires ev.Begin? || ev.Fails? || ev.CancelSeen? || ev.Thrown? || ev.Point?
    ensures FilesBehind(w')
  {
    if ev.CancelSeen? {
      CancelHereBehind(w, w', ev.job);
    } else if ev.Thrown? {
      AbortBehind(w, w', ev.job, w.workers[ev.job], Some(w.workers[ev.job].at));
    } else {
      RowBehind(w, ev, w');
    }
  }

  lemma RowBehind(w: World, ev: Event, w': World)
    requires Shapely(w) && CanHappen(w, ev) && w' == Step(w, ev) && FilesBehind(w)
    requires ev.Begin? || ev.Fails? || ev.Point?
    ensures FilesBehind(w')
  {
    BehindMove(w, w', ev.job, w'.workers[ev.job]);
  }

  lemma InstallerBehind(w: World, ev: Event, w': World)
    requires Shapely(w) && CanHappen(w, ev) && w' == Step(w, ev) && FilesBehind(w)
    requires ev.Start? || ev.TaskEnds? || ev.Cancel? || ev.Shutdown? || ev.Restart?
    ensures FilesBehind(w')
  {
    match ev
    case Start(j, specs) => StartBehind(w, w', j, specs);
    case TaskEnds(j) => EndBehind(w, w', j);
    case Cancel(j) => CancelBehind(w, w', j);
    case _ =>
  }

  lemma StartBehind(w: World, w': World, j: JobId, specs: seq<Spec>)
    requires Shapely(w) && FilesBehind(w) && j !in w.files && w' == StartStep(w, j, specs)
    ensures FilesBehind(w')
  {
    assert forall i :: i in w.workers ==> i != j;
  }

  lemma EndBehind(w: World, w': World, j: JobId)
    requires FilesBehind(w) && j in w.files && w' == TaskDone(w, j)
    ensures FilesBehind(w')
  {
  }

  lemma CancelBehind(w: World, w': World, j: JobId)
    requires FilesBehind(w) && j in w.files && w' == CancelStep(w, j)
    ensures FilesBehind(w')
  {
  }

  lemma StepBehind(w: World, ev: Event, w': World)
    requires Shapely(w) && CanHappen(w, ev) && w' == Step(w, ev) && FilesBehind(w)
    ensures FilesBehind(w')
  {
    if ev.LoopTop? {
      TopBehind(w, w', ev.job);
    } else if ev.Succeeds? {
      StageBehind(w, w', ev.job);
    } else if ev.Rename? {
      RenameBehind(w, w', ev.job);
    } else if ev.Begin? || ev.Fails? || ev.CancelSeen? || ev.Thrown? || ev.Point? {
      WorkerBehind(w, ev, w');
    } else {
      InstallerBehind(w, ev, w');
    }
  }

  lemma {:induction false} RunBehind(w: World, events: seq<Event>)
    requires CanRun(w, events) && FilesBehind(w)
    ensures FilesBehind(Run(w, events))
    decreases |events|
  {
    if events != [] {
      StepBehind(w, events[0], Step(w, events[0]));
      RunBehind(Step(w, events[0]), events[1..]);
    }
  }

  /** So it is in every reachable world. */
  lemma CancelStopsAlways(before: seq<Event>, j: JobId, stop: Event, events: seq<Event>)
    requires CanRun(EMPTY, before)
    requires var w := Run(EMPTY, before);
             && j in w.workers && j in w.files && w.workers[j].stage != Closing
             && ((stop == Cancel(j) && w.files[j].state == Busy) || stop == Shutdown)
    requires Shapely(Run(EMPTY, before)) && CanRun(Step(Run(EMPTY, before), stop), events)
    ensures var w := Run(EMPTY, before);
            var w' := Run(Step(w, stop), events);
            j in w'.files && NoneDone(w'.files[j].rows, Reach(w.workers[j]))
  {
    RunKeeps(EMPTY, before);
    RunBehind(EMPTY, before);
    CancelStops(Run(EMPTY, before), j, stop, events);
  }

  // ---------- left alone ----------

  lemma {:induction false} RunJoins(w: World, first: seq<Event>, second: seq<Event>)
    requires CanRun(w, first) && CanRun(Run(w, first), second)
    ensures CanRun(w, first + second) && Run(w, first + second) == Run(Run(w, first), second)
    decreases |first|
  {
    if first == [] {
      assert first + second == second;
    } else {
      assert (first + second)[1..] == first[1..] + second && (first + second)[0] == first[0];
      RunJoins(Step(w, first[0]), first[1..], second);
    }
  }

  ghost predicate Leads(w: World, events: seq<Event>, w': World) {
    CanRun(w, events) && Run(w, events) == w'
  }

  lemma LeadsOne(w: World, ev: Event, w': World)
    requires Shapely(w) && CanHappen(w, ev) && w' == Step(w, ev)
    ensures Leads(w, [ev], w')
  {
    assert [ev][1..] == [];
    assert CanRun(w', []) && Run(w', []) == w';
  }

  lemma LeadsOn(w: World, first: seq<Event>, mid: World, second: seq<Event>, w': World)
    requires Leads(w, first, mid) && Leads(mid, second, w')
    ensures Leads(w, first + second, w')
  {
    RunJoins(w, first, second);
  }

  /** Worker j stands undisturbed at a stage of its dependency `at`, with these rows; the store is as given. */
  ghost predicate StandsAt(w: World, j: JobId, specs: seq<Spec>, rows: seq<RowStatus>, at: nat, stage: Stage,
                           pointers: map<string, Pointer>, installed: map<(string, string), Build>) {
    && Inv(w) && j in w.workers && w.pointers == pointers && w.installed == installed
    && var k := w.workers[j];
       k.specs == specs && k.rows == rows && k.at == at && k.stage == stage && !k.flagged && !k.failed
  }

  /** Its row is settled without an install, or the install begins. */
  lemma TopGoesOn(w: World, j: JobId, specs: seq<Spec>, rows: seq<RowStatus>, at: nat,
                  pointers: map<string, Pointer>, installed: map<(string, string), Build>) returns (w': World)
    requires StandsAt(w, j, specs, rows, at, Top, pointers, installed) && at < |specs| == |rows|
    ensures Leads(w, [LoopTop(j)], w')
    ensures if specs[at].install then StandsAt(w', j, specs, rows, at, Downloading, pointers, installed)
            else StandsAt(w', j, specs, rows[at := Reused], at + 1, Top, pointers, installed)
  {
    w' := Step(w, LoopTop(j));
    StepKeeps(w, LoopTop(j), w');
    LeadsOne(w, LoopTop(j), w');
  }

  lemma StageGoesOn(w: World, j: JobId, specs: seq<Spec>, rows: seq<RowStatus>, at: nat, stage: Stage, stage': Stage,
                    pointers: map<string, Pointer>, installed: map<(string, string), Build>) returns (w': World)
    requires StandsAt(w, j, specs, rows, at, stage, pointers, installed)
    requires (stage == Downloading && stage' == Extracting) || (stage == Extracting && stage' == Verifying)
             || (stage == Verifying && stage' == Activating)
    ensures Leads(w, [Succeeds(j)], w') && StandsAt(w', j, specs, rows, at, stage', pointers, installed)
  {
    w' := Step(w, Succeeds(j));
    StepKeeps(w, Succeeds(j), w');
    LeadsOne(w, Succeeds(j), w');
  }

  lemma RenameGoesOn(w: World, j: JobId, specs: seq<Spec>, rows: seq<RowStatus>, at: nat,
                     pointers: map<string, Pointer>, installed: map<(string, string), Build>, place: (string, string))
    returns (w': World)
    requires StandsAt(w, j, specs, rows, at, Activating, pointers, installed) && at < |specs|
    requires place == (specs[at].dep, specs[at].dest) && place !in installed
    ensures Leads(w, [Rename(j)], w')
    ensures StandsAt(w', j, specs, rows, at, Renamed, pointers, installed[place := Build(true, true)])
  {
    w' := Step(w, Rename(j));
    StepKeeps(w, Rename(j), w');
    LeadsOne(w, Rename(j), w');
    assert WorkerShape(w.workers[j]);
  }

  lemma PointGoesOn(w: World, j: JobId, specs: seq<Spec>, rows: seq<RowStatus>, at: nat,
                    pointers: map<string, Pointer>, installed: map<(string, string), Build>) returns (w': World)
    requires StandsAt(w, j, specs, rows, at, Renamed, pointers, installed) && at < |specs| == |rows|
    ensures Leads(w, [Point(j)], w')
    ensures StandsAt(w', j, specs, rows[at := RowStatus.Completed], at + 1, Top,
                     pointers[specs[at].dep := Pointer(j, specs[at].dest)], installed)
  {
    w' := Step(w, Point(j));
    StepKeeps(w, Point(j), w');
    LeadsOne(w, Point(j), w');
  }

  /** From the download to the place of the build. */
  lemma BuildGoesOn(w: World, j: JobId, specs: seq<Spec>, rows: seq<RowStatus>, at: nat,
                    pointers: map<string, Pointer>, installed: map<(string, string), Build>, place: (string, string))
    returns (events: seq<Event>, w': World)
    requires StandsAt(w, j, specs, rows, at, Downloading, pointers, installed) && at < |specs|
    requires place == (specs[at].dep, specs[at].dest) && place !in installed
    ensures Leads(w, events, w')
    ensures StandsAt(w', j, specs, rows, at, Renamed, pointers, installed[place := Build(true, true)])
  {
    var w1 := StageGoesOn(w, j, specs, rows, at, Downloading, Extracting, pointers, installed);
    var w2 := StageGoesOn(w1, j, specs, rows, at, Extracting, Verifying, pointers, installed);
    var w3 := StageGoesOn(w2, j, specs, rows, at, Verifying, Activating, pointers, installed);
    w' := RenameGoesOn(w3, j, specs, rows, at, pointers, installed, place);
    LeadsOn(w, [Succeeds(j)], w1, [Succeeds(j)], w2);
    LeadsOn(w, [Succeeds(j)] + [Succeeds(j)], w2, [Succeeds(j)], w3);
    LeadsOn(w, [Succeeds(j)] + [Succeeds(j)] + [Succeeds(j)], w3, [Rename(j)], w');
    events := [Succeeds(j)] + [Succeeds(j)] + [Succeeds(j)] + [Rename(j)];
  }

  lemma InstallGoesOn(w: World, j: JobId, specs: seq<Spec>, rows: seq<RowStatus>, at: nat,
                      pointers: map<string, Pointer>, installed: map<(string, string), Build>, place: (string, string))
    returns (events: seq<Event>, w': World)
    requires StandsAt(w, j, specs, rows, at, Top, pointers, installed) && at < |specs| == |rows|
    requires specs[at].install && place == (specs[at].dep, specs[at].dest) && place !in installed
    ensures Leads(w, events, w')
    ensures StandsAt(w', j, specs, rows[at := RowStatus.Completed], at + 1, Top,
                     pointers[specs[at].dep := Pointer(j, specs[at].dest)], installed[place := Build(true, true)])
  {
    var w1 := TopGoesOn(w, j, specs, rows, at, pointers, installed);
    var built, w2 := BuildGoesOn(w1, j, specs, rows, at, pointers, installed, place);
    w' := PointGoesOn(w2, j, specs, rows, at, pointers, installed[place := Build(true, true)]);
    LeadsOn(w, [LoopTop(j)], w1, built, w2);
    LeadsOn(w, [LoopTop(j)] + built, w2, [Point(j)], w');
    events := [LoopTop(j)] + built + [Point(j)];
  }

  /** The plan from `at` on is carried out in rows, pointers and store. */
  ghost predicate CarriesOut(specs: seq<Spec>, j: JobId, at: nat, rows: seq<RowStatus>, pointers: map<string, Pointer>,
                             installed: map<(string, string), Build>) {
    && |rows| == |specs|
    && forall i: nat :: at <= i < |specs| ==>
         if specs[i].install
         then && rows[i] == RowStatus.Completed
              && specs[i].dep in pointers && pointers[specs[i].dep] == Pointer(j, specs[i].dest)
              && (specs[i].dep, specs[i].dest) in installed
              && installed[(specs[i].dep, specs[i].dest)] == Build(true, true)
         else rows[i] == Reused
  }

  /** No version directory of the plan is there yet. */
  ghost predicate PlacesFree(specs: seq<Spec>, at: nat, installed: map<(string, string), Build>) {
    forall i: nat :: at <= i < |specs| && specs[i].install ==> (specs[i].dep, specs[i].dest) !in installed
  }

  /** Nothing of dependency `at` changes later. */
  ghost predicate KeepsAt(specs: seq<Spec>, j: JobId, at: nat, rows: seq<RowStatus>, pointers: map<string, Pointer>,
                          installed: map<(string, string), Build>, rows': seq<RowStatus>,
                          pointers': map<string, Pointer>, installed': map<(string, string), Build>) {
    && |rows'| == |rows| && (forall i :: 0 <= i < at && i < |rows| ==> rows'[i] == rows[i])
    && (forall i: nat :: i < at && i < |specs| && specs[i].dep in pointers ==>
          specs[i].dep in pointers' && pointers'[specs[i].dep] == pointers[specs[i].dep])
    && (forall place :: place in installed ==> place in installed' && installed'[place] == installed[place])
  }

  /** What was done for dependency `at` is still there when the rest has been carried out. */
  lemma CarriesInstall(specs: seq<Spec>, j: JobId, at: nat, rows: seq<RowStatus>, pointers: map<string, Pointer>,
                       installed: map<(string, string), Build>, rows': seq<RowStatus>,
                       pointers': map<string, Pointer>, installed': map<(string, string), Build>)
    requires at < |specs| == |rows| && DistinctDeps(specs) && specs[at].install && PlacesFree(specs, at, installed)
    requires var place := (specs[at].dep, specs[at].dest);
             KeepsAt(specs, j, at + 1, rows[at := RowStatus.Completed], pointers[place.0 := Pointer(j, place.1)],
                     installed[place := Build(true, true)], rows', pointers', installed')
    requires CarriesOut(specs, j, at + 1, rows', pointers', installed')
    ensures CarriesOut(specs, j, at, rows', pointers', installed')
    ensures KeepsAt(specs, j, at, rows, pointers, installed, rows', pointers', installed')
  {
    var place := (specs[at].dep, specs[at].dest);
    assert place.0 in pointers[place.0 := Pointer(j, place.1)] && place in installed[place := Build(true, true)];
    assert rows'[at] == rows[at := RowStatus.Completed][at];
    forall i: nat | i < at && specs[i].dep in pointers
      ensures specs[i].dep in pointers' && pointers'[specs[i].dep] == pointers[specs[i].dep]
    {
      assert specs[i].dep != specs[at].dep;
    }
  }

  lemma CarriesReuse(specs: seq<Spec>, j: JobId, at: nat, rows: seq<RowStatus>, pointers: map<string, Pointer>,
                     installed: map<(string, string), Build>, rows': seq<RowStatus>,
                     pointers': map<string, Pointer>, installed': map<(string, string), Build>)
    requires at < |specs| == |rows| && !specs[at].install
    requires KeepsAt(specs, j, at + 1, rows[at := Reused], pointers, installed, rows', pointers', installed')
    requires CarriesOut(specs, j, at + 1, rows', pointers', installed')
    ensures CarriesOut(specs, j, at, rows', pointers', installed')
    ensures KeepsAt(specs, j, at, rows, pointers, installed, rows', pointers', installed')
  {
    assert rows'[at] == rows[at := Reused][at];
  }

  /** The later places stay free. */
  lemma StillFree(specs: seq<Spec>, at: nat, installed: map<(string, string), Build>)
    requires at < |specs| && DistinctDeps(specs) && PlacesFree(specs, at, installed)
    ensures PlacesFree(specs, at + 1, installed)
    ensures PlacesFree(specs, at + 1, installed[(specs[at].dep, specs[at].dest) := Build(true, true)])
  {
  }

  lemma {:induction false} GoesThrough(w: World, j: JobId, specs: seq<Spec>, rows: seq<RowStatus>, at: nat,
                                       pointers: map<string, Pointer>, installed: map<(string, string), Build>)
    returns (events: seq<Event>, w': World, rows': seq<RowStatus>, pointers': map<string, Pointer>,
             installed': map<(string, string), Build>)
    requires StandsAt(w, j, specs, rows, at, Top, pointers, installed) && at <= |specs| == |rows|
    requires DistinctDeps(specs) && PlacesFree(specs, at, installed)
    ensures Leads(w, events, w') && StandsAt(w', j, specs, rows', |specs|, Top, pointers', installed')
    ensures CarriesOut(specs, j, at, rows', pointers', installed')
    ensures KeepsAt(specs, j, at, rows, pointers, installed, rows', pointers', installed')
    decreases |specs| - at
  {
    if at == |specs| {
      events, w', rows', pointers', installed' := [], w, rows, pointers, installed;
    } else if specs[at].install {
      var dep, place := specs[at].dep, (specs[at].dep, specs[at].dest);
      StillFree(specs, at, installed);
      var first, w1 := InstallGoesOn(w, j, specs, rows, at, pointers, installed, place);
      var rest;
      rest, w', rows', pointers', installed' :=
        GoesThrough(w1, j, specs, rows[at := RowStatus.Completed], at + 1,
                    pointers[dep := Pointer(j, specs[at].dest)], installed[place := Build(true, true)]);
      CarriesInstall(specs, j, at, rows, pointers, installed, rows', pointers', installed');
      LeadsOn(w, first, w1, rest, w');
      events := first + rest;
    } else {
      var w1 := TopGoesOn(w, j, specs, rows, at, pointers, installed);
      StillFree(specs, at, installed);
      var rest;
      rest, w', rows', pointers', installed' :=
        GoesThrough(w1, j, specs, rows[at := Reused], at + 1, pointers, installed);
      CarriesReuse(specs, j, at, rows, pointers, installed, rows', pointers', installed');
      LeadsOn(w, [LoopTop(j)], w1, rest, w');
      events := [LoopTop(j)] + rest;
    }
  }

  lemma JobBegins(w: World, j: JobId, specs: seq<Spec>) returns (events: seq<Event>, w': World)
    requires Inv(w) && CanHappen(w, Start(j, specs))
    ensures Leads(w, events, w')
    ensures StandsAt(w', j, specs, seq(|specs|, _ => Pending), 0, Top, w.pointers, w.installed)
  {
    var w1 := Step(w, Start(j, specs));
    StepKeeps(w, Start(j, specs), w1);
    LeadsOne(w, Start(j, specs), w1);
    w' := Step(w1, Begin(j));
    StepKeeps(w1, Begin(j), w');
    LeadsOne(w1, Begin(j), w');
    LeadsOn(w, [Start(j, specs)], w1, [Begin(j)], w');
    events := [Start(j, specs)] + [Begin(j)];
  }

  lemma JobCloses(w: World, j: JobId, specs: seq<Spec>, rows: seq<RowStatus>, pointers: map<string, Pointer>,
                  installed: map<(string, string), Build>) returns (w': World)
    requires StandsAt(w, j, specs, rows, |specs|, Top, pointers, installed)
    ensures Leads(w, [LoopTop(j)], w')
    ensures j in w'.files && w'.files[j] == JobFile(Done(JobCompleted), specs, rows)
    ensures w'.pointers == pointers && w'.installed == installed
  {
    w' := Step(w, LoopTop(j));
    LeadsOne(w, LoopTop(j), w');
  }

  /** In any reachable world, a job that may start and whose version directories are free can run to its end; then
      its file reads completed, every planned install has its pointer on its own verified build, and every other
      row was reused. */
  lemma LeftAloneInstalls(before: seq<Event>, j: JobId, specs: seq<Spec>) returns (events: seq<Event>)
    requires CanRun(EMPTY, before) && CanHappen(Run(EMPTY, before), Start(j, specs))
    requires PlacesFree(specs, 0, Run(EMPTY, before).installed)
    ensures var w := Run(EMPTY, before);
            && CanRun(w, events)
            && var w' := Run(w, events);
               && j in w'.files && w'.files[j].state == Done(JobCompleted) && w'.files[j].specs == specs
               && CarriesOut(specs, j, 0, w'.files[j].rows, w'.pointers, w'.installed)
  {
    var w := Run(EMPTY, before);
    RunKeeps(EMPTY, before);
    var begun, w1 := JobBegins(w, j, specs);
    var gone, w2, rows, pointers, installed :=
      GoesThrough(w1, j, specs, seq(|specs|, _ => Pending), 0, w.pointers, w.installed);
    var w3 := JobCloses(w2, j, specs, rows, pointers, installed);
    LeadsOn(w, begun, w1, gone, w2);
    LeadsOn(w, begun + gone, w2, [LoopTop(j)], w3);
    events := begun + gone + [LoopTop(j)];
  }

  // ---------- builds stay ----------

  /** No step replaces or removes a version directory. */
  lemma StepKeepsBuilds(w: World, ev: Event, w': World, place: (string, string))
    requires Shapely(w) && CanHappen(w, ev) && w' == Step(w, ev) && place in w.installed
    ensures place in w'.installed && w'.installed[place] == w.installed[place]
  {
  }

  lemma {:induction false} BuildsStay(w: World, events: seq<Event>, place: (string, string))
    requires CanRun(w, events) && place in w.installed
    ensures place in Run(w, events).installed && Run(w, events).installed[place] == w.installed[place]
    decreases |events|
  {
    if events != [] {
      StepKeepsBuilds(w, events[0], Step(w, events[0]), place);
      BuildsStay(Step(w, events[0]), events[1..], place);
    }
  }

  /** A job told to stop before its task began: after a cancellation its file reads cancelled and every dependency
      as never started, after a shutdown it reads interrupted with its rows as they were. */
  lemma UnbegunEnds(before: seq<Event>, j: JobId)
    requires CanRun(EMPTY, before)
    requires var w := Run(EMPTY, before);
             j in w.workers && j in w.files && w.workers[j].stage == Created && w.workers[j].posted
    ensures var w := Run(EMPTY, before);
            var w' := TaskDone(w, j);
            && CanHappen(w, TaskEnds(j)) && j !in w'.workers && j in w'.files
            && (forall d :: d in Installs(w.files[j].specs) ==> d !in w'.locks)
            && if w.files[j].state == Cancelling
               then w'.files[j].state == Done(JobCancelled) && forall i :: 0 <= i < |w'.files[j].rows| ==>
                      w'.files[j].rows[i] == NotStarted || w'.files[j].rows[i] == w.files[j].rows[i] != Pending
               else w'.files[j] == w.files[j].(state := Interrupted)
  {
    RunKeeps(EMPTY, before);
  }
}
