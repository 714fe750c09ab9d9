/** Guarantees of the installer over every run, crashes and restarts included. */
module InstallRuns {
  import opened Wrappers
  import opened InstallJob
  import opened InstallWorld
  import opened InstallSafety

  const EMPTY := World(map[], map[], map[], map[], map[])

  ghost predicate CanRun(w: World, events: seq<Event>)
    decreases |events|
  {
    events == [] ||
    (Shapely(w) && CanHappen(w, events[0]) && CanRun(Step(w, events[0]), events[1..]))
  }

  ghost function Run(w: World, events: seq<Event>): World
    requires CanRun(w, events)
    decreases |events|
  {
    if events == [] then w else Run(Step(w, events[0]), events[1..])
  }

  lemma {:induction false} RunKeeps(w: World, events: seq<Event>)
    requires Inv(w) && CanRun(w, events)
    ensures Inv(Run(w, events))
    decreases |events|
  {
    if events != [] {
      StepKeeps(w, events[0], Step(w, events[0]));
      RunKeeps(Step(w, events[0]), events[1..]);
    }
  }

  /** At every moment of every run, a pointer names a version directory whose build passed its digest and
      health checks. */
  lemma PointersNameVerified(events: seq<Event>, d: string)
    requires CanRun(EMPTY, events) && d in Run(EMPTY, events).pointers
    ensures var w := Run(EMPTY, events);
            (d, w.pointers[d].dest) in w.installed && IsVerified(w.installed[(d, w.pointers[d].dest)])
  {
    RunKeeps(EMPTY, events);
  }

  /** At no moment of any run do two live jobs hold one dependency, and a lock is held by a live job
      that plans to install its dependency. */
  lemma LocksExclude(events: seq<Event>, i: JobId, j: JobId, d: string)
    requires CanRun(EMPTY, events)
    ensures var w := Run(EMPTY, events);
            && (d in w.locks <==> exists k :: k in w.workers && d in Installs(w.workers[k].specs))
            && (i in w.workers && j in w.workers ==>
                  d in Installs(w.workers[i].specs) * Installs(w.workers[j].specs) ==> i == j)
  {
    var w := Run(EMPTY, events);
    RunKeeps(EMPTY, events);
    if i in w.workers && j in w.workers && d in Installs(w.workers[i].specs) * Installs(w.workers[j].specs) {
      MutualExclusion(w, i, j, d);
    }
    if k :| k in w.workers && d in Installs(w.workers[k].specs) {
      assert Owns(w.locks, k, Installs(w.workers[k].specs));
    }
  }

  // ---------- what a job leaves behind ----------

  /** The job's plan, and the pointers it found, while it runs; a finished id is never used again. */
  ghost predicate Remembers(w: World, j: JobId, specs: seq<Spec>, before: map<string, Pointer>) {
    j in w.files && (j in w.workers ==> w.workers[j].specs == specs && w.workers[j].before == before)
  }

  /** Worker i goes on with the plan and the memory it has, and its job keeps its file. */
  lemma MoveRemembers(w: World, w': World, i: JobId, k: Worker, j: JobId, specs: seq<Spec>, before: map<string,
                      Pointer>)
    requires i in w.workers && Remembers(w, j, specs, before) && w.files.Keys <= w'.files.Keys
    requires w'.workers == w.workers[i := k] && k.specs == w.workers[i].specs && k.before == w.workers[i].before
    ensures Remembers(w', j, specs, before)
  {
  }

  lemma TopRemembers(w: World, w': World, i: JobId, j: JobId, specs: seq<Spec>, before: map<string, Pointer>)
    requires i in w.workers && i in w.files && w.workers[i].at <= |w.workers[i].specs| == |w.workers[i].rows|
    requires Remembers(w, j, specs, before) && w' == TopStep(w, i, w.workers[i])
    ensures Remembers(w', j, specs, before)
  {
    var k := w.workers[i];
    if k.at == |k.specs| {
      MoveRemembers(w, w', i, k.(stage := Closing), j, specs, before);
    } else if k.flagged {
      var rows := Finalized(SetRow(k, NotStarted).rows, None);
      MoveRemembers(w, w', i, k.(rows := rows, stage := Closing), j, specs, before);
    } else if k.failed {
      MoveRemembers(w, w', i, Advance(k, NotStarted), j, specs, before);
    } else if !k.specs[k.at].install {
      MoveRemembers(w, w', i, Advance(k, Reused), j, specs, before);
    } else {
      MoveRemembers(w, w', i, k.(stage := Downloading, build := Build(false, false)), j, specs, before);
    }
  }

  lemma StageRemembers(w: World, w': World, i: JobId, j: JobId, specs: seq<Spec>, before: map<string, Pointer>)
    requires Shapely(w) && i in w.workers && Remembers(w, j, specs, before)
    requires w.workers[i].stage in {Downloading, Extracting, Verifying} && w' == StageOk(w, i, w.workers[i])
    ensures Remembers(w', j, specs, before)
  {
    MoveRemembers(w, w', i, w'.workers[i], j, specs, before);
  }

  lemma RenameRemembers(w: World, w': World, i: JobId, j: JobId, specs: seq<Spec>, before: map<string, Pointer>)
    requires Shapely(w) && i in w.workers && Remembers(w, j, specs, before)
    requires w.workers[i].stage == Activating && w' == RenameStep(w, i, w.workers[i])
    ensures Remembers(w', j, specs, before)
  {
    MoveRemembers(w, w', i, w'.workers[i], j, specs, before);
  }

  lemma StepRemembers(w: World, ev: Event, w': World, j: JobId, specs: seq<Spec>, before: map<string, Pointer>)
    requires Shapely(w) && CanHappen(w, ev) && w' == Step(w, ev) && Remembers(w, j, specs, before)
    ensures Remembers(w', j, specs, before)
  {
    match ev
    case LoopTop(i) => TopRemembers(w, w', i, j, specs, before);
    case Succeeds(i) => StageRemembers(w, w', i, j, specs, before);
    case Rename(i) => RenameRemembers(w, w', i, j, specs, before);
    case Begin(_) => RowRemembers(w, ev, w', j, specs, before);
    case Fails(_) => RowRemembers(w, ev, w', j, specs, before);
    case CancelSeen(_) => RowRemembers(w, ev, w', j, specs, before);
    case Thrown(_) => RowRemembers(w, ev, w', j, specs, before);
    case Point(_) => RowRemembers(w, ev, w', j, specs, before);
    case _ =>
  }

  lemma RowRemembers(w: World, ev: Event, w': World, j: JobId, specs: seq<Spec>, before: map<string, Pointer>)
    requires Shapely(w) && CanHappen(w, ev) && w' == Step(w, ev) && Remembers(w, j, specs, before)
    requires ev.Begin? || ev.Fails? || ev.CancelSeen? || ev.Thrown? || ev.Point?
    ensures Remembers(w', j, specs, before)
  {
    MoveRemembers(w, w', ev.job, w'.workers[ev.job], j, specs, before);
  }

  lemma {:induction false} RunRemembers(w: World, events: seq<Event>, j: JobId, specs: seq<Spec>, before: map<string,
                                        Pointer>)
    requires CanRun(w, events) && Remembers(w, j, specs, before)
    ensures Remembers(Run(w, events), j, specs, before)
    decreases |events|
  {
    if events != [] {
      StepRemembers(w, events[0], Step(w, events[0]), j, specs, before);
      RunRemembers(Step(w, events[0]), events[1..], j, specs, before);
    }
  }

  /** However the world moves after a job starts, as long as the job lives: a planned install whose row is
      not completed (it failed, was cancelled, never started or is still pending) has exactly the pointer it
      had before the job, and a completed row means the pointer is this job's. */
  lemma OnlyCompletedInstallsSwitch(w: World, j: JobId, specs: seq<Spec>, events: seq<Event>, i: nat)
    requires Inv(w) && CanHappen(w, Start(j, specs))
    requires CanRun(StartStep(w, j, specs), events)
    requires j in Run(StartStep(w, j, specs), events).workers && i < |specs| && specs[i].install
    ensures var w' := Run(StartStep(w, j, specs), events);
            && |w'.workers[j].rows| == |specs|
            && (w'.workers[j].rows[i] != RowStatus.Completed ==> SamePointer(w'.pointers, w.pointers, specs[i].dep))
            && (w'.workers[j].rows[i] == RowStatus.Completed <==> PointsTo(w'.pointers, specs[i].dep, j))
  {
    var started := StartStep(w, j, specs);
    StartKeeps(w, started, j, specs);
    RunKeeps(started, events);
    RunRemembers(started, events, j, specs, w.pointers);
    var w' := Run(started, events);
    assert RowsTruthful(w'.pointers, j, w'.workers[j]);
  }

  // ---------- crashes ----------

  /** The live job has switched the pointer of every dependency it planned to install. */
  ghost predicate InstalledAll(k: Worker) {
    && |k.rows| == |k.specs|
    && (exists i: nat :: i < |k.specs| && k.specs[i].install)
    && forall i: nat :: i < |k.specs| && k.specs[i].install ==> k.rows[i] == RowStatus.Completed
  }

  lemma InstalledAllIff(pointers: map<string, Pointer>, j: JobId, k: Worker)
    requires RowsTruthful(pointers, j, k)
    ensures InstalledAll(k) <==> Installs(k.specs) != {} && AllCommitted(pointers, j, k.specs)
  {
    if InstalledAll(k) {
      var i: nat :| i < |k.specs| && k.specs[i].install;
      assert k.specs[i].dep in Installs(k.specs);
      forall m | 0 <= m < |k.specs| && k.specs[m].install ensures PointsTo(pointers, k.specs[m].dep, j) {
      }
    }
    if Installs(k.specs) != {} && AllCommitted(pointers, j, k.specs) {
      var d :| d in Installs(k.specs);
      forall m: nat | m < |k.specs| && k.specs[m].install ensures k.rows[m] == RowStatus.Completed {
        assert PointsTo(pointers, k.specs[m].dep, j);
      }
    }
  }

  /** A crash at any moment of any run: no file is left unfinished; pointers, builds and rows stay as they
      were; and a job that was still running reads completed exactly when it planned an install and, in the
      memory that was lost, had completed every one, and interrupted otherwise. */
  lemma CrashConsistent(events: seq<Event>, j: JobId)
    requires CanRun(EMPTY, events) && j in Run(EMPTY, events).files
    ensures var w := Run(EMPTY, events);
            var w' := RestartStep(w);
            && w'.pointers == w.pointers && w'.installed == w.installed && w'.files.Keys == w.files.Keys
            && w'.locks == map[] && w'.files[j].rows == w.files[j].rows
            && (if IsTerminal(w.files[j].state) then w'.files[j] == w.files[j]
                else j in w.workers &&
                     w'.files[j].state == if InstalledAll(w.workers[j]) then Done(JobCompleted) else Interrupted)
  {
    var w := Run(EMPTY, events);
    RunKeeps(EMPTY, events);
    if !IsTerminal(w.files[j].state) {
      assert FileLags(w.files[j]);
      assert RowsTruthful(w.pointers, j, w.workers[j]);
      InstalledAllIff(w.pointers, j, w.workers[j]);
    }
  }

  lemma {:induction false} LastInstall(specs: seq<Spec>, i: nat) returns (last: nat)
    requires i < |specs| && specs[i].install
    ensures IsLastInstall(specs, last)
    decreases |specs| - i
  {
    if m :| i < m < |specs| && specs[m].install {
      last := LastInstall(specs, m);
    } else {
      last := i;
    }
  }

  /** Reconciliation completes a job without touching its rows: a job reconciled to completed always shows
      an install row that says pending, the row of its last install. */
  lemma ReconciledRowsStayPending(events: seq<Event>, j: JobId) returns (last: nat)
    requires CanRun(EMPTY, events) && j in Run(EMPTY, events).files
    requires !IsTerminal(Run(EMPTY, events).files[j].state)
    requires RestartStep(Run(EMPTY, events)).files[j].state == Done(JobCompleted)
    ensures var file := RestartStep(Run(EMPTY, events)).files[j];
            last < |file.rows| == |file.specs| && file.specs[last].install && file.rows[last] == Pending
  {
    var w := Run(EMPTY, events);
    RunKeeps(EMPTY, events);
    assert FileLags(w.files[j]);
    var d :| d in Installs(w.files[j].specs);
    var i: nat :| i < |w.files[j].specs| && w.files[j].specs[i].install && w.files[j].specs[i].dep == d;
    last := LastInstall(w.files[j].specs, i);
  }

  // ---------- a run that ends so ----------

  const GIT := [Spec("git", true, "v2")]

  /** Job 0 installs git and has come to a stage. */
  function Installing(stage: Stage, build: Build, installed: map<(string, string), Build>): World {
    World(map[], installed, map[0 := JobFile(Busy, GIT, [Pending])], map["git" := 0],
          map[0 := Worker(GIT, [Pending], 0, stage, false, false, false, build, map[])])
  }

  lemma PlansGit()
    ensures Installs(GIT) == {"git"}
  {
    assert GIT[0].dep in Installs(GIT);
  }

  /** A crash after the events leaves the job completed with its row pending. */
  ghost predicate EndsPending(w: World, events: seq<Event>) {
    CanRun(w, events) && RestartStep(Run(w, events)).files == map[0 := JobFile(Done(JobCompleted), GIT, [Pending])]
  }

  lemma RunOn(w: World, ev: Event, w': World, rest: seq<Event>)
    requires Shapely(w) && CanHappen(w, ev) && Step(w, ev) == w' && EndsPending(w', rest)
    ensures EndsPending(w, [ev] + rest)
  {
    assert ([ev] + rest)[1..] == rest;
  }

  lemma GitStarts(rest: seq<Event>)
    requires EndsPending(Installing(Created, Build(false, false), map[]), rest)
    ensures EndsPending(EMPTY, [Start(0, GIT)] + rest)
  {
    PlansGit();
    assert seq(|GIT|, _ => Pending) == [Pending];
    assert (map d | d in Installs(GIT) :: 0) == map["git" := 0];
    RunOn(EMPTY, Start(0, GIT), Installing(Created, Build(false, false), map[]), rest);
  }

  lemma GitBegins(none: Build, rest: seq<Event>)
    requires none == Build(false, false) && EndsPending(Installing(Top, none, map[]), rest)
    ensures EndsPending(Installing(Created, none, map[]), [Begin(0)] + rest)
  {
    RunOn(Installing(Created, none, map[]), Begin(0), Installing(Top, none, map[]), rest);
  }

  lemma GitDownloads(none: Build, rest: seq<Event>)
    requires none == Build(false, false) && EndsPending(Installing(Downloading, none, map[]), rest)
    ensures EndsPending(Installing(Top, none, map[]), [LoopTop(0)] + rest)
  {
    RunOn(Installing(Top, none, map[]), LoopTop(0), Installing(Downloading, none, map[]), rest);
  }

  lemma GitSucceeds(stage: Stage, build: Build, stage': Stage, build': Build, rest: seq<Event>)
    requires stage in {Downloading, Extracting, Verifying} && (stage != Downloading ==> build.digestOk)
    requires var w := Installing(stage, build, map[]); Installing(stage', build', map[]) == StageOk(w, 0, w.workers[0])
    requires EndsPending(Installing(stage', build', map[]), rest)
    ensures EndsPending(Installing(stage, build, map[]), [Succeeds(0)] + rest)
  {
    RunOn(Installing(stage, build, map[]), Succeeds(0), Installing(stage', build', map[]), rest);
  }

  lemma GitActivates(full: Build, rest: seq<Event>)
    requires full == Build(true, true) && EndsPending(Installing(Renamed, full, map[("git", "v2") := full]), rest)
    ensures EndsPending(Installing(Activating, full, map[]), [Rename(0)] + rest)
  {
    RunOn(Installing(Activating, full, map[]), Rename(0), Installing(Renamed, full, map[("git", "v2") := full]), rest);
  }

  lemma GitSwitches(full: Build)
    requires full == Build(true, true)
    ensures EndsPending(Installing(Renamed, full, map[("git", "v2") := full]), [Point(0)] + [])
  {
    var w := Installing(Renamed, full, map[("git", "v2") := full]);
    PlansGit();
    RunOn(w, Point(0), PointStep(w, 0, w.workers[0]), []);
  }

  lemma FromVerifying(half: Build, full: Build) returns (events: seq<Event>)
    requires half == Build(true, false) && full == Build(true, true)
    ensures EndsPending(Installing(Verifying, half, map[]), events)
  {
    GitSwitches(full);
    GitActivates(full, [Point(0)] + []);
    events := [Rename(0)] + ([Point(0)] + []);
    GitSucceeds(Verifying, half, Activating, full, events);
    events := [Succeeds(0)] + events;
  }

  lemma FromDownloading(none: Build, half: Build) returns (events: seq<Event>)
    requires none == Build(false, false) && half == Build(true, false)
    ensures EndsPending(Installing(Downloading, none, map[]), events)
  {
    events := FromVerifying(half, Build(true, true));
    GitSucceeds(Extracting, half, Verifying, half, events);
    events := [Succeeds(0)] + events;
    GitSucceeds(Downloading, none, Extracting, half, events);
    events := [Succeeds(0)] + events;
  }

  /** One of the runs that end so: a first installation crashes right after it has switched its pointer. */
  lemma ReconciledExample() returns (events: seq<Event>)
    ensures CanRun(EMPTY, events)
    ensures RestartStep(Run(EMPTY, events)).files == map[0 := JobFile(Done(JobCompleted), GIT, [Pending])]
  {
    var none := Build(false, false);
    var rest := FromDownloading(none, Build(true, false));
    GitDownloads(none, rest);
    GitBegins(none, [LoopTop(0)] + rest);
    GitStarts([Begin(0)] + ([LoopTop(0)] + rest));
    events := [Start(0, GIT)] + ([Begin(0)] + ([LoopTop(0)] + rest));
  }
}
