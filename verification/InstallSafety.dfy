/** What every step of the installer keeps, what holds over whole runs, and what a crash leaves. */
module InstallSafety {
  import opened Wrappers
  import opened InstallJob
  import opened InstallWorld

  // ---------- the invariant ----------

  ghost predicate Owns(locks: map<string, JobId>, j: JobId, deps: set<string>) {
    forall d :: d in deps ==> d in locks && locks[d] == j
  }

  /** The locks are exactly the planned installs of the running jobs, each held by its job. */
  ghost predicate LocksOwned(w: World) {
    && (forall j :: j in w.workers ==> Owns(w.locks, j, Installs(w.workers[j].specs)))
    && (forall d :: d in w.locks ==> w.locks[d] in w.workers && d in Installs(w.workers[w.locks[d]].specs))
  }

  predicate IsVerified(b: Build) {
    b.digestOk && b.healthy
  }

  predicate Placed(installed: map<(string, string), Build>, k: Worker) {
    k.stage == Renamed && k.at < |k.specs| ==> (k.specs[k.at].dep, k.specs[k.at].dest) in installed
  }

  /** Version directories hold verified builds only, and every pointer names one of them. */
  ghost predicate StoreSound(w: World) {
    && (forall place :: place in w.installed ==> IsVerified(w.installed[place]))
    && (forall d :: d in w.pointers ==> (d, w.pointers[d].dest) in w.installed && w.pointers[d].job in w.files)
    && (forall j :: j in w.workers ==> Placed(w.installed, w.workers[j]))
  }

  predicate PointsTo(pointers: map<string, Pointer>, d: string, j: JobId) {
    d in pointers && pointers[d].job == j
  }

  predicate SamePointer(a: map<string, Pointer>, b: map<string, Pointer>, d: string) {
    if d in a then d in b && a[d] == b[d] else d !in b
  }

  /** A planned install is committed exactly when its row says completed; until then the pointer is
      the one the job found. */
  ghost predicate RowsTruthful(pointers: map<string, Pointer>, j: JobId, k: Worker) {
    |k.rows| == |k.specs| && forall i: nat :: i < |k.specs| && k.specs[i].install ==>
      && (PointsTo(pointers, k.specs[i].dep, j) <==> k.rows[i] == RowStatus.Completed)
      && (k.rows[i] != RowStatus.Completed ==> SamePointer(pointers, k.before, k.specs[i].dep))
  }

  ghost predicate AllTruthful(w: World) {
    forall j :: j in w.workers ==> RowsTruthful(w.pointers, j, w.workers[j])
  }

  predicate IsLastInstall(specs: seq<Spec>, i: nat) {
    i < |specs| && specs[i].install && forall j :: i < j < |specs| ==> !specs[j].install
  }

  /** An unfinished file shows the last planned install as pending. */
  ghost predicate FileLags(file: JobFile) {
    && !IsTerminal(file.state) && |file.rows| == |file.specs|
    && forall i: nat :: IsLastInstall(file.specs, i) ==> file.rows[i] == Pending
  }

  /** The unfinished files are those of the running jobs that have not reached their end. */
  ghost predicate FilesInStep(w: World) {
    forall j :: j in w.files ==>
      if j in w.workers && w.workers[j].stage != Closing then FileLags(w.files[j]) else IsTerminal(w.files[j].state)
  }

  ghost predicate Inv(w: World) {
    Shapely(w) && LocksOwned(w) && StoreSound(w) && AllTruthful(w) && FilesInStep(w)
  }

  // ---------- one worker moves ----------

  /** Only worker j and its file change, and its plan does not. */
  ghost predicate Moves(w: World, w': World, j: JobId, k: Worker) {
    && j in w.workers && j in w.files && k.specs == w.workers[j].specs && k.before == w.workers[j].before
    && w'.workers == w.workers[j := k] && w'.locks == w.locks
    && j in w'.files && w'.files == w.files[j := w'.files[j]] && w'.files[j].specs == k.specs
  }

  lemma MoveLocks(w: World, w': World, j: JobId, k: Worker)
    requires LocksOwned(w) && Moves(w, w', j, k)
    ensures LocksOwned(w')
  {
    forall i | i in w'.workers ensures Owns(w'.locks, i, Installs(w'.workers[i].specs)) {
      assert Owns(w.locks, i, Installs(w.workers[i].specs));
    }
  }

  lemma MoveFiles(w: World, w': World, j: JobId, k: Worker)
    requires Shapely(w) && FilesInStep(w) && Moves(w, w', j, k) && WorkerShape(k)
    requires if k.stage == Closing then IsTerminal(w'.files[j].state) else FileLags(w'.files[j])
    ensures Shapely(w') && FilesInStep(w')
  {
  }

  lemma MoveStore(w: World, w': World, j: JobId, k: Worker)
    requires StoreSound(w) && AllTruthful(w) && Moves(w, w', j, k)
    requires w'.pointers == w.pointers && w'.installed == w.installed
    requires RowsTruthful(w.pointers, j, k) && Placed(w.installed, k)
    ensures StoreSound(w') && AllTruthful(w')
  {
  }

  lemma MoveKeeps(w: World, w': World, j: JobId, k: Worker)
    requires Inv(w) && Moves(w, w', j, k)
    requires WorkerShape(k) && w'.pointers == w.pointers && w'.installed == w.installed
    requires RowsTruthful(w.pointers, j, k) && Placed(w.installed, k)
    requires if k.stage == Closing then IsTerminal(w'.files[j].state) else FileLags(w'.files[j])
    ensures Inv(w')
  {
    MoveLocks(w, w', j, k);
    MoveFiles(w, w', j, k);
    MoveStore(w, w', j, k);
  }

  /** Setting the current row, when no pointer is involved. */
  lemma RowSet(pointers: map<string, Pointer>, j: JobId, k: Worker, s: RowStatus)
    requires WorkerShape(k) && RowsTruthful(pointers, j, k) && k.at < |k.specs| && k.rows[k.at] == Pending
    requires s != RowStatus.Completed
    ensures RowsTruthful(pointers, j, SetRow(k, s))
  {
  }

  lemma FinalizedTruthful(pointers: map<string, Pointer>, j: JobId, k: Worker, current: Option<nat>)
    requires RowsTruthful(pointers, j, k)
    ensures RowsTruthful(pointers, j, k.(rows := Finalized(k.rows, current), stage := Closing))
  {
  }

  lemma AbortKeeps(w: World, w': World, j: JobId, k: Worker, inFlight: Option<nat>)
    requires Inv(w) && j in w.workers && k.specs == w.workers[j].specs && k.before == w.workers[j].before
    requires |k.rows| == |k.specs| && k.at <= |k.specs| && RowsTruthful(w.pointers, j, k)
    requires w' == Abort(w, j, k, inFlight)
    ensures Inv(w')
  {
    FinalizedTruthful(w.pointers, j, k, inFlight);
    MoveKeeps(w, w', j, k.(rows := Finalized(k.rows, inFlight), stage := Closing));
  }

  lemma AdvanceKeeps(w: World, w': World, j: JobId, k: Worker, s: RowStatus, failed: bool)
    requires Inv(w) && j in w.workers && k == w.workers[j] && k.stage != Closing && k.at < |k.specs|
    requires s != RowStatus.Completed && w' == WithWorker(w, j, Advance(k, s).(failed := failed))
    ensures Inv(w')
  {
    RowSet(w.pointers, j, k, s);
    MoveKeeps(w, w', j, Advance(k, s).(failed := failed));
  }

  lemma SaveKeeps(w: World, w': World, j: JobId, k: Worker)
    requires Inv(w) && j in w.workers && k.specs == w.workers[j].specs && k.before == w.workers[j].before
    requires k.rows == w.workers[j].rows && WorkerShape(k) &&
             k.stage in {Downloading, Extracting, Verifying, Activating}
    requires w' == Save(w, j, k, Busy)
    ensures Inv(w')
  {
    forall i: nat | IsLastInstall(k.specs, i) ensures k.rows[i] == Pending {
      assert k.at <= i;
    }
    assert RowsTruthful(w.pointers, j, w.workers[j]);
    MoveKeeps(w, w', j, k);
  }

  lemma TopKeeps(w: World, w': World, j: JobId)
    requires Inv(w) && j in w.workers && w.workers[j].stage == Top && w' == TopStep(w, j, w.workers[j])
    ensures Inv(w')
  {
    var k := w.workers[j];
    if k.at == |k.specs| {
      MoveKeeps(w, w', j, k.(stage := Closing));
    } else if k.flagged {
      RowSet(w.pointers, j, k, NotStarted);
      AbortKeeps(w, w', j, SetRow(k, NotStarted), None);
    } else if k.failed {
      AdvanceKeeps(w, w', j, k, NotStarted, k.failed);
    } else if !k.specs[k.at].install {
      AdvanceKeeps(w, w', j, k, Reused, k.failed);
    } else {
      SaveKeeps(w, w', j, k.(stage := Downloading, build := Build(false, false)));
    }
  }

  lemma CancelHereKeeps(w: World, w': World, j: JobId, k: Worker)
    requires Inv(w) && j in w.workers && k == w.workers[j] && k.stage != Closing && k.at < |k.specs|
    requires w' == CancelHere(w, j, k)
    ensures Inv(w')
  {
    RowSet(w.pointers, j, k, RowStatus.Cancelled);
    AbortKeeps(w, w', j, SetRow(k, RowStatus.Cancelled), None);
  }

  lemma StageKeeps(w: World, w': World, j: JobId)
    requires Inv(w) && j in w.workers && w.workers[j].stage in {Downloading, Extracting, Verifying}
    requires w' == StageOk(w, j, w.workers[j])
    ensures Inv(w')
  {
    var k := w.workers[j];
    if k.flagged {
      CancelHereKeeps(w, w', j, k);
    } else {
      NextStage(k, w'.workers[j]);
      SaveKeeps(w, w', j, w'.workers[j]);
    }
  }

  lemma NextStage(k: Worker, k': Worker)
    requires WorkerShape(k) && (k.stage == Downloading || k.stage == Extracting || k.stage == Verifying)
    requires k' == match k.stage
             case Downloading => k.(stage := Extracting, build := Build(true, false))
             case Extracting => k.(stage := Verifying)
             case _ => k.(stage := Activating, build := k.build.(healthy := true))
    ensures WorkerShape(k')
  {
  }

  /** A version directory appears with the verified build of the job that activates it. */
  lemma MovedKeeps(w: World, j: JobId, place: (string, string), build: Build)
    requires Inv(w) && IsVerified(build) && place !in w.installed
    ensures Inv(w.(installed := w.installed[place := build]))
  {
    var w' := w.(installed := w.installed[place := build]);
    assert LocksOwned(w') && AllTruthful(w') && FilesInStep(w');
  }

  lemma RenameKeeps(w: World, w': World, j: JobId)
    requires Inv(w) && j in w.workers && w.workers[j].stage == Activating && w' == RenameStep(w, j, w.workers[j])
    ensures Inv(w')
  {
    var k := w.workers[j];
    var place := (k.specs[k.at].dep, k.specs[k.at].dest);
    if place in w.installed {
      AdvanceKeeps(w, w', j, k, RowStatus.Failed, true);
    } else {
      MovedKeeps(w, j, place, k.build);
      var moved := w.(installed := w.installed[place := k.build]);
      if k.flagged {
        CancelHereKeeps(moved, w', j, k);
      } else {
        MoveKeeps(moved, w', j, k.(stage := Renamed));
      }
    }
  }

  /** Two running jobs never plan to install the same dependency. */
  lemma MutualExclusion(w: World, i: JobId, j: JobId, d: string)
    requires LocksOwned(w) && i in w.workers && j in w.workers
    requires d in Installs(w.workers[i].specs) && d in Installs(w.workers[j].specs)
    ensures i == j
  {
    assert Owns(w.locks, i, Installs(w.workers[i].specs)) && Owns(w.locks, j, Installs(w.workers[j].specs));
  }

  /** The pointer of a dependency the job does not plan to install may change freely. */
  lemma StrangerTruthful(pointers: map<string, Pointer>, d: string, p: Pointer, i: JobId, k: Worker)
    requires RowsTruthful(pointers, i, k) && d !in Installs(k.specs)
    ensures RowsTruthful(pointers[d := p], i, k)
  {
    forall m: nat | m < |k.specs| && k.specs[m].install ensures k.specs[m].dep != d {
      assert k.specs[m].dep in Installs(k.specs);
    }
  }

  lemma CommitTruthful(pointers: map<string, Pointer>, j: JobId, k: Worker)
    requires WorkerShape(k) && k.stage == Renamed && RowsTruthful(pointers, j, k)
    ensures RowsTruthful(pointers[k.specs[k.at].dep := Pointer(j, k.specs[k.at].dest)], j,
                         Advance(k, RowStatus.Completed))
  {
  }

  lemma PointTruthful(w: World, w': World, j: JobId)
    requires Inv(w) && j in w.workers && w.workers[j].stage == Renamed && w' == PointStep(w, j, w.workers[j])
    ensures AllTruthful(w')
  {
    var k := w.workers[j];
    var d := k.specs[k.at].dep;
    assert d in Installs(k.specs);
    forall i | i in w'.workers ensures RowsTruthful(w'.pointers, i, w'.workers[i]) {
      if i == j {
        CommitTruthful(w.pointers, j, k);
      } else {
        if d in Installs(w.workers[i].specs) {
          MutualExclusion(w, i, j, d);
        }
        StrangerTruthful(w.pointers, d, Pointer(j, k.specs[k.at].dest), i, w.workers[i]);
      }
    }
  }

  lemma PointStore(w: World, w': World, j: JobId)
    requires Shapely(w) && StoreSound(w) && j in w.workers && w.workers[j].stage == Renamed
    requires w' == PointStep(w, j, w.workers[j])
    ensures StoreSound(w')
  {
    assert Placed(w.installed, w.workers[j]);
  }

  lemma PointFiles(w: World, w': World, j: JobId)
    requires Shapely(w) && LocksOwned(w) && FilesInStep(w) && j in w.workers && w.workers[j].stage == Renamed
    requires w' == PointStep(w, j, w.workers[j])
    ensures Shapely(w') && LocksOwned(w') && FilesInStep(w')
  {
    var k' := Advance(w.workers[j], RowStatus.Completed);
    MoveLocks(w, w', j, k');
    MoveFiles(w, w', j, k');
  }

  lemma PointKeeps(w: World, w': World, j: JobId)
    requires Inv(w) && j in w.workers && w.workers[j].stage == Renamed && w' == PointStep(w, j, w.workers[j])
    ensures Inv(w')
  {
    PointTruthful(w, w', j);
    PointStore(w, w', j);
    PointFiles(w, w', j);
  }

  // ---------- starting, ending, cancelling, restarting ----------

  lemma FreshTruthful(w: World, j: JobId, k: Worker)
    requires StoreSound(w) && j !in w.files && k.before == w.pointers
    requires k.rows == seq(|k.specs|, _ => Pending)
    ensures RowsTruthful(w.pointers, j, k)
  {
  }

  lemma StartLocks(w: World, w': World, j: JobId, specs: seq<Spec>)
    requires Shapely(w) && LocksOwned(w) && j !in w.files && Installs(specs) !! w.locks.Keys
    requires w' == StartStep(w, j, specs)
    ensures LocksOwned(w')
  {
    forall i | i in w'.workers ensures Owns(w'.locks, i, Installs(w'.workers[i].specs)) {
      if i != j {
        assert Owns(w.locks, i, Installs(w.workers[i].specs));
      }
    }
  }

  lemma StartFiles(w: World, w': World, j: JobId, specs: seq<Spec>)
    requires Shapely(w) && FilesInStep(w) && j !in w.files && DistinctDeps(specs) && w' == StartStep(w, j, specs)
    ensures Shapely(w') && FilesInStep(w')
  {
    assert FileLags(w'.files[j]) && WorkerShape(w'.workers[j]);
  }

  lemma StartTruthful(w: World, w': World, j: JobId, specs: seq<Spec>)
    requires StoreSound(w) && AllTruthful(w) && j !in w.files && w' == StartStep(w, j, specs)
    ensures StoreSound(w') && AllTruthful(w')
  {
    FreshTruthful(w, j, w'.workers[j]);
  }

  lemma StartKeeps(w: World, w': World, j: JobId, specs: seq<Spec>)
    requires Inv(w) && CanHappen(w, Start(j, specs)) && w' == StartStep(w, j, specs)
    ensures Inv(w')
  {
    StartLocks(w, w', j, specs);
    StartFiles(w, w', j, specs);
    StartTruthful(w, w', j, specs);
  }

  /** The done callback gives back exactly the locks its own job took. */
  lemma ReleasesOwn(w: World, j: JobId)
    requires Inv(w) && j in w.workers
    ensures Installs(w.files[j].specs) == set d | d in w.locks && w.locks[d] == j
  {
    assert Owns(w.locks, j, Installs(w.workers[j].specs));
  }

  lemma EndLocks(w: World, w': World, j: JobId)
    requires Inv(w) && j in w.workers && w' == TaskDone(w, j)
    ensures LocksOwned(w')
  {
    ReleasesOwn(w, j);
    forall i | i in w'.workers ensures Owns(w'.locks, i, Installs(w'.workers[i].specs)) {
      assert Owns(w.locks, i, Installs(w.workers[i].specs));
    }
  }

  lemma EndKeeps(w: World, w': World, j: JobId)
    requires Inv(w) && CanHappen(w, TaskEnds(j)) && w' == TaskDone(w, j)
    ensures Inv(w')
  {
    EndLocks(w, w', j);
    assert StoreSound(w') && AllTruthful(w');
  }

  lemma CancelKeeps(w: World, w': World, j: JobId)
    requires Inv(w) && j in w.files && w' == CancelStep(w, j)
    ensures Inv(w')
  {
    if w.files[j].state == Busy {
      assert j in w.workers && FileLags(w.files[j]);
      assert RowsTruthful(w.pointers, j, w.workers[j]);
      MoveKeeps(w, w', j, w.workers[j].(flagged := true, posted := true));
    }
  }

  lemma ShutdownLocks(w: World, w': World)
    requires LocksOwned(w) && w' == ShutdownStep(w)
    ensures LocksOwned(w')
  {
    forall i | i in w'.workers ensures Owns(w'.locks, i, Installs(w'.workers[i].specs)) {
      assert Owns(w.locks, i, Installs(w.workers[i].specs));
    }
  }

  lemma ShutdownShapes(w: World, w': World)
    requires Shapely(w) && w' == ShutdownStep(w)
    ensures Shapely(w')
  {
  }

  lemma ShutdownRest(w: World, w': World)
    requires StoreSound(w) && AllTruthful(w) && w' == ShutdownStep(w)
    ensures StoreSound(w') && AllTruthful(w')
  {
    forall j | j in w'.workers ensures RowsTruthful(w'.pointers, j, w'.workers[j]) {
      assert RowsTruthful(w.pointers, j, w.workers[j]);
    }
  }

  lemma ShutdownKeeps(w: World, w': World)
    requires Inv(w) && w' == ShutdownStep(w)
    ensures Inv(w')
  {
    ShutdownLocks(w, w');
    ShutdownShapes(w, w');
    ShutdownRest(w, w');
  }

  lemma RestartKeeps(w: World, w': World)
    requires Inv(w) && w' == RestartStep(w)
    ensures Inv(w')
  {
  }

  lemma BeginKeeps(w: World, w': World, j: JobId)
    requires Inv(w) && j in w.workers && w.workers[j].stage == Created
    requires w' == WithWorker(w, j, w.workers[j].(stage := Top))
    ensures Inv(w')
  {
    assert RowsTruthful(w.pointers, j, w.workers[j]);
    MoveKeeps(w, w', j, w.workers[j].(stage := Top));
  }

  lemma WorkerKeeps(w: World, ev: Event, w': World)
    requires Inv(w) && CanHappen(w, ev) && w' == Step(w, ev)
    requires ev.Begin? || ev.LoopTop? || ev.Succeeds? || ev.Fails? || ev.CancelSeen? || ev.Thrown? || ev.Rename? ||
             ev.Point?
    ensures Inv(w')
  {
    match ev
    case Begin(j) => BeginKeeps(w, w', j);
    case LoopTop(j) => TopKeeps(w, w', j);
    case Succeeds(j) => StageKeeps(w, w', j);
    case Fails(j) => AdvanceKeeps(w, w', j, w.workers[j], RowStatus.Failed, true);
    case CancelSeen(j) => CancelHereKeeps(w, w', j, w.workers[j]);
    case Thrown(j) => AbortKeeps(w, w', j, w.workers[j], Some(w.workers[j].at));
    case Rename(j) => RenameKeeps(w, w', j);
    case Point(j) => PointKeeps(w, w', j);
  }

  lemma StepKeeps(w: World, ev: Event, w': World)
    requires Inv(w) && CanHappen(w, ev) && w' == Step(w, ev)
    ensures Inv(w')
  {
    match ev
    case Start(j, specs) => StartKeeps(w, w', j, specs);
    case TaskEnds(j) => EndKeeps(w, w', j);
    case Cancel(j) => CancelKeeps(w, w', j);
    case Shutdown => ShutdownKeeps(w, w');
    case Restart => RestartKeeps(w, w');
    case _ => WorkerKeeps(w, ev, w');
  }
}
