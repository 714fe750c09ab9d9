/** The rows a finished job leaves in its file, over every run. */
module InstallRows {
  import opened Wrappers
  import opened InstallJob
  import opened InstallWorld
  import opened InstallSafety
  import opened InstallRuns

  /** The rows before the worker's position are in shape, with halt position m. */
  ghost predicate InShape(k: Worker, m: nat) {
    && m <= k.at <= |k.rows|
    && (forall i :: 0 <= i < m ==> IsDone(k.rows[i]))
    && (forall i :: m < i < k.at ==> k.rows[i] == NotStarted)
    && (if k.failed then m < k.at && k.rows[m] == RowStatus.Failed else m == k.at)
    && (k.stage !in {Top, Closing} ==> !k.failed) && (k.stage == Created ==> k.at == 0)
  }

  ghost predicate Shapes(k: Worker) {
    exists m: nat :: InShape(k, m)
  }

  /** What the rows of a finished file say. Only a reconciled file, which reads completed, has pending rows. */
  ghost predicate DoneRows(state: JobState, rows: seq<RowStatus>) {
    match state
    case Active => false
    case JobCompleted => (forall i :: 0 <= i < |rows| ==> IsDone(rows[i])) || Pending in rows
    case JobFailed => Shaped(rows) && RowStatus.Failed in rows
    case JobCancelled => Shaped(rows) && (rows == [] || exists i :: 0 <= i < |rows| && !IsDone(rows[i]))
  }

  ghost predicate RowsSettled(w: World) {
    && (forall j :: j in w.workers && w.workers[j].stage != Closing ==> Shapes(w.workers[j]))
    && (forall j :: j in w.workers && w.workers[j].stage == Created ==>
          j in w.files && w.files[j].rows == w.workers[j].rows)
    && (forall j :: j in w.files && w.files[j].state.Done? ==> DoneRows(w.files[j].state.state, w.files[j].rows))
  }

  // ---------- one worker moves ----------

  lemma RowsMove(w: World, w': World, j: JobId, k: Worker)
    requires RowsSettled(w) && j in w'.files
    requires w'.workers == w.workers[j := k] && w'.files == w.files[j := w'.files[j]]
    requires k.stage != Closing ==> Shapes(k)
    requires k.stage == Created ==> w'.files[j].rows == k.rows
    requires w'.files[j].state.Done? ==> DoneRows(w'.files[j].state.state, w'.files[j].rows)
    ensures RowsSettled(w')
  {
  }

  /** The current row is set, and the loop goes on. */
  lemma AdvanceShapes(k: Worker, m: nat, s: RowStatus, k': Worker)
    requires InShape(k, m) && k.at < |k.rows| && k.stage !in {Created, Closing}
    requires if k.failed then s == NotStarted else IsDone(s) || s == RowStatus.Failed
    requires k' == Advance(k, s).(failed := k.failed || s == RowStatus.Failed)
    ensures Shapes(k')
  {
    assert InShape(k', if IsDone(s) then m + 1 else m);
  }

  lemma AdvanceSettles(w: World, w': World, j: JobId, s: RowStatus)
    requires Shapely(w) && RowsSettled(w) && j in w.workers
    requires w.workers[j].stage !in {Created, Closing} && w.workers[j].at < |w.workers[j].rows|
    requires if w.workers[j].failed then s == NotStarted else IsDone(s) || s == RowStatus.Failed
    requires w'.files == w.files
    requires var k := w.workers[j];
             w'.workers == w.workers[j := Advance(k, s).(failed := k.failed || s == RowStatus.Failed)]
    ensures RowsSettled(w')
  {
    var k := w.workers[j];
    var m: nat :| InShape(k, m);
    var k' := Advance(k, s).(failed := k.failed || s == RowStatus.Failed);
    AdvanceShapes(k, m, s, k');
    RowsMove(w, w', j, k');
  }

  /** A cancelled job: the rows before its position stay, its own row is settled, and the rest never started. */
  lemma AbortShapes(k: Worker, m: nat, s: RowStatus, rows: seq<RowStatus>)
    requires InShape(k, m) && k.at < |k.rows| == |rows|
    requires s == NotStarted || (s == RowStatus.Cancelled && !k.failed)
    requires forall i :: 0 <= i < k.at ==> rows[i] == k.rows[i]
    requires rows[k.at] == s && forall i :: k.at < i < |rows| ==> rows[i] == NotStarted
    ensures DoneRows(JobCancelled, rows)
  {
    assert ShapedAt(rows, m);
    assert !IsDone(rows[k.at]);
  }

  lemma AbortSettles(w: World, w': World, j: JobId, k: Worker, s: RowStatus, inFlight: Option<nat>)
    requires Shapely(w) && RowsSettled(w) && j in w.workers && w.workers[j].stage != Closing
    requires w.workers[j].at < |w.workers[j].rows|
    requires s == NotStarted || (s == RowStatus.Cancelled && !w.workers[j].failed)
    requires (k == SetRow(w.workers[j], s) && inFlight == None)
             || (k == w.workers[j] && inFlight == Some(k.at) && s == RowStatus.Cancelled)
    requires w'.workers == Abort(w, j, k, inFlight).workers && w'.files == Abort(w, j, k, inFlight).files
    ensures RowsSettled(w')
  {
    var before := w.workers[j];
    var m: nat :| InShape(before, m);
    var rows := Finalized(k.rows, inFlight);
    assert forall i :: 0 <= i < before.at ==> before.rows[i] != Pending;
    AbortShapes(before, m, s, rows);
    RowsMove(w, w', j, k.(rows := rows, stage := Closing));
  }

  /** The job goes on to its next stage, whatever it saves of it. */
  lemma StageSettles(w: World, w': World, j: JobId, k: Worker)
    requires Shapely(w) && RowsSettled(w) && j in w.workers && w.workers[j].stage != Closing && !w.workers[j].failed
    requires k.rows == w.workers[j].rows && k.at == w.workers[j].at && !k.failed && k.stage !in {Created, Closing}
    requires w'.workers == w.workers[j := k] && (w'.files == w.files || w'.files == Save(w, j, k, Busy).files)
    ensures RowsSettled(w')
  {
    var m: nat :| InShape(w.workers[j], m);
    assert InShape(k, m);
    RowsMove(w, w', j, k);
  }

  lemma FinishSettles(w: World, w': World, j: JobId)
    requires Shapely(w) && RowsSettled(w) && j in w.workers && w.workers[j].stage == Top
    requires w.workers[j].at == |w.workers[j].specs|
    requires w' == Finish(w, j, w.workers[j], if w.workers[j].failed then JobFailed else JobCompleted)
    ensures RowsSettled(w')
  {
    var k := w.workers[j];
    var m: nat :| InShape(k, m);
    assert ShapedAt(k.rows, m);
    RowsMove(w, w', j, k.(stage := Closing));
  }

  lemma TopSettles(w: World, w': World, j: JobId)
    requires Shapely(w) && RowsSettled(w) && j in w.workers && w.workers[j].stage == Top
    requires w' == TopStep(w, j, w.workers[j])
    ensures RowsSettled(w')
  {
    var k := w.workers[j];
    if k.at == |k.specs| {
      FinishSettles(w, w', j);
    } else if k.flagged {
      AbortSettles(w, w', j, SetRow(k, NotStarted), NotStarted, None);
    } else if k.failed {
      AdvanceSettles(w, w', j, NotStarted);
    } else if !k.specs[k.at].install {
      AdvanceSettles(w, w', j, Reused);
    } else {
      StageSettles(w, w', j, k.(stage := Downloading, build := Build(false, false)));
    }
  }

  lemma StageOkSettles(w: World, w': World, j: JobId)
    requires Shapely(w) && RowsSettled(w) && j in w.workers &&
             w.workers[j].stage in {Downloading, Extracting, Verifying}
    requires w' == StageOk(w, j, w.workers[j])
    ensures RowsSettled(w')
  {
    var k := w.workers[j];
    NotFailedYet(k);
    if k.flagged {
      AbortSettles(w, w', j, SetRow(k, RowStatus.Cancelled), RowStatus.Cancelled, None);
    } else {
      StageSettles(w, w', j, w'.workers[j]);
    }
  }

  lemma NotFailedYet(k: Worker)
    requires Shapes(k) && k.stage !in {Top, Closing}
    ensures !k.failed
  {
  }

  lemma RenameSettles(w: World, w': World, j: JobId)
    requires Shapely(w) && RowsSettled(w) && j in w.workers && w.workers[j].stage == Activating
    requires w' == RenameStep(w, j, w.workers[j])
    ensures RowsSettled(w')
  {
    var k := w.workers[j];
    NotFailedYet(k);
    if (k.specs[k.at].dep, k.specs[k.at].dest) in w.installed {
      AdvanceSettles(w, w', j, RowStatus.Failed);
    } else if k.flagged {
      AbortSettles(w, w', j, SetRow(k, RowStatus.Cancelled), RowStatus.Cancelled, None);
    } else {
      StageSettles(w, w', j, k.(stage := Renamed));
    }
  }

  // ---------- the other steps ----------

  lemma StartSettles(w: World, w': World, j: JobId, specs: seq<Spec>)
    requires RowsSettled(w) && j !in w.files && w' == StartStep(w, j, specs)
    ensures RowsSettled(w')
  {
    assert InShape(w'.workers[j], 0);
    RowsMove(w, w', j, w'.workers[j]);
  }

  lemma EndSettles(w: World, w': World, j: JobId)
    requires Inv(w) && RowsSettled(w) && CanHappen(w, TaskEnds(j)) && w' == TaskDone(w, j)
    ensures RowsSettled(w')
  {
    var file := w.files[j];
    if file.state == Cancelling {
      CreatedPends(w.workers[j]);
      NeverStarted(file.rows);
    }
  }

  lemma CreatedPends(k: Worker)
    requires WorkerShape(k) && Shapes(k) && k.stage == Created
    ensures forall i :: 0 <= i < |k.rows| ==> k.rows[i] == Pending
  {
    var m: nat :| InShape(k, m);
  }

  lemma NeverStarted(rows: seq<RowStatus>)
    requires forall i :: 0 <= i < |rows| ==> rows[i] == Pending
    ensures DoneRows(JobCancelled, Finalized(rows, None))
  {
    var rows' := Finalized(rows, None);
    assert ShapedAt(rows', 0);
    assert rows' != [] ==> !IsDone(rows'[0]);
  }

  lemma FlaggedShapes(k: Worker)
    ensures Shapes(k) ==> Shapes(k.(flagged := true, posted := true))
  {
    if m: nat :| InShape(k, m) {
      assert InShape(k.(flagged := true, posted := true), m);
    }
  }

  lemma CancelSettles(w: World, w': World, j: JobId)
    requires RowsSettled(w) && j in w.files && w' == CancelStep(w, j)
    ensures RowsSettled(w')
  {
    if w.files[j].state == Busy && j in w.workers {
      FlaggedShapes(w.workers[j]);
      RowsMove(w, w', j, w'.workers[j]);
    }
  }

  lemma ShutdownSettles(w: World, w': World)
    requires RowsSettled(w) && w' == ShutdownStep(w)
    ensures RowsSettled(w')
  {
    forall j | j in w'.workers && w'.workers[j].stage != Closing ensures Shapes(w'.workers[j]) {
      FlaggedShapes(w.workers[j]);
    }
  }

  /** A file reconciled to completed has its last install pending. */
  lemma ReconciledPends(pointers: map<string, Pointer>, j: JobId, file: JobFile)
    requires FileLags(file) && Reconciled(pointers, j, file).state.Done?
    ensures Reconciled(pointers, j, file).state == Done(JobCompleted) && Pending in file.rows
  {
    var d :| d in Installs(file.specs);
    var i: nat :| i < |file.specs| && file.specs[i].install && file.specs[i].dep == d;
    var last := LastInstall(file.specs, i);
    assert file.rows[last] == Pending;
  }

  lemma RestartSettles(w: World, w': World)
    requires FilesInStep(w) && RowsSettled(w) && w' == RestartStep(w)
    ensures RowsSettled(w')
  {
    forall j | j in w'.files && w'.files[j].state.Done? ensures DoneRows(w'.files[j].state.state, w'.files[j].rows) {
      if !IsTerminal(w.files[j].state) {
        ReconciledPends(w.pointers, j, w.files[j]);
      }
    }
  }

  lemma LoopSettles(w: World, ev: Event, w': World)
    requires Shapely(w) && RowsSettled(w) && CanHappen(w, ev) && w' == Step(w, ev)
    requires ev.LoopTop? || ev.Succeeds? || ev.Rename?
    ensures RowsSettled(w')
  {
    match ev
    case LoopTop(j) => TopSettles(w, w', j);
    case Succeeds(j) => StageOkSettles(w, w', j);
    case Rename(j) => RenameSettles(w, w', j);
  }

  lemma WorkerSettles(w: World, ev: Event, w': World)
    requires Shapely(w) && RowsSettled(w) && CanHappen(w, ev) && w' == Step(w, ev)
    requires ev.Begin? || ev.Fails? || ev.CancelSeen? || ev.Thrown? || ev.Point?
    ensures RowsSettled(w')
  {
    var k := w.workers[ev.job];
    NotFailedYet(k);
    match ev
    case Begin(j) => StageSettles(w, w', j, k.(stage := Top));
    case Fails(j) => AdvanceSettles(w, w', j, RowStatus.Failed);
    case CancelSeen(j) => AbortSettles(w, w', j, SetRow(k, RowStatus.Cancelled), RowStatus.Cancelled, None);
    case Thrown(j) => AbortSettles(w, w', j, k, RowStatus.Cancelled, Some(k.at));
    case Point(j) => AdvanceSettles(w, w', j, RowStatus.Completed);
  }

  lemma InstallerSettles(w: World, ev: Event, w': World)
    requires Inv(w) && RowsSettled(w) && CanHappen(w, ev) && w' == Step(w, ev)
    requires ev.Start? || ev.TaskEnds? || ev.Cancel? || ev.Shutdown? || ev.Restart?
    ensures RowsSettled(w')
  {
    match ev
    case Start(j, specs) => StartSettles(w, w', j, specs);
    case TaskEnds(j) => EndSettles(w, w', j);
    case Cancel(j) => CancelSettles(w, w', j);
    case Shutdown => ShutdownSettles(w, w');
    case Restart => RestartSettles(w, w');
  }

  lemma StepSettles(w: World, ev: Event, w': World)
    requires Inv(w) && RowsSettled(w) && CanHappen(w, ev) && w' == Step(w, ev)
    ensures RowsSettled(w')
  {
    if ev.LoopTop? || ev.Succeeds? || ev.Rename? {
      LoopSettles(w, ev, w');
    } else if ev.Begin? || ev.Fails? || ev.CancelSeen? || ev.Thrown? || ev.Point? {
      WorkerSettles(w, ev, w');
    } else {
      InstallerSettles(w, ev, w');
    }
  }

  lemma {:induction false} RunSettles(w: World, events: seq<Event>)
    requires Inv(w) && RowsSettled(w) && CanRun(w, events)
    ensures RowsSettled(Run(w, events))
    decreases |events|
  {
    if events != [] {
      StepKeeps(w, events[0], Step(w, events[0]));
      StepSettles(w, events[0], Step(w, events[0]));
      RunSettles(Step(w, events[0]), events[1..]);
    }
  }

  /** In every reachable world, a job file that reads failed or cancelled, or completed without a pending row,
      has its rows in shape: reused and completed rows, then at most one failed or cancelled row, then rows
      that never started. It reads completed exactly if every row is done (a cancelled plan of no rows aside),
      and a file that reads failed names the failure. */
  lemma FinishedRowsInShape(events: seq<Event>, j: JobId)
    requires CanRun(EMPTY, events) && j in Run(EMPTY, events).files && Run(EMPTY, events).files[j].state.Done?
    ensures var rows, state := Run(EMPTY, events).files[j].rows, Run(EMPTY, events).files[j].state.state;
            && (Pending in rows ==> state == JobCompleted)
            && (Pending !in rows ==> Shaped(rows))
            && (Pending !in rows && rows != [] ==>
                  (state == JobCompleted <==> forall i :: 0 <= i < |rows| ==> IsDone(rows[i])))
            && (state == JobFailed ==> RowStatus.Failed in rows)
  {
    RunSettles(EMPTY, events);
    SettledRows(Run(EMPTY, events).files[j].state.state, Run(EMPTY, events).files[j].rows);
  }

  /** A cancellation noticed between two chunks of a download is taken for a failed download: the row reads failed,
      and the job reads cancelled only if another dependency comes after it. */
  lemma CancelInDownloadFails(w: World, j: JobId, w1: World, w2: World)
    requires Shapely(w) && CanHappen(w, Fails(j)) && w.workers[j].stage == Downloading && w.workers[j].flagged
    requires w1 == Step(w, Fails(j)) && w2 == TopStep(w1, j, w1.workers[j])
    ensures Shapely(w1) && CanHappen(w1, LoopTop(j)) && w2 == Step(w1, LoopTop(j))
    ensures var k := w.workers[j];
            && w2.files[j].rows[k.at] == RowStatus.Failed
            && w2.files[j].state == Done(if k.at + 1 < |k.specs| then JobCancelled else JobFailed)
  {
    var k1 := w1.workers[j];
    assert w1.workers == w.workers[j := k1] && WorkerShape(k1);
  }

  lemma SettledRows(state: JobState, rows: seq<RowStatus>)
    requires DoneRows(state, rows)
    ensures Pending in rows ==> state == JobCompleted
    ensures Pending !in rows ==> Shaped(rows)
    ensures Pending !in rows && rows != [] ==>
              (state == JobCompleted <==> forall i :: 0 <= i < |rows| ==> IsDone(rows[i]))
    ensures state == JobFailed ==> RowStatus.Failed in rows
  {
    if state == JobCompleted && Pending !in rows {
      assert ShapedAt(rows, |rows|);
    }
  }
}
