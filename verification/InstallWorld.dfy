/** Concurrent install jobs over a shared store: locks, cancellation, crashes and restart.
    Every line that changes the store is its own step, so a crash may fall between any two. */
module InstallWorld {
  import opened Wrappers
  import opened InstallJob

  type JobId = nat

  /** One planned dependency; `dest` is its version directory below the dependency's root. */
  datatype Spec = Spec(dep: string, install: bool, dest: string)

  /** What is known about the files of a build. */
  datatype Build = Build(digestOk: bool, healthy: bool)

  datatype Pointer = Pointer(job: JobId, dest: string)

  /** The persisted states; Busy stands for queued, downloading, extracting, verifying and activating. */
  datatype FileState = Busy | Cancelling | Done(state: JobState) | Interrupted

  datatype JobFile = JobFile(state: FileState, specs: seq<Spec>, rows: seq<RowStatus>)

  datatype Stage = Created | Top | Downloading | Extracting | Verifying | Activating | Renamed | Closing

  /** A running job task. `before` remembers the pointers at its start. */
  datatype Worker = Worker(
    specs: seq<Spec>,
    rows: seq<RowStatus>,
    at: nat,
    stage: Stage,
    failed: bool,
    flagged: bool,
    posted: bool,
    build: Build,
    before: map<string, Pointer>)

  /** On disk: pointers, version directories and job files. In memory: lock owners and workers. */
  datatype World = World(
    pointers: map<string, Pointer>,
    installed: map<(string, string), Build>,
    files: map<JobId, JobFile>,
    locks: map<string, JobId>,
    workers: map<JobId, Worker>)

  predicate IsTerminal(s: FileState) {
    s.Done? || s.Interrupted?
  }

  function Installs(specs: seq<Spec>): set<string> {
    set i | 0 <= i < |specs| && specs[i].install :: specs[i].dep
  }

  ghost predicate DistinctDeps(specs: seq<Spec>) {
    forall i, j :: 0 <= i < j < |specs| ==> specs[i].dep != specs[j].dep
  }

  /** The pending rows of a job cancelled while dependency `current` was in flight, if one was. */
  function Finalized(rows: seq<RowStatus>, current: Option<nat>): seq<RowStatus> {
    seq(|rows|, i requires 0 <= i < |rows| =>
      if rows[i] != Pending then rows[i] else if current == Some(i) then RowStatus.Cancelled else NotStarted)
  }

  // ---------- steps of one worker ----------

  function WithWorker(w: World, j: JobId, k: Worker): World {
    w.(workers := w.workers[j := k])
  }

  /** _write_job: whatever the file said before is replaced by the worker's own view. */
  function Save(w: World, j: JobId, k: Worker, state: FileState): World {
    w.(workers := w.workers[j := k], files := w.files[j := JobFile(state, k.specs, k.rows)])
  }

  function SetRow(k: Worker, s: RowStatus): Worker
    requires k.at < |k.rows|
  {
    k.(rows := k.rows[k.at := s])
  }

  function Advance(k: Worker, s: RowStatus): Worker
    requires k.at < |k.rows|
  {
    SetRow(k, s).(at := k.at + 1, stage := Top)
  }

  /** The job ends: its file becomes terminal, and only the bookkeeping of the task is left. */
  function Finish(w: World, j: JobId, k: Worker, state: JobState): World {
    Save(w, j, k.(stage := Closing), Done(state))
  }

  function Abort(w: World, j: JobId, k: Worker, inFlight: Option<nat>): World {
    Finish(w, j, k.(rows := Finalized(k.rows, inFlight)), JobCancelled)
  }

  /** The head of the loop over dependencies, and what follows its last turn. */
  function TopStep(w: World, j: JobId, k: Worker): World
    requires k.at <= |k.specs| == |k.rows|
  {
    if k.at == |k.specs| then Finish(w, j, k, if k.failed then JobFailed else JobCompleted)
    else if k.flagged then Abort(w, j, SetRow(k, NotStarted), None)
    else if k.failed then WithWorker(w, j, Advance(k, NotStarted))
    else if !k.specs[k.at].install then WithWorker(w, j, Advance(k, Reused))
    else Save(w, j, k.(stage := Downloading, build := Build(false, false)), Busy)
  }

  function CancelHere(w: World, j: JobId, k: Worker): World
    requires k.at < |k.rows|
  {
    Abort(w, j, SetRow(k, RowStatus.Cancelled), None)
  }

  /** A stage has succeeded; the cancellation flag is looked at before the next one begins. */
  function StageOk(w: World, j: JobId, k: Worker): World
    requires k.at < |k.rows| && k.stage in {Downloading, Extracting, Verifying}
  {
    var k' := match k.stage
      case Downloading => k.(stage := Extracting, build := Build(true, false))
      case Extracting => k.(stage := Verifying)
      case _ => k.(stage := Activating, build := k.build.(healthy := true));
    if k.flagged then CancelHere(w, j, k) else Save(w, j, k', Busy)
  }

  function StageFails(w: World, j: JobId, k: Worker): World
    requires k.at < |k.rows|
  {
    WithWorker(w, j, Advance(k, RowStatus.Failed).(failed := true))
  }

  /** The verified payload is moved to its version directory, unless that exists already. */
  function RenameStep(w: World, j: JobId, k: Worker): World
    requires k.at < |k.specs| == |k.rows|
  {
    var place := (k.specs[k.at].dep, k.specs[k.at].dest);
    if place in w.installed then StageFails(w, j, k)
    else
      var moved := w.(installed := w.installed[place := k.build]);
      if k.flagged then CancelHere(moved, j, k) else WithWorker(moved, j, k.(stage := Renamed))
  }

  /** The pointer is replaced in one step. */
  function PointStep(w: World, j: JobId, k: Worker): World
    requires k.at < |k.specs| == |k.rows|
  {
    var spec := k.specs[k.at];
    WithWorker(w.(pointers := w.pointers[spec.dep := Pointer(j, spec.dest)]), j, Advance(k, RowStatus.Completed))
  }

  // ---------- steps of the installer ----------

  function StartStep(w: World, j: JobId, specs: seq<Spec>): World {
    var rows := seq(|specs|, _ => Pending);
    w.(files := w.files[j := JobFile(Busy, specs, rows)],
       locks := w.locks + map d | d in Installs(specs) :: j,
       workers := w.workers[j := Worker(specs, rows, 0, Created, false, false, false, Build(false, false), w.pointers)])
  }

  /** The done callback: every lock of the job's planned installs is released if it is held. */
  function TaskDone(w: World, j: JobId): World
    requires j in w.files
  {
    var file := w.files[j];
    var settled :=
      match file.state
      case Busy => file.(state := Interrupted)
      case Cancelling => JobFile(Done(JobCancelled), file.specs, Finalized(file.rows, None))
      case _ => file;
    w.(locks := w.locks - Installs(file.specs), workers := w.workers - {j}, files := w.files[j := settled])
  }

  /** An operator's cancel request. */
  function CancelStep(w: World, j: JobId): World
    requires j in w.files
  {
    var file := w.files[j];
    if file.state != Busy then w
    else
      var w' := w.(files := w.files[j := file.(state := Cancelling)]);
      if j in w.workers then WithWorker(w', j, w.workers[j].(flagged := true, posted := true)) else w'
  }

  function ShutdownStep(w: World): World {
    w.(workers := map j | j in w.workers :: w.workers[j].(flagged := true, posted := true))
  }

  /** Every planned install of the job has a pointer that carries its id. */
  predicate AllCommitted(pointers: map<string, Pointer>, j: JobId, specs: seq<Spec>) {
    forall i :: 0 <= i < |specs| && specs[i].install ==>
      specs[i].dep in pointers && pointers[specs[i].dep].job == j
  }

  function Reconciled(pointers: map<string, Pointer>, j: JobId, file: JobFile): JobFile {
    if IsTerminal(file.state) then file
    else if Installs(file.specs) != {} && AllCommitted(pointers, j, file.specs) then file.(state := Done(JobCompleted))
    else file.(state := Interrupted)
  }

  /** A crash wipes the memory; the next process reconciles the job files first. */
  function RestartStep(w: World): World {
    World(w.pointers, w.installed, map j | j in w.files :: Reconciled(w.pointers, j, w.files[j]), map[], map[])
  }

  // ---------- runs ----------

  datatype Event =
    | Start(job: JobId, specs: seq<Spec>)
    | Begin(job: JobId)
    | LoopTop(job: JobId)
    | Succeeds(job: JobId)
    | Fails(job: JobId)
    | CancelSeen(job: JobId)
    | Thrown(job: JobId)
    | Rename(job: JobId)
    | Point(job: JobId)
    | TaskEnds(job: JobId)
    | Cancel(job: JobId)
    | Shutdown
    | Restart

  ghost predicate CanHappen(w: World, ev: Event) {
    match ev
    case Start(j, specs) => j !in w.files && DistinctDeps(specs) && Installs(specs) !! w.locks.Keys
    case Begin(j) => j in w.workers && w.workers[j].stage == Created && !w.workers[j].posted
    case LoopTop(j) => j in w.workers && w.workers[j].stage == Top
    case Succeeds(j) => j in w.workers && w.workers[j].stage in {Downloading, Extracting, Verifying}
    case Fails(j) => j in w.workers && w.workers[j].stage in {Downloading, Extracting, Verifying, Activating, Renamed}
    case CancelSeen(j) => j in w.workers && w.workers[j].stage in {Downloading, Extracting} && w.workers[j].flagged
    case Thrown(j) => j in w.workers && w.workers[j].stage in {Downloading, Extracting, Verifying} &&
                      w.workers[j].posted
    case Rename(j) => j in w.workers && w.workers[j].stage == Activating
    case Point(j) => j in w.workers && w.workers[j].stage == Renamed
    case TaskEnds(j) => j in w.workers &&
                        (w.workers[j].stage == Closing || (w.workers[j].stage == Created && w.workers[j].posted))
    case Cancel(j) => j in w.files
    case Shutdown => true
    case Restart => true
  }

  /** A worker's bookkeeping is in step with its plan. */
  ghost predicate WorkerShape(k: Worker) {
    && |k.rows| == |k.specs| && k.at <= |k.specs| && DistinctDeps(k.specs)
    && (k.stage in {Downloading, Extracting, Verifying, Activating, Renamed} ==>
        k.at < |k.specs| && k.specs[k.at].install)
    && (k.stage in {Extracting, Verifying, Activating, Renamed} ==> k.build.digestOk)
    && (k.stage in {Activating, Renamed} ==> k.build.healthy)
    && (k.stage != Closing ==> forall i :: k.at <= i < |k.rows| ==> k.rows[i] == Pending)
  }

  ghost predicate Shapely(w: World) {
    forall j :: j in w.workers ==> j in w.files && w.files[j].specs == w.workers[j].specs && WorkerShape(w.workers[j])
  }

  ghost function Step(w: World, ev: Event): World
    requires CanHappen(w, ev) && Shapely(w)
  {
    match ev
    case Start(j, specs) => StartStep(w, j, specs)
    case Begin(j) => WithWorker(w, j, w.workers[j].(stage := Top))
    case LoopTop(j) => TopStep(w, j, w.workers[j])
    case Succeeds(j) => StageOk(w, j, w.workers[j])
    case Fails(j) => StageFails(w, j, w.workers[j])
    case CancelSeen(j) => CancelHere(w, j, w.workers[j])
    case Thrown(j) => Abort(w, j, w.workers[j], Some(w.workers[j].at))
    case Rename(j) => RenameStep(w, j, w.workers[j])
    case Point(j) => PointStep(w, j, w.workers[j])
    case TaskEnds(j) => TaskDone(w, j)
    case Cancel(j) => CancelStep(w, j)
    case Shutdown => ShutdownStep(w)
    case Restart => RestartStep(w)
  }
}
