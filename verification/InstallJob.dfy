/** The dependency rows of one install job, from the first row to the terminal state. */
module InstallJob {
  import opened Wrappers

  datatype RowStatus = Pending | Reused | Completed | Failed | Cancelled | NotStarted

  datatype JobState = Active | JobCompleted | JobFailed | JobCancelled

  /** One planned dependency; ids are distinct within a plan. */
  datatype Dep = Dep(id: string, install: bool)

  /** How installing one dependency can end: TaskCancelled is an asyncio cancellation, which passes
      by the row handling; CancelAsked is the installer's own cancellation check. */
  datatype Result = Installed | CancelAsked | InstallFailed | TaskCancelled

  predicate IsDone(s: RowStatus) {
    s == Completed || s == Reused
  }

  predicate IsHalt(s: RowStatus) {
    s == Failed || s == Cancelled
  }

  /** Rows [0, m) are done, at most row m failed or was cancelled, and the rest never started. */
  predicate ShapedAt(rows: seq<RowStatus>, m: nat) {
    && m <= |rows|
    && (forall i :: 0 <= i < m ==> IsDone(rows[i]))
    && (m < |rows| ==> IsHalt(rows[m]) || rows[m] == NotStarted)
    && (forall i :: m < i < |rows| ==> rows[i] == NotStarted)
  }

  ghost predicate Shaped(rows: seq<RowStatus>) {
    exists m :: ShapedAt(rows, m)
  }

  /** The row an installation's outcome leaves; a task cancellation passes by the row. */
  function RowOf(result: Result): RowStatus {
    match result
    case Installed => Completed
    case CancelAsked => Cancelled
    case InstallFailed => Failed
    case TaskCancelled => Pending
  }

  /** What a row may say about its dependency. */
  predicate Truthful(dep: Dep, result: Result, row: RowStatus) {
    match row
    case Pending => false
    case Reused => !dep.install
    case Completed => dep.install && result == Installed
    case Failed => dep.install && result == InstallFailed
    case Cancelled => dep.install && (result == CancelAsked || result == TaskCancelled)
    case NotStarted => true
  }

  /** Rows [0, k) are settled in shape, with halt position m, and the rest is pending. */
  ghost predicate Settled(deps: seq<Dep>, rows: seq<RowStatus>, results: seq<Result>, k: nat, m: nat)
    requires |results| == |deps|
  {
    && |rows| == |deps| && m <= k <= |rows|
    && ShapedAt(rows[..k], m)
    && (forall i :: 0 <= i < k ==> Truthful(deps[i], results[i], rows[i]))
    && (forall i :: k <= i < |rows| ==> rows[i] == Pending)
  }

  /** Every row is settled: the shape is complete, and all rows are done exactly if none halted. */
  lemma AllSettled(deps: seq<Dep>, rows: seq<RowStatus>, results: seq<Result>, m: nat)
    requires |results| == |deps| && Settled(deps, rows, results, |deps|, m)
    ensures ShapedAt(rows, m) && (m == |rows| <==> forall i :: 0 <= i < |rows| ==> IsDone(rows[i]))
    ensures forall i :: 0 <= i < |rows| ==> Truthful(deps[i], results[i], rows[i])
  {
    assert rows[..|deps|] == rows;
    assert ShapedAt(rows, m);
  }

  /** The halt position after one more row. */
  function After(m: nat, row: RowStatus): nat {
    if IsDone(row) then m + 1 else m
  }

  lemma SettleRow(deps: seq<Dep>, rows: seq<RowStatus>, results: seq<Result>, k: nat, m: nat, row: RowStatus)
    requires |results| == |deps| && k < |deps| && Settled(deps, rows, results, k, m)
    requires Truthful(deps[k], results[k], row) && (m < k ==> row == NotStarted)
    ensures Settled(deps, rows[k := row], results, k + 1, After(m, row))
  {
    var rows' := rows[k := row];
    assert rows'[..k + 1] == rows[..k] + [row];
  }

  /** Nothing stands in the way of dependency i: no cancellation is seen before it, and its install, if it needs
      one, succeeds. */
  predicate Goes(deps: seq<Dep>, polls: seq<bool>, results: seq<Result>, i: nat)
    requires i < |deps| == |polls| == |results|
  {
    !polls[i] && (deps[i].install ==> results[i] == Installed)
  }

  /** All goes well up to dependency n. */
  predicate GoesUpTo(deps: seq<Dep>, polls: seq<bool>, results: seq<Result>, n: nat)
    requires n <= |deps| == |polls| == |results|
  {
    forall i: nat :: i < n ==> Goes(deps, polls, results, i)
  }

  /** The job is cancelled at dependency i: before it, or during its install. */
  predicate Cancels(deps: seq<Dep>, polls: seq<bool>, results: seq<Result>, i: nat)
    requires i < |deps| == |polls| == |results|
  {
    polls[i] || (GoesUpTo(deps, polls, results, i) && deps[i].install &&
                 (results[i] == CancelAsked || results[i] == TaskCancelled))
  }

  /** What k turns have met, m of them without a halt. */
  ghost predicate SoFar(deps: seq<Dep>, polls: seq<bool>, results: seq<Result>, k: nat, m: nat, cancelled: bool)
    requires |deps| == |polls| == |results|
  {
    && m <= k <= |deps| && GoesUpTo(deps, polls, results, m)
    && (m < |deps| && (m < k || cancelled) ==> !Goes(deps, polls, results, m))
    && (cancelled <==> exists j: nat :: j < |deps| && j <= k && HasCancelled(deps, polls, results, k, j, cancelled))
  }

  predicate HasCancelled(deps: seq<Dep>, polls: seq<bool>, results: seq<Result>, k: nat, j: nat, cancelled: bool)
    requires j < |deps| == |polls| == |results|
  {
    (j < k || cancelled) && Cancels(deps, polls, results, j)
  }

  lemma TurnSoFar(deps: seq<Dep>, polls: seq<bool>, results: seq<Result>, k: nat, m: nat, row: RowStatus,
                  cancelled: bool)
    requires |deps| == |polls| == |results| && k < |deps| && SoFar(deps, polls, results, k, m, false)
    requires row == if polls[k] || m < k then NotStarted else if !deps[k].install then Reused else RowOf(results[k])
    requires cancelled <==> polls[k] || row == Pending || row == Cancelled
    ensures SoFar(deps, polls, results, if row == Pending then k else k + 1, After(m, row), cancelled)
  {
    assert cancelled <==> Cancels(deps, polls, results, k);
    var k' := if row == Pending then k else k + 1;
    if cancelled {
      assert HasCancelled(deps, polls, results, k', k, cancelled);
    } else {
      forall j: nat | j < |deps| && j <= k' ensures !HasCancelled(deps, polls, results, k', j, cancelled) {
        if j < k { assert !HasCancelled(deps, polls, results, k, j, false); }
      }
    }
  }

  /** The rows of a finished job say how far all went well. */
  lemma DoneAsFarAsGoes(deps: seq<Dep>, polls: seq<bool>, results: seq<Result>, rows: seq<RowStatus>, k: nat, m: nat,
                        cancelled: bool)
    requires |deps| == |polls| == |results| == |rows| && SoFar(deps, polls, results, k, m, cancelled)
    requires (k == |deps| || cancelled) && ShapedAt(rows, m)
    ensures forall i: nat :: i < |deps| ==> (IsDone(rows[i]) <==> GoesUpTo(deps, polls, results, i + 1))
    ensures cancelled <==> exists i: nat :: i < |deps| && Cancels(deps, polls, results, i)
  {
    if i: nat :| i < |deps| && Cancels(deps, polls, results, i) {
      if i < k { assert HasCancelled(deps, polls, results, k, i, cancelled); }
    }
    if cancelled {
      var j: nat :| j < |deps| && j <= k && HasCancelled(deps, polls, results, k, j, cancelled);
      assert Cancels(deps, polls, results, j);
    }
    forall i: nat | i < |deps| ensures IsDone(rows[i]) <==> GoesUpTo(deps, polls, results, i + 1) {
      if i >= m { assert !Goes(deps, polls, results, m); }
    }
  }

  ghost predicate DistinctIds(deps: seq<Dep>) {
    forall i, j :: 0 <= i < j < |deps| ==> deps[i].id != deps[j].id
  }

  class Job {
    const deps: seq<Dep>
    var rows: seq<RowStatus>
    var state: JobState
    var current: Option<string>

    constructor (deps: seq<Dep>)
      ensures this.deps == deps && state == Active && current == None
      ensures rows == seq(|deps|, _ => Pending)
    {
      this.deps := deps;
      rows := seq(|deps|, _ => Pending);
      state := Active;
      current := None;
    }

    /** Pending rows of a cancelled job: the dependency in flight is cancelled, later ones never started. */
    method FinalizeCancelled()
      requires |rows| == |deps|
      modifies this`rows
      ensures |rows| == old(|rows|)
      ensures forall i :: 0 <= i < |rows| ==>
                rows[i] == if old(rows)[i] != Pending then old(rows)[i]
                           else if current == Some(deps[i].id) then Cancelled else NotStarted
    {
      for k := 0 to |rows|
        invariant |rows| == old(|rows|)
        invariant forall i :: k <= i < |rows| ==> rows[i] == old(rows)[i]
        invariant forall i :: 0 <= i < k ==>
                    rows[i] == if old(rows)[i] != Pending then old(rows)[i]
                               else if current == Some(deps[i].id) then Cancelled else NotStarted
      {
        if rows[k] == Pending {
          rows := rows[k := if current == Some(deps[k].id) then Cancelled else NotStarted];
        }
      }
    }

    method SetRow(k: nat, row: RowStatus, ghost results: seq<Result>, ghost m: nat)
      requires |results| == |deps| && k < |deps| && Settled(deps, rows, results, k, m)
      requires Truthful(deps[k], results[k], row) && (m < k ==> row == NotStarted)
      modifies this`rows
      ensures Settled(deps, rows, results, k + 1, After(m, row)) && rows[k] == row
      ensures forall i :: 0 <= i < k ==> rows[i] == old(rows)[i]
    {
      SettleRow(deps, rows, results, k, m, row);
      rows := rows[k := row];
    }

    /** Among the rows from k on, only row k may be in flight, and then nothing before it halted. */
    predicate InFlight(results: seq<Result>, k: nat, m: nat)
      requires |results| == |deps|
      reads this
    {
      forall i :: k <= i < |deps| && current == Some(deps[i].id) ==>
        i == k && m == k && deps[k].install && results[k] == TaskCancelled
    }

    /** A cancellation that finds rows [0, k) settled in the shape with halt position m. */
    method Halt(results: seq<Result>, k: nat, ghost m: nat)
      requires |results| == |deps| && DistinctIds(deps) && k <= |deps| && Settled(deps, rows, results, k, m)
      requires InFlight(results, k, m)
      modifies this`rows, this`state
      ensures state == JobCancelled && |rows| == |deps| && ShapedAt(rows, m)
      ensures forall i :: 0 <= i < |rows| ==> Truthful(deps[i], results[i], rows[i])
      ensures forall i :: 0 <= i < k ==> rows[i] == old(rows)[i]
      ensures k < |deps| ==> rows[k] == if current == Some(deps[k].id) then Cancelled else NotStarted
    {
      state := JobCancelled;
      FinalizeCancelled();
      assert ShapedAt(rows, m);
    }

    /** The body of the loop: one dependency, its row, and whether the job is cancelled there. The row is
        still pending when the task itself was cancelled during an installation. */
    method Turn(k: nat, poll: bool, anyFailed: bool, results: seq<Result>, ghost m: nat)
      returns (row: RowStatus, cancelled: bool)
      requires |results| == |deps| && k < |deps| && Settled(deps, rows, results, k, m)
      requires if anyFailed then m < k else m == k
      modifies this
      ensures row == if poll || anyFailed then NotStarted else if !deps[k].install then Reused else RowOf(results[k])
      ensures cancelled <==> poll || row == Pending || row == Cancelled
      ensures current == if !poll && !anyFailed && deps[k].install then Some(deps[k].id) else old(current)
      ensures state == if row == Failed then JobFailed else old(state)
      ensures if row == Pending then rows == old(rows)
              else Settled(deps, rows, results, k + 1, After(m, row)) && rows[k] == row
      ensures forall i :: 0 <= i < k ==> |rows| == |deps| && rows[i] == old(rows)[i]
    {
      cancelled := poll;
      if poll || anyFailed {
        row := NotStarted;
        SetRow(k, row, results, m);
        return;
      }
      if !deps[k].install {
        row := Reused;
        SetRow(k, row, results, m);
        return;
      }
      current := Some(deps[k].id);
      row := RowOf(results[k]);
      cancelled := row == Pending || row == Cancelled;
      if row == Pending {
        return;
      }
      SetRow(k, row, results, m);
      if row == Failed {
        state := JobFailed;
      }
    }

    /** polls[k] is what the cancellation flag says before dependency k, results[k] how its install ends. */
    method Run(polls: seq<bool>, results: seq<Result>)
      requires state == Active && current == None && rows == seq(|deps|, _ => Pending) && DistinctIds(deps)
      requires |polls| == |deps| && |results| == |deps|
      modifies this
      ensures |rows| == |deps| && state != Active
      ensures Shaped(rows)
      ensures forall i :: 0 <= i < |rows| ==> Truthful(deps[i], results[i], rows[i])
      ensures state == JobCompleted <==> forall i :: 0 <= i < |rows| ==> IsDone(rows[i])
      ensures state == JobFailed ==> exists i :: 0 <= i < |rows| && rows[i] == Failed
      ensures forall i: nat :: i < |deps| ==> (IsDone(rows[i]) <==> GoesUpTo(deps, polls, results, i + 1))
      ensures state == JobCancelled <==> exists i: nat :: i < |deps| && Cancels(deps, polls, results, i)
    {
      var anyFailed, cancelled, k: nat := false, false, 0;
      ghost var m: nat := 0;
      while k < |deps| && !cancelled
        invariant k <= |deps| && Settled(deps, rows, results, k, m)
        invariant !cancelled ==>
                    if anyFailed then state == JobFailed && m < k && rows[m] == Failed else state == Active && m == k
        invariant !cancelled ==> forall i :: k <= i < |deps| ==> current != Some(deps[i].id)
        invariant cancelled ==> InFlight(results, k, m)
        invariant SoFar(deps, polls, results, k, m, cancelled)
        invariant cancelled ==> (k > 0 && !IsDone(rows[k - 1])) || (k < |deps| && current == Some(deps[k].id))
        decreases |deps| - k, !cancelled
      {
        var row;
        row, cancelled := Turn(k, polls[k], anyFailed, results, m);
        TurnSoFar(deps, polls, results, k, m, row, cancelled);
        m := After(m, row);
        anyFailed := anyFailed || row == Failed;
        k := if row == Pending then k else k + 1;
      }
      if cancelled {
        Halt(results, k, m);
        DoneAsFarAsGoes(deps, polls, results, rows, k, m, cancelled);
        return;
      }
      AllSettled(deps, rows, results, m);
      DoneAsFarAsGoes(deps, polls, results, rows, k, m, cancelled);
      if state != JobFailed {
        state := JobCompleted;
      }
    }
  }
}
