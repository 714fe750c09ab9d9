/** Iterating a partial step: a walk ends, gets lost, or goes round for ever. */
module Walks {
  import opened Wrappers

  datatype Move<T> = Stop | Lost | Next(to: T)

  /** The place reached after k moves, if there were that many. */
  ghost function At<T>(step: T -> Move<T>, start: T, k: nat): Option<T> {
    if k == 0 then Some(start)
    else
      match At(step, start, k - 1)
      case None => None
      case Some(place) => if step(place).Next? then Some(step(place).to) else None
  }

  ghost predicate EndsAt<T>(step: T -> Move<T>, start: T, k: nat, last: T) {
    At(step, start, k) == Some(last) && step(last) == Stop
  }

  ghost predicate LostAt<T>(step: T -> Move<T>, start: T, k: nat) {
    At(step, start, k).Some? && step(At(step, start, k).value) == Lost
  }

  /** The k-th place was visited before. */
  ghost predicate RevisitsAt<T>(step: T -> Move<T>, start: T, k: nat) {
    At(step, start, k).Some? && exists j: nat :: j < k && At(step, start, j) == At(step, start, k)
  }

  lemma {:induction false} NowhereStays<T>(step: T -> Move<T>, start: T, k: nat, m: nat)
    requires k <= m && At(step, start, k).None?
    ensures At(step, start, m).None?
    decreases m
  {
    if k < m { NowhereStays(step, start, k, m - 1); }
  }

  /** A walk that stops or gets lost after k moves has no further place. */
  lemma HaltIsLast<T>(step: T -> Move<T>, start: T, k: nat, m: nat)
    requires At(step, start, k).Some? && !step(At(step, start, k).value).Next? && k < m
    ensures At(step, start, m).None?
  {
    assert At(step, start, k + 1).None?;
    NowhereStays(step, start, k + 1, m);
  }

  /** Walking on from where k moves lead. */
  lemma {:induction false} Onward<T>(step: T -> Move<T>, start: T, k: nat, m: nat)
    requires At(step, start, k).Some?
    ensures At(step, start, k + m) == At(step, At(step, start, k).value, m)
    decreases m
  {
    if m > 0 {
      Onward(step, start, k, m - 1);
      assert k + m - 1 == k + (m - 1);
    }
  }

  lemma {:induction false} Periodic<T>(step: T -> Move<T>, start: T, j: nat, k: nat, m: nat)
    requires At(step, start, j) == At(step, start, k)
    ensures At(step, start, j + m) == At(step, start, k + m)
    decreases m
  {
    if m > 0 {
      Periodic(step, start, j, k, m - 1);
      assert j + m - 1 == j + (m - 1) && k + m - 1 == k + (m - 1);
    }
  }

  lemma {:induction false} RoundForEver<T>(step: T -> Move<T>, start: T, j: nat, k: nat, m: nat)
    requires j < k && At(step, start, k).Some? && At(step, start, j) == At(step, start, k)
    ensures At(step, start, m).Some?
    decreases m
  {
    if m <= k {
      if At(step, start, m).None? { NowhereStays(step, start, m, k); }
    } else {
      RoundForEver(step, start, j, k, j + (m - k));
      Periodic(step, start, j, k, m - k);
      assert k + (m - k) == m;
    }
  }

  /** A walk that meets a place twice neither ends nor gets lost, however far it is followed. */
  lemma CycleNeverHalts<T>(step: T -> Move<T>, start: T, k: nat, m: nat)
    requires RevisitsAt(step, start, k)
    ensures At(step, start, m).Some? && step(At(step, start, m).value).Next?
  {
    var j: nat :| j < k && At(step, start, j) == At(step, start, k);
    RoundForEver(step, start, j, k, m);
    RoundForEver(step, start, j, k, m + 1);
  }

  /** A walk halts at most once. */
  lemma HaltsOnce<T>(step: T -> Move<T>, start: T, k: nat, m: nat)
    requires At(step, start, k).Some? && !step(At(step, start, k).value).Next?
    requires At(step, start, m).Some? && !step(At(step, start, m).value).Next?
    ensures k == m
  {
    if k < m { HaltIsLast(step, start, k, m); }
    if m < k { HaltIsLast(step, start, m, k); }
  }
}
