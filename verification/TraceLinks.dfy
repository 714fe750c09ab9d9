/** The parent links of a trace: recorded parent ids may dangle or run in circles, the tree may not. */
module TraceLinks {
  import opened Wrappers
  import opened Walks

  /** Recorded parent ids by event id, "" where none was recorded; the root is no event. */
  type Recorded = map<string, string>

  function Up(rec: Recorded, id: string): string {
    if id in rec then rec[id] else ""
  }

  /** One recorded link up; the walk ends at the root or at "". */
  function Link(rec: Recorded, root: string): string -> Move<string> {
    id => if id == root || id == "" then Stop else Next(Up(rec, id))
  }

  ghost predicate IsCyclic(rec: Recorded, root: string, id: string) {
    exists k: nat :: RevisitsAt(Link(rec, root), id, k)
  }

  ghost predicate HaltsAfter(rec: Recorded, root: string, id: string, n: nat) {
    At(Link(rec, root), id, n).Some? && Link(rec, root)(At(Link(rec, root), id, n).value) == Stop
  }

  /** The parent a row gets: the recorded one if it exists and leads out of no circle, else the root. */
  ghost function TreeParent(rec: Recorded, root: string, id: string): string
    requires id in rec
  {
    var parent := rec[id];
    if parent == "" || parent == id || (parent !in rec && parent != root) || IsCyclic(rec, root, id) then root
    else parent
  }

  // ---------- circles and dead ends ----------

  /** The places of the first k moves. */
  ghost function Places(step: string -> Move<string>, start: string, k: nat): set<string>
    requires k > 0 ==> At(step, start, k - 1).Some?
  {
    if k == 0 then {} else Places(step, start, k - 1) + {At(step, start, k - 1).value}
  }

  lemma {:induction false} PlaceIs(step: string -> Move<string>, start: string, k: nat, p: string) returns (m: nat)
    requires k > 0 ==> At(step, start, k - 1).Some?
    requires p in Places(step, start, k)
    ensures m < k && At(step, start, m) == Some(p)
  {
    if At(step, start, k - 1) == Some(p) {
      m := k - 1;
    } else {
      m := PlaceIs(step, start, k - 1, p);
    }
  }

  lemma {:induction false} PlacesAre(step: string -> Move<string>, start: string, k: nat, m: nat)
    requires m < k && At(step, start, k - 1).Some?
    ensures At(step, start, m).Some? && At(step, start, m).value in Places(step, start, k)
  {
    if m < k - 1 { PlacesAre(step, start, k - 1, m); }
  }

  lemma {:induction false} PlacesCount(step: string -> Move<string>, start: string, k: nat)
    requires k > 0 ==> At(step, start, k - 1).Some?
    requires forall m: nat :: m < k ==> !RevisitsAt(step, start, m)
    ensures |Places(step, start, k)| == k
  {
    if k > 0 {
      var last := At(step, start, k - 1).value;
      if last in Places(step, start, k - 1) {
        var m := PlaceIs(step, start, k - 1, last);
        assert RevisitsAt(step, start, k - 1);
      }
      PlacesCount(step, start, k - 1);
    }
  }

  /** A walk that never revisits a place meets each event at most once, so it cannot go on for long. */
  lemma WalkIsShort(rec: Recorded, root: string, id: string, k: nat)
    requires At(Link(rec, root), id, k).Some? && Link(rec, root)(At(Link(rec, root), id, k).value).Next?
    requires forall m: nat :: m < k ==> !RevisitsAt(Link(rec, root), id, m)
    ensures k <= |rec|
  {
    var step := Link(rec, root);
    forall p | p in Places(step, id, k) ensures p in rec.Keys {
      var m := PlaceIs(step, id, k, p);
      if step(p) == Stop { HaltIsLast(step, id, m, k); }
      if p !in rec {
        assert At(step, id, m + 1) == Some("");
        if m + 1 < k { HaltIsLast(step, id, m + 1, k); }
      }
    }
    PlacesCount(step, id, k);
    SubsetSize(Places(step, id, k), rec.Keys);
  }

  lemma {:induction false} Halts(rec: Recorded, root: string, id: string, k: nat) returns (n: nat)
    requires !IsCyclic(rec, root, id) && At(Link(rec, root), id, k).Some?
    ensures HaltsAfter(rec, root, id, n)
    decreases |rec| + 1 - k
  {
    if HaltsAfter(rec, root, id, k) {
      n := k;
    } else {
      WalkIsShort(rec, root, id, k);
      n := Halts(rec, root, id, k + 1);
    }
  }

  lemma NotCyclic(rec: Recorded, root: string, id: string, k: nat)
    requires HaltsAfter(rec, root, id, k)
    ensures !IsCyclic(rec, root, id)
  {
    if m: nat :| RevisitsAt(Link(rec, root), id, m) {
      CycleNeverHalts(Link(rec, root), id, m, k);
    }
  }

  lemma HaltsIff(rec: Recorded, root: string, id: string)
    ensures !IsCyclic(rec, root, id) <==> exists n: nat :: HaltsAfter(rec, root, id, n)
  {
    if !IsCyclic(rec, root, id) {
      assert At(Link(rec, root), id, 0) == Some(id);
      var n := Halts(rec, root, id, 0);
    }
    if n: nat :| HaltsAfter(rec, root, id, n) {
      NotCyclic(rec, root, id, n);
    }
  }

  /** How far a row is from the end of its recorded links; rows on or below a circle count as one away. */
  ghost function Height(rec: Recorded, root: string, id: string): (h: nat)
    ensures if IsCyclic(rec, root, id) then h == 1 else HaltsAfter(rec, root, id, h)
  {
    HaltsIff(rec, root, id);
    if IsCyclic(rec, root, id) then 1
    else
      var n: nat :| HaltsAfter(rec, root, id, n);
      n
  }

  lemma {:induction false} Shift(rec: Recorded, root: string, id: string, k: nat)
    requires Link(rec, root)(id).Next?
    ensures At(Link(rec, root), id, k + 1) == At(Link(rec, root), Up(rec, id), k)
  {
    if k == 0 {
      assert At(Link(rec, root), id, 0) == Some(id);
    } else {
      Shift(rec, root, id, k - 1);
    }
  }

  lemma CyclicParent(rec: Recorded, root: string, id: string)
    requires Link(rec, root)(id).Next? && IsCyclic(rec, root, Up(rec, id))
    ensures IsCyclic(rec, root, id)
  {
    var k: nat :| RevisitsAt(Link(rec, root), Up(rec, id), k);
    var j: nat :| j < k && At(Link(rec, root), Up(rec, id), j) == At(Link(rec, root), Up(rec, id), k);
    Shift(rec, root, id, j);
    Shift(rec, root, id, k);
    assert RevisitsAt(Link(rec, root), id, k + 1);
  }

  /** Whatever the backend recorded, going up the tree ends: a row's tree parent is the root or another row
      strictly nearer to the end of its links. */
  lemma TreeHasNoCircle(rec: Recorded, root: string, id: string)
    requires root !in rec && "" !in rec && id in rec
    ensures var p := TreeParent(rec, root, id);
            p == root || (p in rec && Height(rec, root, p) < Height(rec, root, id))
  {
    var p := TreeParent(rec, root, id);
    if p != root {
      assert Link(rec, root)(id) == Next(p);
      if IsCyclic(rec, root, p) { CyclicParent(rec, root, id); }
      var n, m := Height(rec, root, id), Height(rec, root, p);
      Shift(rec, root, id, m);
      HaltsOnce(Link(rec, root), id, n, m + 1);
    }
  }

  /** No link is dropped without need: a row hangs from the parent recorded for it exactly when that parent
      is an event and the row's recorded links come to an end. */
  lemma LinkIsKeptIff(rec: Recorded, root: string, id: string)
    requires root !in rec && "" !in rec && id in rec && rec[id] != root
    ensures TreeParent(rec, root, id) == rec[id] <==>
            rec[id] in rec && exists n: nat :: HaltsAfter(rec, root, id, n)
  {
    HaltsIff(rec, root, id);
    if rec[id] == id {
      var step := Link(rec, root);
      assert At(step, id, 0) == Some(id) && At(step, id, 1) == Some(id);
      assert RevisitsAt(step, id, 1);
    }
  }

  /** The climb with its set of seen ids. */
  method LinkParent(rec: Recorded, root: string, id: string) returns (parent: string)
    requires root !in rec && "" !in rec && id in rec
    ensures parent == TreeParent(rec, root, id)
  {
    parent := rec[id];
    if parent == "" || parent == id || (parent !in rec && parent != root) {
      return root;
    }
    var seen, cursor := {id}, parent;
    ghost var step, k: nat := Link(rec, root), 1;
    assert At(step, id, 0) == Some(id) && At(step, id, 1) == Some(parent);
    while cursor != "" && cursor != root
      invariant k > 0 && At(step, id, k) == Some(cursor) && step == Link(rec, root)
      invariant forall m: nat :: m < k ==> !RevisitsAt(step, id, m)
      invariant seen == Places(step, id, k)
      decreases |rec| + 1 - k
    {
      if cursor in seen {
        var m := PlaceIs(step, id, k, cursor);
        assert RevisitsAt(step, id, k);
        return root;
      }
      FreshPlace(step, id, k);
      WalkIsShort(rec, root, id, k);
      seen, cursor, k := seen + {cursor}, Up(rec, cursor), k + 1;
    }
    NotCyclic(rec, root, id, k);
  }

  lemma FreshPlace(step: string -> Move<string>, start: string, k: nat)
    requires k > 0 && At(step, start, k).Some? && At(step, start, k).value !in Places(step, start, k)
    ensures !RevisitsAt(step, start, k)
  {
    if m: nat :| m < k && At(step, start, m) == At(step, start, k) {
      PlacesAre(step, start, k, m);
    }
  }
}
