/** The rows of a run's trace that the waterfall shows: search, collapsed subtrees, section rows. */
module TraceFilter {
  import opened Wrappers
  import opened Walks

  datatype Event = Event(kind: string, capability: Option<string>)

  datatype TraceRow = TraceRow(
    id: string,
    event: Option<Event>,
    parentId: Option<string>,
    children: seq<string>,
    depth: int,
    postRun: bool,
    outsideWindow: bool,
    duration: Option<real>,
    left: Option<real>,
    width: Option<real>)

  datatype Layout = Layout(rows: seq<TraceRow>, byId: map<string, TraceRow>)

  /** The filter's inputs; `matches` says whether a row's text contains the search term. */
  datatype Filter = Filter(showEvents: bool, searching: bool, matches: TraceRow -> bool, collapsed: set<string>)

  const ENVELOPE_TYPES: set<string> := {"run_started", "run_completed", "manifest"}

  function Parent(byId: map<string, TraceRow>, id: string): Option<string> {
    if id in byId && byId[id].parentId.Some? && byId[id].parentId.value != "" then byId[id].parentId else None
  }

  function Upward(byId: map<string, TraceRow>): string -> Move<string> {
    id => match Parent(byId, id) case None => Stop case Some(p) => Next(p)
  }

  /** What the layout guarantees: rows are indexed by id, parent and child links agree, only section rows
      have no event, and going up always ends (each row has more rank than its parent). */
  ghost predicate Sound(layout: Layout, rank: map<string, nat>) {
    && rank.Keys == layout.byId.Keys && "" !in layout.byId
    && (forall i :: 0 <= i < |layout.rows| ==>
          layout.rows[i].id in layout.byId && layout.byId[layout.rows[i].id] == layout.rows[i])
    && (forall id :: id in layout.byId ==> layout.byId[id].id == id && layout.byId[id] in layout.rows)
    && (forall id :: id in layout.byId && Parent(layout.byId, id).Some? ==>
          var p := Parent(layout.byId, id).value;
          p in layout.byId && rank[p] < rank[id] && id in layout.byId[p].children)
    && (forall id, c :: id in layout.byId && c in layout.byId[id].children ==> Parent(layout.byId, c) == Some(id))
  }

  predicate IsHit(f: Filter, row: TraceRow) {
    && row.event.Some? && (f.showEvents || row.event.value.kind !in ENVELOPE_TYPES)
    && (!f.searching || f.matches(row))
  }

  /** `id` is row `start` itself or one of its ancestors. */
  ghost predicate IsAbove(byId: map<string, TraceRow>, id: string, start: string) {
    exists k: nat :: At(Upward(byId), start, k) == Some(id)
  }

  ghost predicate IsProperlyAbove(byId: map<string, TraceRow>, id: string, start: string) {
    exists k: nat :: k > 0 && At(Upward(byId), start, k) == Some(id)
  }

  ghost predicate IsAboveParent(byId: map<string, TraceRow>, id: string, start: string) {
    Parent(byId, start).Some? && IsAbove(byId, id, Parent(byId, start).value)
  }

  /** What survives the search: the hits among the first n rows and everything above them. */
  ghost predicate Survives(layout: Layout, f: Filter, n: nat, id: string)
    requires n <= |layout.rows|
  {
    exists i: nat :: i < n && IsHit(f, layout.rows[i]) && IsAbove(layout.byId, id, layout.rows[i].id)
  }

  predicate IsShown(f: Filter, row: TraceRow, keep: set<string>, hidden: bool) {
    if row.event.None? then !row.postRun || exists c :: c in row.children && c in keep
    else row.id in keep && (f.searching || !hidden)
  }

  ghost predicate IsHidden(layout: Layout, f: Filter, row: TraceRow) {
    exists id :: id in f.collapsed && IsProperlyAbove(layout.byId, id, row.id)
  }

  ghost function Kept(layout: Layout, f: Filter): set<string> {
    set id | id in layout.byId && Survives(layout, f, |layout.rows|, id)
  }

  /** The rows shown, in order. */
  ghost function ShownRows(layout: Layout, f: Filter, n: nat): seq<TraceRow>
    requires n <= |layout.rows|
  {
    if n == 0 then []
    else
      var row := layout.rows[n - 1];
      ShownRows(layout, f, n - 1) +
      if IsShown(f, row, Kept(layout, f), IsHidden(layout, f, row)) then [row] else []
  }

  // ---------- walking up ----------

  lemma {:induction false} UpStays(layout: Layout, rank: map<string, nat>, start: string, k: nat)
    requires Sound(layout, rank) && start in layout.byId && At(Upward(layout.byId), start, k).Some?
    ensures At(Upward(layout.byId), start, k).value in layout.byId
  {
    if k > 0 { UpStays(layout, rank, start, k - 1); }
  }

  lemma {:induction false} UpShift(byId: map<string, TraceRow>, start: string, k: nat)
    requires Parent(byId, start).Some?
    ensures At(Upward(byId), start, k + 1) == At(Upward(byId), Parent(byId, start).value, k)
  {
    if k == 0 {
      assert At(Upward(byId), start, 0) == Some(start);
    } else {
      UpShift(byId, start, k - 1);
    }
  }

  /** Going up from a row: the row, or going up from its parent. */
  lemma AboveCases(byId: map<string, TraceRow>, id: string, start: string)
    ensures IsAbove(byId, id, start) <==> id == start || IsAboveParent(byId, id, start)
  {
    assert At(Upward(byId), start, 0) == Some(start);
    if k: nat :| At(Upward(byId), start, k) == Some(id) {
      if k > 0 {
        if Parent(byId, start).Some? {
          UpShift(byId, start, k - 1);
        } else {
          HaltIsLast(Upward(byId), start, 0, k);
        }
      }
    }
    if Parent(byId, start).Some? {
      if k: nat :| At(Upward(byId), Parent(byId, start).value, k) == Some(id) {
        UpShift(byId, start, k);
      }
    }
  }

  lemma ProperlyAbove(byId: map<string, TraceRow>, id: string, start: string)
    ensures IsProperlyAbove(byId, id, start) <==> IsAboveParent(byId, id, start)
  {
    if k: nat :| k > 0 && At(Upward(byId), start, k) == Some(id) {
      if Parent(byId, start).Some? {
        UpShift(byId, start, k - 1);
      } else {
        HaltIsLast(Upward(byId), start, 0, k);
      }
    }
    if Parent(byId, start).Some? {
      if k: nat :| At(Upward(byId), Parent(byId, start).value, k) == Some(id) {
        UpShift(byId, start, k);
      }
    }
  }

  /** What survives is closed upwards. */
  lemma SurvivesUp(layout: Layout, f: Filter, n: nat, id: string, above: string)
    requires n <= |layout.rows| && Survives(layout, f, n, id) && IsAbove(layout.byId, above, id)
    ensures Survives(layout, f, n, above)
  {
    var i: nat :| i < n && IsHit(f, layout.rows[i]) && IsAbove(layout.byId, id, layout.rows[i].id);
    var k: nat :| At(Upward(layout.byId), layout.rows[i].id, k) == Some(id);
    var m: nat :| At(Upward(layout.byId), id, m) == Some(above);
    Onward(Upward(layout.byId), layout.rows[i].id, k, m);
  }

  // ---------- the two passes ----------

  /** One hit: the row and everything above it is kept; the climb stops at the first row kept before. */
  method KeepAbove(layout: Layout, start: string, before: set<string>, ghost rank: map<string, nat>)
    returns (keep: set<string>)
    requires Sound(layout, rank) && start in layout.byId && before <= layout.byId.Keys
    requires forall id, above :: id in before && IsAbove(layout.byId, above, id) ==> above in before
    ensures keep <= layout.byId.Keys
    ensures forall id :: id in keep <==> id in before || IsAbove(layout.byId, id, start)
  {
    keep := before;
    var cur := Some(start);
    while cur.Some? && cur.value !in keep
      invariant before <= keep <= layout.byId.Keys && (cur.Some? ==> cur.value in layout.byId)
      invariant forall id :: id in keep || (cur.Some? && IsAbove(layout.byId, id, cur.value)) <==>
                             id in before || IsAbove(layout.byId, id, start)
      invariant cur.Some? ==> forall id :: id in keep && id !in before ==> rank[cur.value] < rank[id]
      decreases if cur.Some? then rank[cur.value] + 1 else 0
    {
      ghost var was := cur.value;
      forall id ensures IsAbove(layout.byId, id, was) <==> id == was || IsAboveParent(layout.byId, id, was) {
        AboveCases(layout.byId, id, was);
      }
      keep := keep + {cur.value};
      cur := Parent(layout.byId, cur.value);
    }
  }

  method KeptRows(layout: Layout, f: Filter, ghost rank: map<string, nat>) returns (keep: set<string>)
    requires Sound(layout, rank)
    ensures keep == Kept(layout, f)
  {
    keep := {};
    for i := 0 to |layout.rows|
      invariant keep <= layout.byId.Keys
      invariant forall id :: id in keep <==> Survives(layout, f, i, id)
    {
      var row := layout.rows[i];
      SurvivesNext(layout, f, i);
      if row.event.None? {
        continue;
      }
      if !f.showEvents && row.event.value.kind in ENVELOPE_TYPES {
        continue;
      }
      if !f.searching || f.matches(row) {
        forall id, above | id in keep && IsAbove(layout.byId, above, id) ensures above in keep {
          SurvivesUp(layout, f, i, id, above);
        }
        keep := KeepAbove(layout, row.id, keep, rank);
      }
    }
  }

  lemma SurvivesNext(layout: Layout, f: Filter, i: nat)
    requires i < |layout.rows|
    ensures forall id :: Survives(layout, f, i + 1, id) <==>
              Survives(layout, f, i, id) || (IsHit(f, layout.rows[i]) && IsAbove(layout.byId, id, layout.rows[i].id))
  {
  }

  method BelowCollapsed(layout: Layout, f: Filter, row: TraceRow, ghost rank: map<string, nat>) returns (hidden: bool)
    requires Sound(layout, rank) && row.id in layout.byId && layout.byId[row.id] == row
    ensures hidden <==> IsHidden(layout, f, row)
  {
    var anc := Parent(layout.byId, row.id);
    forall id ensures IsProperlyAbove(layout.byId, id, row.id) <==> anc.Some? && IsAbove(layout.byId, id, anc.value) {
      ProperlyAbove(layout.byId, id, row.id);
    }
    while anc.Some?
      invariant anc.Some? ==> anc.value in layout.byId
      invariant IsHidden(layout, f, row) <==>
                anc.Some? && exists id :: id in f.collapsed && IsAbove(layout.byId, id, anc.value)
      decreases if anc.Some? then rank[anc.value] + 1 else 0
    {
      ghost var was := anc.value;
      forall id ensures IsAbove(layout.byId, id, was) <==> id == was || IsAboveParent(layout.byId, id, was) {
        AboveCases(layout.byId, id, was);
      }
      if anc.value in f.collapsed {
        return true;
      }
      anc := Parent(layout.byId, anc.value);
    }
    return false;
  }

  method Visible(layout: Layout, f: Filter, ghost rank: map<string, nat>) returns (out: seq<TraceRow>)
    requires Sound(layout, rank)
    ensures out == ShownRows(layout, f, |layout.rows|)
  {
    var keep := KeptRows(layout, f, rank);
    out := [];
    for i := 0 to |layout.rows|
      invariant out == ShownRows(layout, f, i)
    {
      var row := layout.rows[i];
      if row.event.None? {
        if !row.postRun || exists c :: c in row.children && c in keep {
          out := out + [row];
        }
        continue;
      }
      if row.id !in keep {
        continue;
      }
      if !f.searching {
        var hidden := BelowCollapsed(layout, f, row, rank);
        if hidden {
          continue;
        }
      }
      out := out + [row];
    }
  }

  // ---------- what is shown ----------

  ghost predicate IsVisible(layout: Layout, f: Filter, row: TraceRow) {
    row in ShownRows(layout, f, |layout.rows|)
  }

  lemma {:induction false} VisibleUpTo(layout: Layout, f: Filter, n: nat, row: TraceRow)
    requires n <= |layout.rows|
    ensures row in ShownRows(layout, f, n) <==>
            row in layout.rows[..n] && IsShown(f, row, Kept(layout, f), IsHidden(layout, f, row))
  {
    if n > 0 {
      VisibleUpTo(layout, f, n - 1, row);
      assert layout.rows[..n] == layout.rows[..n - 1] + [layout.rows[n - 1]];
    }
  }

  lemma VisibleIff(layout: Layout, f: Filter, row: TraceRow)
    ensures IsVisible(layout, f, row) <==>
            row in layout.rows && IsShown(f, row, Kept(layout, f), IsHidden(layout, f, row))
  {
    VisibleUpTo(layout, f, |layout.rows|, row);
    assert layout.rows[..|layout.rows|] == layout.rows;
  }

  /** No row is shown without its parent: the visible rows form a tree under the root. */
  lemma ParentIsVisible(layout: Layout, rank: map<string, nat>, f: Filter, row: TraceRow)
    requires Sound(layout, rank) && IsVisible(layout, f, row) && row.event.Some? && Parent(layout.byId, row.id).Some?
    ensures IsVisible(layout, f, layout.byId[Parent(layout.byId, row.id).value])
  {
    var byId := layout.byId;
    VisibleIff(layout, f, row);
    var i :| 0 <= i < |layout.rows| && layout.rows[i] == row;
    var p := Parent(byId, row.id).value;
    VisibleIff(layout, f, byId[p]);
    AboveCases(byId, p, row.id);
    AboveCases(byId, p, p);
    SurvivesUp(layout, f, |layout.rows|, row.id, p);
    assert p in Kept(layout, f) && row.id in byId[p].children;
    if byId[p].event.Some? && IsHidden(layout, f, byId[p]) {
      var id :| id in f.collapsed && IsProperlyAbove(byId, id, p);
      ProperlyAbove(byId, id, p);
      AboveCases(byId, id, p);
      ProperlyAbove(byId, id, row.id);
      assert IsHidden(layout, f, row);
    }
  }

  /** A hit is shown unless it lies below a collapsed row, which a search ignores; and an event row is shown
      only for the sake of a hit that it is or has below it. */
  lemma HitsAreVisible(layout: Layout, rank: map<string, nat>, f: Filter, row: TraceRow)
    requires Sound(layout, rank) && row in layout.rows && row.event.Some?
    ensures IsHit(f, row) && (f.searching || !IsHidden(layout, f, row)) ==> IsVisible(layout, f, row)
    ensures IsVisible(layout, f, row) ==>
              exists hit :: hit in layout.rows && IsHit(f, hit) && IsAbove(layout.byId, row.id, hit.id)
    ensures IsVisible(layout, f, row) && !f.searching ==> !IsHidden(layout, f, row)
  {
    VisibleIff(layout, f, row);
    AboveCases(layout.byId, row.id, row.id);
    var i: nat :| i < |layout.rows| && layout.rows[i] == row;
  }

  /** A kept child of a section is, or has below it, a hit, and the hit lies below the section. */
  lemma SectionHasHit(layout: Layout, rank: map<string, nat>, f: Filter, section: TraceRow, c: string)
    returns (hit: TraceRow)
    requires Sound(layout, rank) && section in layout.rows && c in section.children && c in Kept(layout, f)
    ensures hit in layout.rows && IsHit(f, hit) && IsProperlyAbove(layout.byId, section.id, hit.id)
  {
    var byId := layout.byId;
    var i: nat :| i < |layout.rows| && IsHit(f, layout.rows[i]) && IsAbove(byId, c, layout.rows[i].id);
    hit := layout.rows[i];
    var k: nat :| At(Upward(byId), hit.id, k) == Some(c);
    assert At(Upward(byId), hit.id, k + 1) == Some(section.id);
  }

  lemma HitKeepsChild(layout: Layout, rank: map<string, nat>, f: Filter, section: TraceRow, hit: TraceRow)
    returns (c: string)
    requires Sound(layout, rank) && section in layout.rows && hit in layout.rows && IsHit(f, hit)
    requires IsProperlyAbove(layout.byId, section.id, hit.id)
    ensures c in section.children && c in Kept(layout, f)
  {
    var byId := layout.byId;
    var k: nat :| k > 0 && At(Upward(byId), hit.id, k) == Some(section.id);
    c := At(Upward(byId), hit.id, k - 1).value;
    UpStays(layout, rank, hit.id, k - 1);
    assert IsAbove(byId, c, hit.id);
    var i: nat :| i < |layout.rows| && layout.rows[i] == hit;
    assert Survives(layout, f, |layout.rows|, c);
  }

  /** No dangling header: a post-run section is shown exactly when a member of it is, or has below it, a hit. */
  lemma SectionIsNotEmpty(layout: Layout, rank: map<string, nat>, f: Filter, section: TraceRow)
    requires Sound(layout, rank) && section in layout.rows && section.event.None? && section.postRun
    ensures IsVisible(layout, f, section) <==>
            exists hit :: hit in layout.rows && IsHit(f, hit) && IsProperlyAbove(layout.byId, section.id, hit.id)
  {
    VisibleIff(layout, f, section);
    if IsVisible(layout, f, section) {
      var c :| c in section.children && c in Kept(layout, f);
      var hit := SectionHasHit(layout, rank, f, section, c);
    }
    if hit :| hit in layout.rows && IsHit(f, hit) && IsProperlyAbove(layout.byId, section.id, hit.id) {
      var c := HitKeepsChild(layout, rank, f, section, hit);
    }
  }

  /** A row without children is above nothing but itself. */
  lemma LeafIsAlone(layout: Layout, rank: map<string, nat>, row: TraceRow, below: TraceRow)
    requires Sound(layout, rank) && row in layout.rows && below in layout.rows && row.children == []
    requires IsAbove(layout.byId, row.id, below.id)
    ensures below == row
  {
    var k: nat :| At(Upward(layout.byId), below.id, k) == Some(row.id);
    if k > 0 { HasChild(layout, rank, row.id, below.id, k); }
  }

  lemma HasChild(layout: Layout, rank: map<string, nat>, id: string, start: string, k: nat)
    requires Sound(layout, rank) && start in layout.byId && k > 0 && At(Upward(layout.byId), start, k) == Some(id)
    ensures id in layout.byId && layout.byId[id].children != []
  {
    UpStays(layout, rank, start, k - 1);
    var c := At(Upward(layout.byId), start, k - 1).value;
    assert Parent(layout.byId, c) == Some(id);
  }

  /** A leaf of the trace is shown exactly if it is no envelope, or events are asked for, and it matches the search,
      or there is none and nothing above it is collapsed. */
  lemma LeafIsShownIff(layout: Layout, rank: map<string, nat>, f: Filter, row: TraceRow)
    requires Sound(layout, rank) && row in layout.rows && row.event.Some? && row.children == []
    ensures IsVisible(layout, f, row) <==>
            && (f.showEvents || (row.event.value.kind != "run_started" && row.event.value.kind != "run_completed"
                                 && row.event.value.kind != "manifest"))
            && if f.searching then f.matches(row) else !IsHidden(layout, f, row)
  {
    HitsAreVisible(layout, rank, f, row);
    if IsVisible(layout, f, row) {
      var hit :| hit in layout.rows && IsHit(f, hit) && IsAbove(layout.byId, row.id, hit.id);
      LeafIsAlone(layout, rank, row, hit);
    }
  }
}
