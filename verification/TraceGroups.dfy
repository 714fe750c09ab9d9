/** Folding same-name sibling leaves of the trace into "name xN" rows: placeholders first, then splices. */
module TraceGroups {
  import opened Wrappers
  import opened TraceFilter

  /** A row of the folded list: a row as it was, a group row, or a member of an expanded group. */
  datatype Item = Plain(row: TraceRow) | Group(gid: string, members: seq<TraceRow>) | Member(row: TraceRow)

  function RowGroupKey(row: TraceRow): Option<string> {
    match row.event
    case None => None
    case Some(e) =>
      if e.kind == "model_call" then Some("generation")
      else if e.kind == "tool_call" then Some(if e.capability.Some? then e.capability.value else e.kind)
      else Some(e.kind)
  }

  /** The group a row belongs to, if it may be folded at all. */
  function Gid(row: TraceRow): Option<string> {
    var foldable := row.event.Some? && row.event.value.kind !in ENVELOPE_TYPES && row.children == [] &&
                    !row.outsideWindow;
    var key := if foldable then RowGroupKey(row) else None;
    if key.None? || key.value == "" then None
    else Some((if row.parentId.Some? then row.parentId.value else "root") + "|" + key.value)
  }

  // ---------- what a group id identifies ----------

  /** Keys k and m make the parents p and q share a group id. */
  predicate Collide(p: string, k: string, q: string, m: string) {
    k != "" && m != "" && p + "|" + k == q + "|" + m
  }

  /** One parent id continues the other behind a separator. */
  predicate Continues(p: string, q: string) {
    p + "|" <= q || q + "|" <= p
  }

  lemma CollidingContinues(p: string, k: string, q: string, m: string)
    requires Collide(p, k, q, m) && |p| <= |q|
    ensures p == q || p + "|" <= q
  {
    var s := p + "|" + k;
    assert s[..|p|] == p && s[..|q|] == q && s[|p|] == '|';
    if |p| < |q| {
      assert q[..|p| + 1] == s[..|p| + 1] == p + "|";
    }
  }

  lemma ContinuingCollides(p: string, q: string)
    requires p + "|" <= q
    ensures Collide(p, q[|p| + 1..] + "|k", q, "k")
  {
    assert q == p + "|" + q[|p| + 1..];
    assert p + "|" + (q[|p| + 1..] + "|k") == q + "|" + "k";
  }

  /** Exactly when two parents can fall together: under some keys they share a group id. */
  lemma ParentsCollideIff(p: string, q: string)
    requires p != q
    ensures (exists k, m :: Collide(p, k, q, m)) <==> Continues(p, q)
  {
    if k, m :| Collide(p, k, q, m) {
      if |p| <= |q| {
        CollidingContinues(p, k, q, m);
      } else {
        assert Collide(q, m, p, k);
        CollidingContinues(q, m, p, k);
      }
    }
    if p + "|" <= q {
      ContinuingCollides(p, q);
    } else if q + "|" <= p {
      ContinuingCollides(q, p);
      assert Collide(p, "k", q, p[|q| + 1..] + "|k");
    }
  }

  /** The parent's part of a group id. */
  function ParentPart(row: TraceRow): string {
    if row.parentId.Some? then row.parentId.value else "root"
  }

  /** Two foldable rows whose parents do not continue each other share a group exactly when they share
      parent and key. */
  lemma GroupsAreSiblings(a: TraceRow, b: TraceRow)
    requires Gid(a).Some? && Gid(b).Some? && !Continues(ParentPart(a), ParentPart(b))
    ensures Gid(a) == Gid(b) <==> ParentPart(a) == ParentPart(b) && RowGroupKey(a) == RowGroupKey(b)
  {
    var p, k, q, m := ParentPart(a), RowGroupKey(a).value, ParentPart(b), RowGroupKey(b).value;
    if Gid(a) == Gid(b) {
      assert Collide(p, k, q, m);
      if p != q {
        ParentsCollideIff(p, q);
      }
      SameTail(p + "|", k, m);
    }
  }

  lemma SameTail(head: string, k: string, m: string)
    requires head + k == head + m
    ensures k == m
  {
    assert k == (head + k)[|head|..] && m == (head + m)[|head|..];
  }

  // ---------- the traces the gateway produces ----------

  /** The kinds of events that others name as their parent; an event id is its kind, a colon and more. */
  const PARENT_KINDS: seq<string> := ["tool", "approval", "elicitation", "terminal", "notification"]

  predicate IsEventParent(id: string) {
    exists i :: 0 <= i < |PARENT_KINDS| && PARENT_KINDS[i] + ":" <= id
  }

  /** "trace-root", behind as many underscores as it takes to differ from every event id. */
  predicate IsRootId(id: string) {
    id == "trace-root" || (id != "" && id[0] == '_' && IsRootId(id[1..]))
  }

  /** A foldable row of a produced trace: tool calls record no parent and hang from the root; every other
      row hangs from the root or from a recorded parent, and its key is an event type. */
  predicate IsProduced(row: TraceRow, root: string) {
    && row.event.Some? && row.parentId.Some?
    && (row.parentId.value == root || (row.event.value.kind != "tool_call" && IsEventParent(row.parentId.value)))
    && '|' !in row.event.value.kind
  }

  lemma RootIsNoParent(root: string, id: string)
    requires IsRootId(root) && IsEventParent(id)
    ensures !(root <= id)
  {
    assert root[0] == 't' || root[0] == '_';
    assert root[0] == 't' ==> root[1] == 'r';
    var i :| 0 <= i < |PARENT_KINDS| && PARENT_KINDS[i] + ":" <= id;
    assert id[0] == PARENT_KINDS[i][0] && id[1] == PARENT_KINDS[i][1];
  }

  lemma LastSeparator(p: string, k: string, q: string, m: string)
    requires Collide(p, k, q, m) && '|' !in k && '|' !in m
    ensures p == q && k == m
  {
    var s := p + "|" + k;
    assert s[|p|] == '|' && s[|q|] == '|';
    assert forall i :: |p| < i < |s| ==> s[i] == k[i - |p| - 1] != '|';
    assert forall i :: |q| < i < |s| ==> s[i] == m[i - |q| - 1] != '|';
    assert p == s[..|p|] && q == s[..|q|] && k == s[|p| + 1..] && m == s[|q| + 1..];
  }

  /** The group of a tool call, against any other parent. */
  lemma ToolKeepsApart(root: string, k: string, q: string, m: string)
    requires IsRootId(root) && Collide(root, k, q, m) && (q == root || IsEventParent(q)) && '|' !in m
    ensures q == root
  {
    RootHasNoSeparator(root);
    SeparatorInside(q, root);
    if |root| <= |q| {
      CollidingContinues(root, k, q, m);
      if q != root { RootIsNoParent(root, q); }
    } else {
      assert Collide(q, m, root, k);
      CollidingContinues(q, m, root, k);
    }
  }

  lemma SeparatorInside(q: string, id: string)
    ensures q + "|" <= id ==> '|' in id
  {
    if q + "|" <= id {
      assert id[|q|] == '|';
    }
  }

  lemma {:induction false} RootHasNoSeparator(root: string)
    requires IsRootId(root)
    ensures '|' !in root
  {
    if root != "trace-root" { RootHasNoSeparator(root[1..]); }
  }

  /** In a produced trace a group is always the same-key leaves of one parent, whatever names the tools have
      and whatever call ids the model provider chose. */
  lemma ProducedGroupsAreSiblings(a: TraceRow, b: TraceRow, root: string)
    requires IsRootId(root) && IsProduced(a, root) && IsProduced(b, root) && Gid(a).Some? && Gid(b).Some?
    ensures Gid(a) == Gid(b) <==> a.parentId == b.parentId && RowGroupKey(a) == RowGroupKey(b)
  {
    var p, k, q, m := a.parentId.value, RowGroupKey(a).value, b.parentId.value, RowGroupKey(b).value;
    if Gid(a) == Gid(b) {
      assert Collide(p, k, q, m) && Collide(q, m, p, k);
      if a.event.value.kind != "tool_call" && b.event.value.kind != "tool_call" {
        LastSeparator(p, k, q, m);
      } else if a.event.value.kind == "tool_call" && b.event.value.kind != "tool_call" {
        ToolKeepsApart(root, k, q, m);
      } else if a.event.value.kind != "tool_call" {
        ToolKeepsApart(root, m, p, k);
      }
      SameTail(p + "|", k, m);
    }
  }

  // ---------- the simple form ----------

  function Members(rows: seq<TraceRow>, gid: string): seq<TraceRow> {
    if rows == [] then []
    else if Gid(rows[|rows| - 1]) == Some(gid) then Members(rows[..|rows| - 1], gid) + [rows[|rows| - 1]]
    else Members(rows[..|rows| - 1], gid)
  }

  function Plains(rows: seq<TraceRow>): seq<Item> {
    seq(|rows|, i requires 0 <= i < |rows| => Plain(rows[i]))
  }

  /** A lone row stays as it is; an expanded group is followed by its members. */
  function Block(gid: string, members: seq<TraceRow>, expanded: set<string>): seq<Item> {
    if |members| < 2 then Plains(members)
    else [Group(gid, members)] +
         if "grp:" + gid in expanded then seq(|members|, i requires 0 <= i < |members| => Member(members[i])) else []
  }

  /** What the row at position i turns into: itself, its whole group if it is the first of it, or nothing. */
  function Piece(rows: seq<TraceRow>, i: nat, expanded: set<string>): seq<Item>
    requires i < |rows|
  {
    match Gid(rows[i])
    case None => [Plain(rows[i])]
    case Some(gid) => if Members(rows[..i], gid) != [] then [] else Block(gid, Members(rows, gid), expanded)
  }

  /** One walk from left to right. */
  function Folded(rows: seq<TraceRow>, n: nat, expanded: set<string>): seq<Item>
    requires n <= |rows|
  {
    if n == 0 then [] else Folded(rows, n - 1, expanded) + Piece(rows, n - 1, expanded)
  }

  // ---------- the first pass ----------

  /** Ungrouped rows and first members, in order. */
  function Firsts(rows: seq<TraceRow>): seq<TraceRow> {
    if rows == [] then []
    else
      var before, row := rows[..|rows| - 1], rows[|rows| - 1];
      if Gid(row).Some? && Members(before, Gid(row).value) != [] then Firsts(before) else Firsts(before) + [row]
  }

  /** Every group has its members so far, in order. */
  ghost predicate BucketsHold(rows: seq<TraceRow>, buckets: map<string, seq<TraceRow>>) {
    forall g :: if g in buckets then Members(rows, g) == buckets[g] != [] else Members(rows, g) == []
  }

  /** The slots are the positions of the placeholders, and a placeholder is its group's first member. */
  ghost predicate SlotsPoint(out: seq<TraceRow>, slots: map<string, nat>, buckets: map<string, seq<TraceRow>>) {
    && slots.Keys == buckets.Keys
    && (forall g :: g in slots ==> slots[g] < |out| && Gid(out[slots[g]]) == Some(g))
    && (forall g :: g in slots ==> buckets[g] != [] && out[slots[g]] == buckets[g][0])
    && (forall p: nat :: p < |out| && Gid(out[p]).Some? ==> Gid(out[p]).value in slots && slots[Gid(out[p]).value] == p)
  }

  lemma BucketsNext(rows: seq<TraceRow>, buckets: map<string, seq<TraceRow>>, row: TraceRow)
    requires BucketsHold(rows, buckets)
    ensures match Gid(row)
            case None => BucketsHold(rows + [row], buckets)
            case Some(g) => BucketsHold(rows + [row], buckets[g := (if g in buckets then buckets[g] else []) + [row]])
  {
    var all := rows + [row];
    assert all[..|all| - 1] == rows;
    forall g ensures Members(all, g) == if Gid(row) == Some(g) then Members(rows, g) + [row] else Members(rows, g) {
    }
  }

  lemma FirstsNext(rows: seq<TraceRow>, row: TraceRow, buckets: map<string, seq<TraceRow>>)
    requires BucketsHold(rows, buckets)
    ensures Firsts(rows + [row]) ==
            if Gid(row).Some? && Gid(row).value in buckets then Firsts(rows) else Firsts(rows) + [row]
  {
    assert (rows + [row])[..|rows + [row]| - 1] == rows;
  }

  lemma SlotsPlain(out: seq<TraceRow>, slots: map<string, nat>, buckets: map<string, seq<TraceRow>>, row: TraceRow)
    requires SlotsPoint(out, slots, buckets) && Gid(row).None?
    ensures SlotsPoint(out + [row], slots, buckets)
  {
  }

  lemma SlotsNew(out: seq<TraceRow>, slots: map<string, nat>, buckets: map<string, seq<TraceRow>>, row: TraceRow,
                 g: string)
    requires SlotsPoint(out, slots, buckets) && Gid(row) == Some(g) && g !in buckets
    ensures SlotsPoint(out + [row], slots[g := |out|], buckets[g := [row]])
  {
  }

  lemma SlotsMore(out: seq<TraceRow>, slots: map<string, nat>, buckets: map<string, seq<TraceRow>>, row: TraceRow,
                  g: string)
    requires SlotsPoint(out, slots, buckets) && g in buckets
    ensures SlotsPoint(out, slots, buckets[g := buckets[g] + [row]])
  {
  }

  /** The first pass. */
  method CollectGroups(rows: seq<TraceRow>)
    returns (out: seq<TraceRow>, slots: map<string, nat>, buckets: map<string, seq<TraceRow>>)
    ensures out == Firsts(rows) && BucketsHold(rows, buckets) && SlotsPoint(out, slots, buckets)
  {
    out, slots, buckets := [], map[], map[];
    for i := 0 to |rows|
      invariant out == Firsts(rows[..i]) && BucketsHold(rows[..i], buckets) && SlotsPoint(out, slots, buckets)
    {
      var row := rows[i];
      assert rows[..i + 1] == rows[..i] + [row];
      FirstsNext(rows[..i], row, buckets);
      BucketsNext(rows[..i], buckets, row);
      var gid := Gid(row);
      if gid.None? {
        SlotsPlain(out, slots, buckets, row);
        out := out + [row];
      } else if gid.value !in buckets {
        SlotsNew(out, slots, buckets, row, gid.value);
        slots := slots[gid.value := |out|];
        out := out + [row];
        buckets := buckets[gid.value := [row]];
      } else {
        SlotsMore(out, slots, buckets, row, gid.value);
        buckets := buckets[gid.value := buckets[gid.value] + [row]];
      }
    }
    assert rows[..|rows|] == rows;
  }

  // ---------- the second pass ----------

  /** A list of first-pass rows with every placeholder replaced by its block. */
  function Expanded(out: seq<TraceRow>, buckets: map<string, seq<TraceRow>>, expanded: set<string>): seq<Item> {
    if out == [] then [] else One(out[0], buckets, expanded) + Expanded(out[1..], buckets, expanded)
  }

  function One(row: TraceRow, buckets: map<string, seq<TraceRow>>, expanded: set<string>): seq<Item> {
    var gid := Gid(row);
    if gid.Some? && gid.value in buckets then Block(gid.value, buckets[gid.value], expanded) else [Plain(row)]
  }

  lemma PlainsCons(rows: seq<TraceRow>, tail: seq<Item>)
    requires rows != []
    ensures [Plain(rows[0])] + (Plains(rows[1..]) + tail) == Plains(rows) + tail
  {
  }

  lemma {:induction false} ExpandPlain(mid: seq<TraceRow>, rest: seq<TraceRow>, buckets: map<string, seq<TraceRow>>,
                                       expanded: set<string>)
    requires forall i :: 0 <= i < |mid| ==> Gid(mid[i]).None?
    ensures Expanded(mid + rest, buckets, expanded) == Plains(mid) + Expanded(rest, buckets, expanded)
  {
    if mid == [] {
      assert mid + rest == rest;
    } else {
      assert (mid + rest)[1..] == mid[1..] + rest && (mid + rest)[0] == mid[0];
      ExpandPlain(mid[1..], rest, buckets, expanded);
      assert One(mid[0], buckets, expanded) == [Plain(mid[0])];
      PlainsCons(mid, Expanded(rest, buckets, expanded));
    }
  }

  lemma SpliceSeq(a: seq<Item>, x: Item, mid: seq<Item>, tail: seq<Item>, items: seq<Item>, s: nat, block: seq<Item>)
    requires s == |a| && items == a + [x] + mid + tail
    ensures items[..s] + block + items[s + 1..] == a + (block + (mid + tail)) && items[s] == x
  {
  }

  /** Splicing the block of the placeholder at s into a list that is finished from b on. */
  lemma Splice(out: seq<TraceRow>, s: nat, b: nat, buckets: map<string, seq<TraceRow>>, expanded: set<string>,
               items: seq<Item>)
    requires s < b <= |out| && forall p: nat :: s < p < b ==> Gid(out[p]).None?
    requires items == Plains(out[..b]) + Expanded(out[b..], buckets, expanded)
    ensures s < |items| && items[s] == Plain(out[s])
    ensures items[..s] + One(out[s], buckets, expanded) + items[s + 1..] ==
            Plains(out[..s]) + Expanded(out[s..], buckets, expanded)
  {
    var mid, tail := out[s + 1..b], Expanded(out[b..], buckets, expanded);
    assert out[s..][1..] == mid + out[b..];
    ExpandPlain(mid, out[b..], buckets, expanded);
    assert Plains(out[..b]) == Plains(out[..s]) + [Plain(out[s])] + Plains(mid);
    SpliceSeq(Plains(out[..s]), Plain(out[s]), Plains(mid), tail, items, s, One(out[s], buckets, expanded));
  }

  /** Between a bucket's slot and the finished part there is no other placeholder. */
  lemma NoSlotBetween(out: seq<TraceRow>, slots: map<string, nat>, buckets: map<string, seq<TraceRow>>,
                      rest: set<string>, b: nat, gid: string)
    requires SlotsPoint(out, slots, buckets) && b <= |out| && rest <= slots.Keys && gid in rest
    requires forall g :: g in slots ==> (g in rest <==> slots[g] < b)
    requires forall g :: g in rest ==> slots[g] <= slots[gid]
    ensures slots[gid] < b && forall p: nat :: slots[gid] < p < b ==> Gid(out[p]).None?
    ensures forall g :: g in slots ==> (g in rest - {gid} <==> slots[g] < slots[gid])
  {
  }

  /** A bucket whose placeholder stands furthest right. */
  lemma {:induction false} LastSlot(slots: map<string, nat>, rest: set<string>) returns (last: string)
    requires rest != {} && rest <= slots.Keys
    ensures last in rest && forall g :: g in rest ==> slots[g] <= slots[last]
    decreases |rest|
  {
    last :| last in rest;
    if rest != {last} {
      assert rest - {last} != {};
      var other := LastSlot(slots, rest - {last});
      if slots[last] < slots[other] {
        last := other;
      }
    }
  }

  /** The buckets in `rest` are those whose slots lie before b, and from b on the list is finished. */
  ghost predicate IsSpliced(out: seq<TraceRow>, slots: map<string, nat>, buckets: map<string, seq<TraceRow>>,
                            expanded: set<string>,
                            rest: set<string>, b: nat, items: seq<Item>)
  {
    && rest <= slots.Keys && b <= |out|
    && (forall g :: g in slots ==> (g in rest <==> slots[g] < b))
    && items == Plains(out[..b]) + Expanded(out[b..], buckets, expanded)
  }

  function SpliceOne(items: seq<Item>, s: nat, gid: string, members: seq<TraceRow>, expanded: set<string>): seq<Item>
    requires s < |items|
  {
    if |members| < 2 then items else items[..s] + Block(gid, members, expanded) + items[s + 1..]
  }

  lemma SpliceNext(out: seq<TraceRow>, slots: map<string, nat>, buckets: map<string, seq<TraceRow>>,
                   expanded: set<string>,
                   rest: set<string>, b: nat, items: seq<Item>, gid: string)
    requires SlotsPoint(out, slots, buckets) && IsSpliced(out, slots, buckets, expanded, rest, b, items)
    requires gid in rest && forall g :: g in rest ==> slots[g] <= slots[gid]
    ensures slots[gid] < |items|
    ensures IsSpliced(out, slots, buckets, expanded, rest - {gid}, slots[gid],
                      SpliceOne(items, slots[gid], gid, buckets[gid], expanded))
  {
    NoSlotBetween(out, slots, buckets, rest, b, gid);
    Splice(out, slots[gid], b, buckets, expanded, items);
    SpliceIsOne(out, slots, buckets, expanded, items, gid);
  }

  lemma SpliceIsOne(out: seq<TraceRow>, slots: map<string, nat>, buckets: map<string, seq<TraceRow>>,
                    expanded: set<string>,
                    items: seq<Item>, gid: string)
    requires SlotsPoint(out, slots, buckets) && gid in slots
    requires var s := slots[gid]; s < |items| && items[s] == Plain(out[s])
    ensures var s := slots[gid];
            SpliceOne(items, s, gid, buckets[gid], expanded) ==
            items[..s] + One(out[s], buckets, expanded) + items[s + 1..]
  {
    var s := slots[gid];
    if |buckets[gid]| < 2 {
      assert One(out[s], buckets, expanded) == [items[s]];
      assert items == items[..s] + [items[s]] + items[s + 1..];
    }
  }

  lemma SpliceStart(out: seq<TraceRow>, slots: map<string, nat>, buckets: map<string, seq<TraceRow>>,
                    expanded: set<string>)
    requires SlotsPoint(out, slots, buckets)
    ensures IsSpliced(out, slots, buckets, expanded, slots.Keys, |out|, Plains(out))
  {
    assert out[..|out|] == out && out[|out|..] == [];
  }

  lemma SpliceEnd(out: seq<TraceRow>, slots: map<string, nat>, buckets: map<string, seq<TraceRow>>,
                  expanded: set<string>,
                  b: nat, items: seq<Item>)
    requires SlotsPoint(out, slots, buckets) && IsSpliced(out, slots, buckets, expanded, {}, b, items)
    ensures items == Expanded(out, buckets, expanded)
  {
    NoSlotBefore(out, slots, buckets, b);
    SpliceRest(out, buckets, expanded, b);
  }

  lemma NoSlotBefore(out: seq<TraceRow>, slots: map<string, nat>, buckets: map<string, seq<TraceRow>>, b: nat)
    requires SlotsPoint(out, slots, buckets) && b <= |out| && forall g :: g in slots ==> b <= slots[g]
    ensures forall p: nat :: p < b ==> Gid(out[p]).None?
  {
  }

  lemma SpliceRest(out: seq<TraceRow>, buckets: map<string, seq<TraceRow>>, expanded: set<string>, b: nat)
    requires b <= |out| && forall p: nat :: p < b ==> Gid(out[p]).None?
    ensures Plains(out[..b]) + Expanded(out[b..], buckets, expanded) == Expanded(out, buckets, expanded)
  {
    var first := out[..b];
    assert forall i :: 0 <= i < |first| ==> first[i] == out[i] && Gid(out[i]).None?;
    ExpandPlain(first, out[b..], buckets, expanded);
    assert first + out[b..] == out;
  }

  /** The second pass: from the last slot to the first, so that the slots still to come stay valid. */
  method SpliceGroups(out: seq<TraceRow>, slots: map<string, nat>, buckets: map<string, seq<TraceRow>>,
                      expanded: set<string>)
    returns (items: seq<Item>)
    requires SlotsPoint(out, slots, buckets)
    ensures items == Expanded(out, buckets, expanded)
  {
    items := Plains(out);
    var rest := slots.Keys;
    ghost var b: nat := |out|;
    SpliceStart(out, slots, buckets, expanded);
    while rest != {}
      invariant IsSpliced(out, slots, buckets, expanded, rest, b, items)
      decreases |rest|
    {
      ghost var found := LastSlot(slots, rest);
      var gid :| gid in rest && forall g :: g in rest ==> slots[g] <= slots[gid];
      SpliceNext(out, slots, buckets, expanded, rest, b, items, gid);
      items := SpliceOne(items, slots[gid], gid, buckets[gid], expanded);
      b := slots[gid];
      rest := rest - {gid};
    }
    SpliceEnd(out, slots, buckets, expanded, b, items);
  }

  // ---------- the two passes together ----------

  lemma {:induction false} ExpandSnoc(out: seq<TraceRow>, row: TraceRow, buckets: map<string, seq<TraceRow>>,
                                      expanded: set<string>)
    ensures Expanded(out + [row], buckets, expanded) == Expanded(out, buckets, expanded) + One(row, buckets, expanded)
  {
    if out == [] {
      assert (out + [row])[1..] == [];
    } else {
      assert (out + [row])[1..] == out[1..] + [row] && (out + [row])[0] == out[0];
      ExpandSnoc(out[1..], row, buckets, expanded);
      Associates(One(out[0], buckets, expanded), Expanded(out[1..], buckets, expanded), One(row, buckets, expanded));
    }
  }

  lemma Associates(a: seq<Item>, b: seq<Item>, c: seq<Item>)
    ensures a + (b + c) == a + b + c
  {
  }

  lemma {:induction false} MemberCounts(rows: seq<TraceRow>, i: nat, gid: string)
    requires i < |rows| && Gid(rows[i]) == Some(gid)
    ensures Members(rows, gid) != []
  {
    if i < |rows| - 1 {
      MemberCounts(rows[..|rows| - 1], i, gid);
    }
  }

  lemma {:induction false} PassesFold(rows: seq<TraceRow>, n: nat, buckets: map<string, seq<TraceRow>>,
                                      expanded: set<string>)
    requires n <= |rows| && BucketsHold(rows, buckets)
    ensures Expanded(Firsts(rows[..n]), buckets, expanded) == Folded(rows, n, expanded)
  {
    if n > 0 {
      var row := rows[n - 1];
      assert rows[..n][..n - 1] == rows[..n - 1];
      PassesFold(rows, n - 1, buckets, expanded);
      ExpandSnoc(Firsts(rows[..n - 1]), row, buckets, expanded);
      if Gid(row).Some? {
        MemberCounts(rows, n - 1, Gid(row).value);
      }
    }
  }

  /** The fold in place gives what one walk from left to right gives: every group stands where its first
      member stood, and everything else keeps its place. */
  method GroupRows(rows: seq<TraceRow>, expanded: set<string>) returns (items: seq<Item>)
    ensures items == Folded(rows, |rows|, expanded)
  {
    var out, slots, buckets := CollectGroups(rows);
    items := SpliceGroups(out, slots, buckets, expanded);
    PassesFold(rows, |rows|, buckets, expanded);
    assert rows[..|rows|] == rows;
  }

  // ---------- nothing lost, nothing twice ----------

  /** The visible rows an item stands for; members of an expanded group are counted with their group row. */
  function StandsFor(item: Item): seq<TraceRow> {
    match item
    case Plain(row) => [row]
    case Group(_, members) => members
    case Member(_) => []
  }

  function Rows(items: seq<Item>): seq<TraceRow> {
    if items == [] then [] else StandsFor(items[0]) + Rows(items[1..])
  }

  lemma {:induction false} RowsConcat(a: seq<Item>, b: seq<Item>)
    ensures Rows(a + b) == Rows(a) + Rows(b)
  {
    if a == [] {
      assert a + b == b;
    } else {
      assert (a + b)[1..] == a[1..] + b && (a + b)[0] == a[0];
      RowsConcat(a[1..], b);
    }
  }

  lemma {:induction false} RowsOfMembers(items: seq<Item>)
    requires forall i :: 0 <= i < |items| ==> items[i].Member?
    ensures Rows(items) == []
  {
    if items != [] { RowsOfMembers(items[1..]); }
  }

  lemma RowsOfBlock(gid: string, members: seq<TraceRow>, expanded: set<string>)
    ensures Rows(Block(gid, members, expanded)) == members
  {
    if |members| >= 2 {
      var inner := Block(gid, members, expanded)[1..];
      RowsOfMembers(inner);
      assert Block(gid, members, expanded) == [Group(gid, members)] + inner;
      RowsConcat([Group(gid, members)], inner);
      assert Rows([Group(gid, members)]) == members;
    } else if |members| == 1 {
      assert Block(gid, members, expanded)[1..] == [];
    }
  }

  /** The rows whose group is not in `seen`. */
  function Unseen(rows: seq<TraceRow>, seen: set<string>): seq<TraceRow> {
    if rows == [] then []
    else
      var before, row := rows[..|rows| - 1], rows[|rows| - 1];
      if Gid(row).Some? && Gid(row).value in seen then Unseen(before, seen) else Unseen(before, seen) + [row]
  }

  lemma {:induction false} UnseenCons(row: TraceRow, rows: seq<TraceRow>, seen: set<string>)
    ensures Unseen([row] + rows, seen) ==
            (if Gid(row).Some? && Gid(row).value in seen then [] else [row]) + Unseen(rows, seen)
  {
    if rows == [] {
      assert [row] + rows == [row] && [row][..0] == [];
    } else {
      var all := [row] + rows;
      assert all[..|all| - 1] == [row] + rows[..|rows| - 1] && all[|all| - 1] == rows[|rows| - 1];
      UnseenCons(row, rows[..|rows| - 1], seen);
    }
  }

  lemma {:induction false} UnseenSplit(rows: seq<TraceRow>, seen: set<string>, gid: string)
    requires gid !in seen
    ensures multiset(Unseen(rows, seen)) == multiset(Members(rows, gid)) + multiset(Unseen(rows, seen + {gid}))
  {
    if rows != [] {
      UnseenSplit(rows[..|rows| - 1], seen, gid);
    }
  }

  lemma {:induction false} UnseenAll(rows: seq<TraceRow>)
    ensures Unseen(rows, {}) == rows
  {
    if rows != [] {
      UnseenAll(rows[..|rows| - 1]);
    }
  }

  lemma {:induction false} MembersConcat(a: seq<TraceRow>, b: seq<TraceRow>, gid: string)
    ensures Members(a + b, gid) == Members(a, gid) + Members(b, gid)
  {
    if b == [] {
      assert a + b == a;
    } else {
      assert (a + b)[..|a + b| - 1] == a + b[..|b| - 1];
      MembersConcat(a, b[..|b| - 1], gid);
    }
  }

  ghost predicate IsSeen(rows: seq<TraceRow>, n: nat, seen: set<string>)
    requires n <= |rows|
  {
    forall g :: g in seen <==> Members(rows[..n], g) != []
  }

  lemma SeenNext(rows: seq<TraceRow>, n: nat, seen: set<string>)
    requires n < |rows| && IsSeen(rows, n, seen)
    ensures IsSeen(rows, n + 1, if Gid(rows[n]).Some? then seen + {Gid(rows[n]).value} else seen)
  {
    assert rows[..n + 1][..n] == rows[..n];
  }

  /** A row that opens its group takes all members along. */
  lemma OpensGroup(rows: seq<TraceRow>, n: nat, seen: set<string>, gid: string, rest: seq<TraceRow>,
                   expanded: set<string>)
    requires n < |rows| && IsSeen(rows, n, seen) && Gid(rows[n]) == Some(gid) && gid !in seen && rest == rows[n + 1..]
    ensures multiset(Unseen(rows[n..], seen)) ==
            multiset(Rows(Piece(rows, n, expanded))) + multiset(Unseen(rest, seen + {gid}))
  {
    NoneBefore(rows, n, gid);
    UnseenHere(rows[n..], rows[n], rest, seen + {gid}, gid);
    UnseenSplit(rows[n..], seen, gid);
    RowsOfBlock(gid, Members(rows, gid), expanded);
  }

  lemma NoneBefore(rows: seq<TraceRow>, n: nat, gid: string)
    requires n <= |rows| && Members(rows[..n], gid) == []
    ensures Members(rows, gid) == Members(rows[n..], gid)
  {
    assert rows[..n] + rows[n..] == rows;
    MembersConcat(rows[..n], rows[n..], gid);
  }

  lemma UnseenHere(all: seq<TraceRow>, row: TraceRow, rest: seq<TraceRow>, seen: set<string>, gid: string)
    requires all == [row] + rest && Gid(row) == Some(gid) && gid in seen
    ensures Unseen(all, seen) == Unseen(rest, seen)
  {
    UnseenCons(row, rest, seen);
  }

  lemma PassesBy(rows: seq<TraceRow>, n: nat, seen: set<string>, rest: seq<TraceRow>, expanded: set<string>)
    requires n < |rows| && IsSeen(rows, n, seen) && rest == rows[n + 1..]
    requires Gid(rows[n]).Some? ==> Gid(rows[n]).value in seen
    ensures multiset(Unseen(rows[n..], seen)) == multiset(Rows(Piece(rows, n, expanded))) + multiset(Unseen(rest, seen))
  {
    assert rows[n..] == [rows[n]] + rest;
    UnseenCons(rows[n], rest, seen);
    if Gid(rows[n]).None? {
      assert Rows([Plain(rows[n])]) == [rows[n]] + [];
    }
  }

  lemma StepPermutes(rows: seq<TraceRow>, n: nat, seen: set<string>, seen': set<string>, expanded: set<string>)
    requires n < |rows| && IsSeen(rows, n, seen)
    requires seen' == if Gid(rows[n]).Some? then seen + {Gid(rows[n]).value} else seen
    ensures multiset(Unseen(rows[n..], seen)) ==
            multiset(Rows(Piece(rows, n, expanded))) + multiset(Unseen(rows[n + 1..], seen'))
  {
    if Gid(rows[n]).Some? && Gid(rows[n]).value !in seen {
      OpensGroup(rows, n, seen, Gid(rows[n]).value, rows[n + 1..], expanded);
    } else {
      assert seen' == seen;
      PassesBy(rows, n, seen, rows[n + 1..], expanded);
    }
  }

  lemma FoldedNext(rows: seq<TraceRow>, n: nat, expanded: set<string>)
    requires 0 < n <= |rows|
    ensures Rows(Folded(rows, n, expanded)) == Rows(Folded(rows, n - 1, expanded)) + Rows(Piece(rows, n - 1, expanded))
  {
    RowsConcat(Folded(rows, n - 1, expanded), Piece(rows, n - 1, expanded));
  }

  lemma Regroup(done: seq<TraceRow>, piece: seq<TraceRow>, left: multiset<TraceRow>, before: multiset<TraceRow>,
                all: multiset<TraceRow>)
    requires multiset(done) + before == all && before == multiset(piece) + left
    ensures multiset(done + piece) + left == all
  {
  }

  /** One more row folded. */
  lemma PrefixNext(rows: seq<TraceRow>, n: nat, expanded: set<string>, seen: set<string>) returns (seen': set<string>)
    requires n < |rows| && IsSeen(rows, n, seen)
    requires multiset(Rows(Folded(rows, n, expanded))) + multiset(Unseen(rows[n..], seen)) == multiset(rows)
    ensures IsSeen(rows, n + 1, seen')
    ensures multiset(Rows(Folded(rows, n + 1, expanded))) + multiset(Unseen(rows[n + 1..], seen')) == multiset(rows)
  {
    var done, piece := Rows(Folded(rows, n, expanded)), Rows(Piece(rows, n, expanded));
    seen' := if Gid(rows[n]).Some? then seen + {Gid(rows[n]).value} else seen;
    SeenNext(rows, n, seen);
    StepPermutes(rows, n, seen, seen', expanded);
    FoldedNext(rows, n + 1, expanded);
    Regroup(done, piece, multiset(Unseen(rows[n + 1..], seen')), multiset(Unseen(rows[n..], seen)), multiset(rows));
  }

  lemma {:induction false} PrefixPermutes(rows: seq<TraceRow>, n: nat, expanded: set<string>)
    returns (seen: set<string>)
    requires n <= |rows|
    ensures IsSeen(rows, n, seen)
    ensures multiset(Rows(Folded(rows, n, expanded))) + multiset(Unseen(rows[n..], seen)) == multiset(rows)
  {
    if n == 0 {
      seen := {};
      UnseenAll(rows);
      assert rows[0..] == rows;
    } else {
      var before := PrefixPermutes(rows, n - 1, expanded);
      seen := PrefixNext(rows, n - 1, expanded, before);
    }
  }

  /** Every visible row appears exactly once, as a row or as a member of one group. */
  lemma FoldPermutes(rows: seq<TraceRow>, expanded: set<string>)
    ensures multiset(Rows(Folded(rows, |rows|, expanded))) == multiset(rows)
  {
    var seen := PrefixPermutes(rows, |rows|, expanded);
    assert rows[|rows|..] == [];
  }

  // ---------- where a group stands ----------

  /** What may be folded, and under which label: leaves inside the run's window that are no envelopes. */
  lemma FoldsIff(row: TraceRow, shown: string)
    requires row.event.Some?
    requires var kind, capability := row.event.value.kind, row.event.value.capability;
             shown == if kind == "model_call" then "generation"
                      else if kind == "tool_call" && capability.Some? then capability.value
                      else kind
    ensures Gid(row) ==
            if row.children == [] && !row.outsideWindow && shown != "" && row.event.value.kind != "run_started"
               && row.event.value.kind != "run_completed" && row.event.value.kind != "manifest"
            then Some((if row.parentId.Some? then row.parentId.value else "root") + "|" + shown) else None
  {
  }

  /** The first of its group, or a row that is not folded. */
  predicate IsFirst(rows: seq<TraceRow>, i: nat)
    requires i < |rows|
  {
    Gid(rows[i]).None? || forall j :: 0 <= j < i ==> Gid(rows[j]) != Gid(rows[i])
  }

  lemma {:induction false} NoMembersIff(rows: seq<TraceRow>, gid: string)
    ensures Members(rows, gid) == [] <==> forall j :: 0 <= j < |rows| ==> Gid(rows[j]) != Some(gid)
  {
    if rows != [] {
      var before := rows[..|rows| - 1];
      NoMembersIff(before, gid);
      assert forall j :: 0 <= j < |before| ==> before[j] == rows[j];
    }
  }

  lemma {:induction false} FirstMember(rows: seq<TraceRow>, i: nat, gid: string)
    requires i < |rows| && Gid(rows[i]) == Some(gid) && IsFirst(rows, i)
    ensures Members(rows, gid) != [] && Members(rows, gid)[0] == rows[i]
  {
    var before := rows[..|rows| - 1];
    if i < |rows| - 1 {
      FirstMember(before, i, gid);
    } else {
      NoMembersIff(before, gid);
    }
  }

  lemma FirstIff(rows: seq<TraceRow>, i: nat)
    requires i < |rows| && Gid(rows[i]).Some?
    ensures IsFirst(rows, i) <==> Members(rows[..i], Gid(rows[i]).value) == []
  {
    NoMembersIff(rows[..i], Gid(rows[i]).value);
    assert forall j :: 0 <= j < i ==> rows[..i][j] == rows[j];
  }

  lemma NextPiece(rows: seq<TraceRow>, n: nat, expanded: set<string>, done: seq<Item>, piece: seq<Item>)
    requires n < |rows| && done == Folded(rows, n, expanded) && piece == Piece(rows, n, expanded)
    ensures Folded(rows, n + 1, expanded) == done + piece
  {
  }

  /** What is folded so far stays as it is. */
  lemma {:induction false} FoldedGrows(rows: seq<TraceRow>, i: nat, n: nat, expanded: set<string>)
    requires i <= n <= |rows|
    ensures Folded(rows, i, expanded) <= Folded(rows, n, expanded)
  {
    if i < n {
      FoldedGrows(rows, i, n - 1, expanded);
      NextPiece(rows, n - 1, expanded, Folded(rows, n - 1, expanded), Piece(rows, n - 1, expanded));
    }
  }

  function AsMembers(members: seq<TraceRow>): seq<Item> {
    seq(|members|, i requires 0 <= i < |members| => Member(members[i]))
  }

  /** Row by row the folded list only grows at its end, and what it has stays. A row that is not the first of its
      group adds nothing; any other adds itself, if it is alone, or one group row for all of its group, followed by
      the members when the group is open. */
  lemma GroupStands(rows: seq<TraceRow>, i: nat, expanded: set<string>)
    requires i < |rows|
    ensures Folded(rows, i + 1, expanded) <= Folded(rows, |rows|, expanded)
    ensures var before, next := Folded(rows, i, expanded), Folded(rows, i + 1, expanded);
            if Gid(rows[i]).None? then next == before + [Plain(rows[i])]
            else if !IsFirst(rows, i) then next == before
            else
              var gid := Gid(rows[i]).value;
              var members := Members(rows, gid);
              && members != [] && members[0] == rows[i]
              && if |members| == 1 then next == before + [Plain(rows[i])]
                 else if "grp:" + gid in expanded then next == before + ([Group(gid, members)] + AsMembers(members))
                 else next == before + [Group(gid, members)]
  {
    NextPiece(rows, i, expanded, Folded(rows, i, expanded), Piece(rows, i, expanded));
    FoldedGrows(rows, i + 1, |rows|, expanded);
    if Gid(rows[i]).Some? {
      FirstIff(rows, i);
      if IsFirst(rows, i) {
        FirstMember(rows, i, Gid(rows[i]).value);
        BlockIs(Gid(rows[i]).value, Members(rows, Gid(rows[i]).value), expanded);
      }
    }
  }

  lemma BlockIs(gid: string, members: seq<TraceRow>, expanded: set<string>)
    requires members != []
    ensures Block(gid, members, expanded) ==
            if |members| == 1 then [Plain(members[0])]
            else if "grp:" + gid in expanded then [Group(gid, members)] + AsMembers(members)
            else [Group(gid, members)]
  {
  }

  /** A group holds exactly the rows with its id. */
  lemma {:induction false} MembersHave(rows: seq<TraceRow>, gid: string)
    ensures forall row :: row in Members(rows, gid) <==> row in rows && Gid(row) == Some(gid)
  {
    if rows != [] {
      MembersHave(rows[..|rows| - 1], gid);
      assert rows == rows[..|rows| - 1] + [rows[|rows| - 1]];
    }
  }
}
