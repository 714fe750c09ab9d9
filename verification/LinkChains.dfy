/** Following archive links before any of them exists on disk: resolution is lexical. */
module LinkChains {
  import opened Wrappers
  import opened ArchiveNames
  import opened Walks

  datatype Link = Link(target: string, hard: bool)

  /** Lexical resolution of an absolute component sequence: ".." removes what stands before it. */
  function Resolve(parts: Path): (r: Path)
    ensures forall k :: 0 <= k < |r| ==> r[k] != ".." && r[k] in parts
  {
    if parts == [] then []
    else
      var before := Resolve(parts[..|parts| - 1]);
      var last := parts[|parts| - 1];
      if last != ".." then before + [last]
      else if before == [] then []
      else before[..|before| - 1]
  }

  /** base / target: an absolute target replaces the base. */
  function JoinTarget(base: Path, target: string): Path {
    if target != "" && target[0] == '/' then Parts(target) else base + Parts(target)
  }

  function ParentOf(p: Path): Path {
    if p == [] then [] else p[..|p| - 1]
  }

  /** str() of a path relative to the stage; the stage itself is ".". */
  function Relative(stage: Path, p: Path): string
    requires stage <= p
  {
    if |p| == |stage| then "." else Join(p[|stage|..])
  }

  /** Where one link leads: another relative name, or nowhere when the target leaves the stage. */
  function OneHop(stage: Path, name: string, link: Link): Option<string> {
    var base := if link.hard then stage else stage + ParentOf(Parts(name));
    var next := Resolve(JoinTarget(base, link.target));
    if stage <= next then Some(Relative(stage, next)) else None
  }

  /** One move of the walk over link names. */
  function Follow(stage: Path, links: map<string, Link>, name: string): Move<string> {
    if name !in links then Stop
    else
      match OneHop(stage, name, links[name])
      case None => Lost
      case Some(next) => Next(next)
  }

  function Walker(stage: Path, links: map<string, Link>): string -> Move<string> {
    name => Follow(stage, links, name)
  }

  ghost predicate IsStage(stage: Path) {
    IsPath(stage) && forall k :: 0 <= k < |stage| ==> stage[k] != ".."
  }

  /** Names the walk may stand on: canonical or the stage, without "..". */
  ghost predicate IsInner(name: string) {
    (name == "." || IsCanonical(name)) && forall k :: 0 <= k < |Parts(name)| ==> Parts(name)[k] != ".."
  }

  /** What the bounded walk must answer. */
  ghost predicate ChainAnswer(step: string -> Move<string>, stage: Path, name: string, maxDepth: nat,
                              r: Outcome<Path>) {
    && (r.Accepted? <==> exists k: nat, last :: k <= maxDepth && EndsAt(step, name, k, last))
    && (forall k: nat, last :: k <= maxDepth && EndsAt(step, name, k, last) ==>
        r == Accepted(Resolve(stage + Parts(last))))
    && (r == Rejected(LinkEscapes) <==> exists k: nat :: k <= maxDepth && LostAt(step, name, k))
    && (r == Rejected(LinkCycle) <==> exists k: nat :: k <= maxDepth && RevisitsAt(step, name, k))
    && (r.Rejected? ==> r.reason in {LinkEscapes, LinkCycle, LinkTooDeep})
  }

  /** After i moves the walk stands at `current`, and `seen` is the set of places it has left. */
  ghost predicate Walked(step: string -> Move<string>, name: string, i: nat, current: string, seen: set<string>) {
    && At(step, name, i) == Some(current)
    && (forall j: nat :: j < i ==> At(step, name, j).Some? && step(At(step, name, j).value).Next?)
    && (forall s :: s in seen <==> IsSeen(step, name, i, s))
    && (forall k: nat :: k < i ==> !RevisitsAt(step, name, k))
  }

  /** The walk has been at s in one of its first i moves. */
  ghost predicate IsSeen(step: string -> Move<string>, name: string, i: nat, s: string) {
    exists j: nat :: j < i && At(step, name, j) == Some(s)
  }

  lemma SeenNext(step: string -> Move<string>, name: string, i: nat, s: string)
    ensures IsSeen(step, name, i + 1, s) <==> IsSeen(step, name, i, s) || At(step, name, i) == Some(s)
  {
  }

  lemma WalkOn(step: string -> Move<string>, name: string, i: nat, current: string, seen: set<string>)
    requires Walked(step, name, i, current, seen) && current !in seen && step(current).Next?
    ensures Walked(step, name, i + 1, step(current).to, seen + {current})
  {
    forall s ensures s in seen + {current} <==> IsSeen(step, name, i + 1, s) {
      SeenNext(step, name, i, s);
    }
    NoRevisitOn(step, name, i, current, seen);
  }

  lemma NoRevisitOn(step: string -> Move<string>, name: string, i: nat, current: string, seen: set<string>)
    requires Walked(step, name, i, current, seen) && current !in seen
    ensures forall k: nat :: k < i + 1 ==> !RevisitsAt(step, name, k)
  {
    if RevisitsAt(step, name, i) {
      assert IsSeen(step, name, i, current);
    }
  }

  /** The walk with its depth bound, as it runs. */
  method FollowChain(step: string -> Move<string>, stage: Path, name: string, maxDepth: nat) returns (r: Outcome<Path>)
    ensures ChainAnswer(step, stage, name, maxDepth, r)
  {
    var seen: set<string> := {};
    var current := name;
    for i := 0 to maxDepth + 1
      invariant Walked(step, name, i, current, seen)
    {
      var move := step(current);
      if move.Stop? {
        AnswerEnd(step, stage, name, maxDepth, i, current);
        return Accepted(Resolve(stage + Parts(current)));
      }
      if current in seen {
        assert RevisitsAt(step, name, i);
        AnswerCycle(step, stage, name, maxDepth, i);
        return Rejected(LinkCycle);
      }
      if move.Lost? {
        AnswerLost(step, stage, name, maxDepth, i);
        return Rejected(LinkEscapes);
      }
      WalkOn(step, name, i, current, seen);
      seen := seen + {current};
      current := move.to;
    }
    AnswerDeep(step, stage, name, maxDepth, current, seen);
    return Rejected(LinkTooDeep);
  }

  method ResolveLinkChain(stage: Path, links: map<string, Link>, name: string, maxDepth: nat)
    returns (r: Outcome<Path>)
    ensures ChainAnswer(Walker(stage, links), stage, name, maxDepth, r)
  {
    r := FollowChain(Walker(stage, links), stage, name, maxDepth);
  }

  lemma AnswerDeep(step: string -> Move<string>, stage: Path, name: string, maxDepth: nat, current: string,
                   seen: set<string>)
    requires Walked(step, name, maxDepth + 1, current, seen)
    ensures ChainAnswer(step, stage, name, maxDepth, Rejected(LinkTooDeep))
  {
    forall k: nat, last ensures !(k <= maxDepth && EndsAt(step, name, k, last)) {
    }
    forall k: nat ensures !(k <= maxDepth && LostAt(step, name, k)) {
    }
  }

  lemma AnswerEnd(step: string -> Move<string>, stage: Path, name: string, maxDepth: nat, i: nat, last: string)
    requires i <= maxDepth && EndsAt(step, name, i, last)
    ensures ChainAnswer(step, stage, name, maxDepth, Accepted(Resolve(stage + Parts(last))))
  {
    forall k: nat, other | EndsAt(step, name, k, other) ensures other == last {
      HaltsOnce(step, name, i, k);
    }
    forall k: nat ensures !LostAt(step, name, k) && !RevisitsAt(step, name, k) {
      if LostAt(step, name, k) { HaltsOnce(step, name, i, k); }
      if RevisitsAt(step, name, k) { CycleNeverHalts(step, name, k, i); }
    }
  }

  lemma AnswerCycle(step: string -> Move<string>, stage: Path, name: string, maxDepth: nat, i: nat)
    requires i <= maxDepth && RevisitsAt(step, name, i)
    ensures ChainAnswer(step, stage, name, maxDepth, Rejected(LinkCycle))
  {
    forall k: nat ensures !LostAt(step, name, k) {
      CycleNeverHalts(step, name, i, k);
    }
    forall k: nat, last ensures !EndsAt(step, name, k, last) {
      CycleNeverHalts(step, name, i, k);
    }
  }

  lemma AnswerLost(step: string -> Move<string>, stage: Path, name: string, maxDepth: nat, i: nat)
    requires i <= maxDepth && LostAt(step, name, i)
    ensures ChainAnswer(step, stage, name, maxDepth, Rejected(LinkEscapes))
  {
    forall k: nat ensures !RevisitsAt(step, name, k) {
      if RevisitsAt(step, name, k) { CycleNeverHalts(step, name, k, i); }
    }
    forall k: nat, last ensures !EndsAt(step, name, k, last) {
      if EndsAt(step, name, k, last) { HaltsOnce(step, name, i, k); }
    }
  }

  /** A chain that comes back to a name is rejected under every depth bound. */
  lemma CyclesAreRejected(step: string -> Move<string>, stage: Path, name: string, maxDepth: nat, r: Outcome<Path>,
                          k: nat)
    requires ChainAnswer(step, stage, name, maxDepth, r) && RevisitsAt(step, name, k)
    ensures r.Rejected?
  {
    forall m: nat, last ensures !EndsAt(step, name, m, last) {
      CycleNeverHalts(step, name, k, m);
    }
  }

  // ---------- inside the stage ----------

  lemma {:induction false} ResolveClean(p: Path)
    requires forall k :: 0 <= k < |p| ==> p[k] != ".."
    ensures Resolve(p) == p
  {
    if p != [] { ResolveClean(p[..|p| - 1]); }
  }

  lemma PartsOfRelative(stage: Path, p: Path)
    requires stage <= p && IsPath(p)
    ensures Parts(Relative(stage, p)) == p[|stage|..]
  {
    if |p| == |stage| {
      SplitPlain(".");
      assert Keep(["."]) == Keep(["."][1..]);
    } else {
      PartsOfJoin(p[|stage|..]);
    }
  }

  lemma HopIsInner(stage: Path, name: string, link: Link)
    requires IsStage(stage) && OneHop(stage, name, link).Some?
    ensures IsInner(OneHop(stage, name, link).value)
  {
    var base := if link.hard then stage else stage + ParentOf(Parts(name));
    var joined := JoinTarget(base, link.target);
    PartsArePath(name);
    PartsArePath(link.target);
    var next := Resolve(joined);
    assert IsPath(next) by {
      forall k | 0 <= k < |next| ensures IsComponent(next[k]) && '/' !in next[k] {
        assert next[k] in joined;
      }
    }
    PartsOfRelative(stage, next);
  }

  lemma {:induction false} WalkIsInner(stage: Path, links: map<string, Link>, name: string, k: nat)
    requires IsStage(stage) && IsInner(name)
    ensures var place := At(Walker(stage, links), name, k); place.Some? ==> IsInner(place.value)
  {
    if k > 0 {
      WalkIsInner(stage, links, name, k - 1);
      var before := At(Walker(stage, links), name, k - 1);
      if before.Some? && before.value in links && OneHop(stage, before.value, links[before.value]).Some? {
        HopIsInner(stage, before.value, links[before.value]);
      }
    }
  }

  /** Whatever the walk accepts lies inside the stage, at the place its last name spells. */
  lemma AcceptedIsInside(stage: Path, links: map<string, Link>, name: string, maxDepth: nat, r: Outcome<Path>)
    requires IsStage(stage) && IsInner(name)
    requires ChainAnswer(Walker(stage, links), stage, name, maxDepth, r) && r.Accepted?
    ensures stage <= r.value
  {
    var step := Walker(stage, links);
    var k: nat, last :| k <= maxDepth && EndsAt(step, name, k, last);
    WalkIsInner(stage, links, name, k);
    ResolveClean(stage + Parts(last));
  }

  // ---------- where a link leads ----------

  function Ups(k: nat): Path {
    seq(k, _ => "..")
  }

  ghost predicate IsPlainPath(p: Path) {
    forall k :: 0 <= k < |p| ==> p[k] != ".."
  }

  lemma {:induction false} ResolveUps(base: Path, k: nat)
    requires IsPlainPath(base)
    ensures Resolve(base + Ups(k)) == if k <= |base| then base[..|base| - k] else []
  {
    if k == 0 {
      assert base + Ups(0) == base;
      ResolveClean(base);
    } else {
      ResolveUps(base, k - 1);
      assert (base + Ups(k))[..|base| + k - 1] == base + Ups(k - 1);
    }
  }

  lemma {:induction false} ResolveTail(p: Path, t: Path)
    requires IsPlainPath(t)
    ensures Resolve(p + t) == Resolve(p) + t
  {
    if t == [] {
      assert p + t == p;
    } else {
      var n := |t| - 1;
      assert (p + t)[..|p + t| - 1] == p + t[..n];
      ResolveTail(p, t[..n]);
    }
  }

  lemma PathsJoin(a: Path, b: Path, c: Path)
    ensures a + (b + c) == a + b + c
  {
  }

  lemma UpsTail(base: Path, k: nat, t: Path)
    requires IsPlainPath(base) && IsPlainPath(t)
    ensures Resolve(base + (Ups(k) + t)) == (if k <= |base| then base[..|base| - k] else []) + t
  {
    PathsJoin(base, Ups(k), t);
    ResolveTail(base + Ups(k), t);
    ResolveUps(base, k);
  }

  /** The name of a place below the stage; the stage itself is ".". */
  function Spelled(p: Path): string {
    if p == [] then "." else Join(p)
  }

  /** A symbolic link goes from the directory it stands in, a hard link from the root of the archive. */
  function StartOf(name: string, hard: bool): Path {
    if hard || Parts(name) == [] then [] else Parts(name)[..|Parts(name)| - 1]
  }

  /** It goes k levels up, then along t. */
  ghost predicate IsRelative(link: Link, k: nat, t: Path) {
    (link.target == "" || link.target[0] != '/') && Parts(link.target) == Ups(k) + t && IsPlainPath(t)
  }

  lemma HopResolves(stage: Path, name: string, link: Link, k: nat, t: Path, base: Path, next: Path)
    requires IsStage(stage) && IsPlainPath(Parts(name)) && IsRelative(link, k, t)
    requires base == stage + StartOf(name, link.hard)
    requires next == (if k <= |base| then base[..|base| - k] else []) + t
    ensures OneHop(stage, name, link) == if stage <= next then Some(Spelled(next[|stage|..])) else None
  {
    UpsTail(base, k, t);
    assert stage + [] == stage;
    assert base == if link.hard then stage else stage + ParentOf(Parts(name));
    assert Resolve(JoinTarget(base, link.target)) == next;
  }

  /** Within the archive that is where it leads. */
  lemma HopStaysInside(stage: Path, name: string, link: Link, k: nat, t: Path)
    requires IsStage(stage) && IsPlainPath(Parts(name)) && IsRelative(link, k, t) && k <= |StartOf(name, link.hard)|
    ensures var dir := StartOf(name, link.hard); OneHop(stage, name, link) == Some(Spelled(dir[..|dir| - k] + t))
  {
    var dir := StartOf(name, link.hard);
    var base, inner := stage + dir, dir[..|dir| - k] + t;
    assert base[..|base| - k] + t == stage + inner;
    HopResolves(stage, name, link, k, t, base, stage + inner);
    assert (stage + inner)[|stage|..] == inner;
  }

  /** Climbing out of the archive leads nowhere, unless t happens to come back in. */
  lemma HopClimbsOut(stage: Path, name: string, link: Link, k: nat, t: Path, out: nat)
    requires IsStage(stage) && IsPlainPath(Parts(name)) && IsRelative(link, k, t)
    requires out > 0 && k == |StartOf(name, link.hard)| + out
    ensures var next := (if out <= |stage| then stage[..|stage| - out] else []) + t;
            OneHop(stage, name, link) == if stage <= next then Some(Spelled(next[|stage|..])) else None
  {
    var base := stage + StartOf(name, link.hard);
    if out <= |stage| { assert base[..|base| - k] == stage[..|stage| - out]; }
    HopResolves(stage, name, link, k, t, base, (if out <= |stage| then stage[..|stage| - out] else []) + t);
  }

  /** An absolute target counts from the file system's root. */
  lemma AbsoluteHop(stage: Path, name: string, link: Link)
    requires link.target != "" && link.target[0] == '/' && IsPlainPath(Parts(link.target))
    ensures var p := Parts(link.target);
            OneHop(stage, name, link) == if stage <= p then Some(Spelled(p[|stage|..])) else None
  {
    ResolveClean(Parts(link.target));
  }
}
