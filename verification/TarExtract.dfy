/** Two-phase extraction of a tar archive: every header and every link is checked before the first write. */
module TarExtract {
  import opened Wrappers
  import opened ArchiveNames
  import opened FileTree
  import opened Walks
  import opened LinkChains

  datatype Kind = RegularFile | Directory | SymLink | HardLink | Special | Unknown

  /** A member as the archive stores it; reading it yields exactly `content`. */
  datatype Member = Member(rawName: string, kind: Kind, content: Bytes, linkTarget: string)

  datatype Limits = Limits(maxMembers: nat, maxMemberBytes: nat, maxTotalBytes: nat, maxLinkDepth: nat)

  datatype Named = Named(name: string, content: Bytes)

  /** What the header scan has gathered. */
  datatype Scan = Scan(
    members: nat,
    folded: set<string>,
    files: seq<Named>,
    links: map<string, Link>,
    dirs: seq<string>,
    total: nat)

  const NOTHING: Scan := Scan(0, {}, [], map[], [], 0)

  function ScanOne(host: Host, limits: Limits, st: Scan, m: Member): Outcome<Scan> {
    if st.members + 1 > limits.maxMembers then Rejected(TooManyMembers)
    else
      match ValidateName(host, m.rawName, st.folded)
      case Rejected(reason) => Rejected(reason)
      case Accepted(name) =>
        var st := st.(members := st.members + 1, folded := st.folded + {host.casefold(name)});
        match m.kind
        case Special => Rejected(SpecialMember)
        case SymLink => Accepted(st.(links := st.links[name := Link(m.linkTarget, false)]))
        case HardLink => Accepted(st.(links := st.links[name := Link(m.linkTarget, true)]))
        case Directory => Accepted(st.(dirs := st.dirs + [name]))
        case Unknown => Rejected(UnsupportedMember)
        case RegularFile =>
          if |m.content| > limits.maxMemberBytes then Rejected(MemberTooBig)
          else if st.total + |m.content| > limits.maxTotalBytes then Rejected(ArchiveTooBig)
          else Accepted(st.(total := st.total + |m.content|, files := st.files + [Named(name, m.content)]))
  }

  function ScanAll(host: Host, limits: Limits, ms: seq<Member>): Outcome<Scan> {
    if ms == [] then Accepted(NOTHING)
    else
      match ScanAll(host, limits, ms[..|ms| - 1])
      case Rejected(reason) => Rejected(reason)
      case Accepted(st) => ScanOne(host, limits, st, ms[|ms| - 1])
  }

  // ---------- what an accepted scan knows ----------

  function NameOf(m: Member): string {
    Normalized(m.rawName)
  }

  function FilesOf(ms: seq<Member>): seq<Named> {
    if ms == [] then []
    else
      var m := ms[|ms| - 1];
      FilesOf(ms[..|ms| - 1]) + (if m.kind == RegularFile then [Named(NameOf(m), m.content)] else [])
  }

  function DirsOf(ms: seq<Member>): seq<string> {
    if ms == [] then []
    else
      var m := ms[|ms| - 1];
      DirsOf(ms[..|ms| - 1]) + (if m.kind == Directory then [NameOf(m)] else [])
  }

  function LinksOf(ms: seq<Member>): map<string, Link> {
    if ms == [] then map[]
    else
      var m := ms[|ms| - 1];
      var before := LinksOf(ms[..|ms| - 1]);
      if m.kind == SymLink || m.kind == HardLink then before[NameOf(m) := Link(m.linkTarget, m.kind == HardLink)]
      else before
  }

  ghost function FoldedOf(host: Host, ms: seq<Member>): set<string> {
    set k | 0 <= k < |ms| :: host.casefold(NameOf(ms[k]))
  }

  ghost predicate IsSafeName(host: Host, name: string) {
    IsCanonical(name) && forall k :: 0 <= k < |Parts(name)| ==> IsSafeComponent(host, Parts(name)[k])
  }

  /** Names are canonical and safe, and no two are equal under case folding. */
  ghost predicate NamesSound(host: Host, ms: seq<Member>) {
    && (forall k :: 0 <= k < |ms| ==> IsSafeName(host, NameOf(ms[k])))
    && (forall j, k :: 0 <= j < k < |ms| ==> host.casefold(NameOf(ms[j])) != host.casefold(NameOf(ms[k])))
  }

  /** What one accepted member adds. */
  lemma ScanOneAdds(host: Host, limits: Limits, st: Scan, m: Member)
    requires ScanOne(host, limits, st, m).Accepted?
    ensures IsSafeName(host, NameOf(m)) && host.casefold(NameOf(m)) !in st.folded
    ensures m.kind != Special && m.kind != Unknown
    ensures var st' := ScanOne(host, limits, st, m).value;
            && st'.members == st.members + 1 <= limits.maxMembers
            && st'.folded == st.folded + {host.casefold(NameOf(m))}
            && st'.files == st.files + (if m.kind == RegularFile then [Named(NameOf(m), m.content)] else [])
            && st'.dirs == st.dirs + (if m.kind == Directory then [NameOf(m)] else [])
            && st'.links == (if m.kind == SymLink || m.kind == HardLink
                             then st.links[NameOf(m) := Link(m.linkTarget, m.kind == HardLink)] else st.links)
            && st'.total == st.total + (if m.kind == RegularFile then |m.content| else 0)
            && (m.kind == RegularFile ==> |m.content| <= limits.maxMemberBytes && st'.total <= limits.maxTotalBytes)
  {
    AcceptedNameIsSafe(host, m.rawName, st.folded);
  }

  lemma NamesSoundSnoc(host: Host, ms: seq<Member>, m: Member)
    requires NamesSound(host, ms) && IsSafeName(host, NameOf(m)) && host.casefold(NameOf(m)) !in FoldedOf(host, ms)
    ensures NamesSound(host, ms + [m]) && FoldedOf(host, ms + [m]) == FoldedOf(host, ms) + {host.casefold(NameOf(m))}
  {
    var all := ms + [m];
    forall j, k | 0 <= j < k < |all| ensures host.casefold(NameOf(all[j])) != host.casefold(NameOf(all[k])) {
      if k == |ms| { assert host.casefold(NameOf(ms[j])) in FoldedOf(host, ms); }
    }
    forall f | f in FoldedOf(host, ms) ensures f in FoldedOf(host, all) {
      var k :| 0 <= k < |ms| && f == host.casefold(NameOf(ms[k]));
      assert all[k] == ms[k];
    }
    assert all[|ms|] == m;
  }

  function TotalOf(ms: seq<Member>): nat {
    if ms == [] then 0
    else TotalOf(ms[..|ms| - 1]) + (if ms[|ms| - 1].kind == RegularFile then |ms[|ms| - 1].content| else 0)
  }

  /** The scan sorts the members by kind, loses none, and keeps to its limits. */
  lemma {:induction false} ScanIsSound(host: Host, limits: Limits, ms: seq<Member>)
    requires ScanAll(host, limits, ms).Accepted?
    ensures NamesSound(host, ms)
    ensures ScanAll(host, limits, ms).value ==
            Scan(|ms|, FoldedOf(host, ms), FilesOf(ms), LinksOf(ms), DirsOf(ms), TotalOf(ms))
    ensures ms != [] ==> |ms| <= limits.maxMembers
    ensures TotalOf(ms) > 0 ==> TotalOf(ms) <= limits.maxTotalBytes
    ensures forall f :: f in FilesOf(ms) ==> |f.content| <= limits.maxMemberBytes
  {
    if ms != [] {
      var init, m := ms[..|ms| - 1], ms[|ms| - 1];
      assert ms == init + [m];
      ScanIsSound(host, limits, init);
      ScanOneAdds(host, limits, ScanAll(host, limits, init).value, m);
      NamesSoundSnoc(host, init, m);
    }
  }

  // ---------- which archives are accepted ----------

  predicate IsExtractable(kind: Kind) {
    match kind
    case RegularFile => true
    case Directory => true
    case SymLink => true
    case HardLink => true
    case Special => false
    case Unknown => false
  }

  ghost predicate MemberOk(host: Host, limits: Limits, m: Member) {
    && IsUsable(host, m.rawName) && IsExtractable(m.kind)
    && (m.kind == RegularFile ==> |m.content| <= limits.maxMemberBytes)
  }

  /** The archive as a whole: few enough members, each in order, no two names alike, and not too big. */
  ghost predicate IsAdmissible(host: Host, limits: Limits, ms: seq<Member>) {
    && |ms| <= limits.maxMembers && TotalOf(ms) <= limits.maxTotalBytes
    && MembersOk(host, limits, ms) && NamesDiffer(host, ms)
  }

  /** No two names are alike. */
  ghost predicate NamesDiffer(host: Host, ms: seq<Member>) {
    forall j, k :: 0 <= j < k < |ms| ==> host.casefold(NameOf(ms[j])) != host.casefold(NameOf(ms[k]))
  }

  lemma DifferNext(host: Host, ms: seq<Member>, m: Member)
    ensures NamesDiffer(host, ms + [m]) <==>
            NamesDiffer(host, ms) && host.casefold(NameOf(m)) !in FoldedOf(host, ms)
  {
    var all := ms + [m];
    assert all[|ms|] == m && forall k :: 0 <= k < |ms| ==> all[k] == ms[k];
    if NamesDiffer(host, all) {
      forall j, k | 0 <= j < k < |ms| ensures host.casefold(NameOf(ms[j])) != host.casefold(NameOf(ms[k])) {
        assert all[j] == ms[j] && all[k] == ms[k];
      }
      forall k | 0 <= k < |ms| ensures host.casefold(NameOf(ms[k])) != host.casefold(NameOf(m)) {
        assert all[k] == ms[k];
      }
    }
    if host.casefold(NameOf(m)) !in FoldedOf(host, ms) {
      forall k | 0 <= k < |ms| ensures host.casefold(NameOf(ms[k])) != host.casefold(NameOf(m)) {
        assert host.casefold(NameOf(ms[k])) in FoldedOf(host, ms);
      }
    }
  }

  ghost predicate MembersOk(host: Host, limits: Limits, ms: seq<Member>) {
    forall k :: 0 <= k < |ms| ==> MemberOk(host, limits, ms[k])
  }

  lemma OkNext(host: Host, limits: Limits, ms: seq<Member>, m: Member)
    ensures MembersOk(host, limits, ms + [m]) <==> MembersOk(host, limits, ms) && MemberOk(host, limits, m)
  {
    var all := ms + [m];
    assert all[|ms|] == m && forall k :: 0 <= k < |ms| ==> all[k] == ms[k];
    if MembersOk(host, limits, all) {
      forall k | 0 <= k < |ms| ensures MemberOk(host, limits, ms[k]) {
        assert all[k] == ms[k];
      }
    }
  }

  lemma AdmissibleNext(host: Host, limits: Limits, ms: seq<Member>, m: Member)
    ensures IsAdmissible(host, limits, ms + [m]) <==>
            && IsAdmissible(host, limits, ms) && |ms| + 1 <= limits.maxMembers && MemberOk(host, limits, m)
            && host.casefold(NameOf(m)) !in FoldedOf(host, ms)
            && TotalOf(ms) + (if m.kind == RegularFile then |m.content| else 0) <= limits.maxTotalBytes
  {
    var all := ms + [m];
    assert all[..|all| - 1] == ms;
    DifferNext(host, ms, m);
    OkNext(host, limits, ms, m);
  }

  lemma ScanOneIff(host: Host, limits: Limits, st: Scan, m: Member)
    requires st.total <= limits.maxTotalBytes
    ensures ScanOne(host, limits, st, m).Accepted? <==>
            && st.members + 1 <= limits.maxMembers && MemberOk(host, limits, m)
            && host.casefold(NameOf(m)) !in st.folded
            && st.total + (if m.kind == RegularFile then |m.content| else 0) <= limits.maxTotalBytes
  {
    NameAcceptedIff(host, m.rawName, st.folded);
  }

  /** The scan accepts an archive exactly if it has at most the allowed number of members and bytes, every name is
      usable, no two are alike under case folding, every member is a file, a directory or a link of either kind,
      and no file is too big. */
  lemma {:induction false} ScanAcceptsIff(host: Host, limits: Limits, ms: seq<Member>)
    ensures ScanAll(host, limits, ms).Accepted? <==> IsAdmissible(host, limits, ms)
  {
    if ms != [] {
      var init, m := ms[..|ms| - 1], ms[|ms| - 1];
      assert ms == init + [m];
      ScanAcceptsIff(host, limits, init);
      AdmissibleNext(host, limits, init, m);
      if ScanAll(host, limits, init).Accepted? {
        ScanIsSound(host, limits, init);
        ScanOneIff(host, limits, ScanAll(host, limits, init).value, m);
      }
    }
  }

  // ---------- the plan ----------

  ghost predicate ChainOk(stage: Path, links: map<string, Link>, name: string, maxDepth: nat) {
    exists k: nat, last :: k <= maxDepth && EndsAt(Walker(stage, links), name, k, last)
  }

  ghost predicate LinksOk(stage: Path, links: map<string, Link>, maxDepth: nat) {
    forall name :: name in links ==> ChainOk(stage, links, name, maxDepth)
  }

  predicate UnderSomeLink(links: map<string, Link>, name: string) {
    exists l :: l in links && l + "/" <= name
  }

  /** Every header and link check of the archive passes. */
  ghost predicate ChecksPass(host: Host, limits: Limits, stage: Path, ms: seq<Member>) {
    && ScanAll(host, limits, ms).Accepted?
    && LinksOk(stage, LinksOf(ms), limits.maxLinkDepth)
    && (forall f :: f in FilesOf(ms) ==> !UnderSomeLink(LinksOf(ms), f.name))
    && (forall d :: d in DirsOf(ms) ==> !UnderSomeLink(LinksOf(ms), d))
  }

  function DirEntries(dirs: seq<string>): seq<Entry> {
    seq(|dirs|, k requires 0 <= k < |dirs| => DirEntry(Parts(dirs[k])))
  }

  function FileEntries(files: seq<Named>): seq<Entry> {
    seq(|files|, k requires 0 <= k < |files| => FileEntry(Parts(files[k].name), files[k].content))
  }

  /** What the archive says the stage should hold. */
  function TarEntries(ms: seq<Member>): seq<Entry> {
    DirEntries(DirsOf(ms)) + FileEntries(FilesOf(ms))
  }

  // ---------- the entries do not collide ----------

  lemma {:induction false} DirComesFrom(ms: seq<Member>, d: string) returns (k: nat)
    requires d in DirsOf(ms)
    ensures k < |ms| && ms[k].kind == Directory && NameOf(ms[k]) == d
  {
    var n := |ms| - 1;
    if ms[n].kind == Directory && NameOf(ms[n]) == d {
      k := n;
    } else {
      k := DirComesFrom(ms[..n], d);
    }
  }

  lemma {:induction false} FileComesFrom(ms: seq<Member>, f: Named) returns (k: nat)
    requires f in FilesOf(ms)
    ensures k < |ms| && ms[k].kind == RegularFile && Named(NameOf(ms[k]), ms[k].content) == f
  {
    var n := |ms| - 1;
    if ms[n].kind == RegularFile && Named(NameOf(ms[n]), ms[n].content) == f {
      k := n;
    } else {
      k := FileComesFrom(ms[..n], f);
    }
  }

  lemma NamesSoundPrefix(host: Host, ms: seq<Member>)
    requires NamesSound(host, ms) && ms != []
    ensures NamesSound(host, ms[..|ms| - 1])
  {
  }

  lemma {:induction false} DirsDistinct(host: Host, ms: seq<Member>)
    requires NamesSound(host, ms)
    ensures forall i, j :: 0 <= i < j < |DirsOf(ms)| ==> DirsOf(ms)[i] != DirsOf(ms)[j]
  {
    if ms != [] {
      var n := |ms| - 1;
      NamesSoundPrefix(host, ms);
      DirsDistinct(host, ms[..n]);
      if ms[n].kind == Directory && NameOf(ms[n]) in DirsOf(ms[..n]) {
        var k := DirComesFrom(ms[..n], NameOf(ms[n]));
      }
    }
  }

  lemma {:induction false} FilesDistinct(host: Host, ms: seq<Member>)
    requires NamesSound(host, ms)
    ensures forall i, j :: 0 <= i < j < |FilesOf(ms)| ==> FilesOf(ms)[i].name != FilesOf(ms)[j].name
  {
    if ms != [] {
      var n := |ms| - 1;
      NamesSoundPrefix(host, ms);
      FilesDistinct(host, ms[..n]);
      if ms[n].kind == RegularFile {
        forall f | f in FilesOf(ms[..n]) ensures f.name != NameOf(ms[n]) {
          var k := FileComesFrom(ms[..n], f);
        }
      }
    }
  }

  lemma DirIsNotFile(host: Host, ms: seq<Member>, d: string, f: Named)
    requires NamesSound(host, ms) && d in DirsOf(ms) && f in FilesOf(ms)
    ensures d != f.name && IsCanonical(d) && IsCanonical(f.name)
  {
    var j := DirComesFrom(ms, d);
    var k := FileComesFrom(ms, f);
    if j < k { assert host.casefold(NameOf(ms[j])) != host.casefold(NameOf(ms[k])); }
    if k < j { assert host.casefold(NameOf(ms[k])) != host.casefold(NameOf(ms[j])); }
  }

  /** The name an entry was built from. */
  function EntryName(dirs: seq<string>, files: seq<Named>, i: nat): (name: string)
    requires i < |dirs| + |files|
    ensures (DirEntries(dirs) + FileEntries(files))[i].path == Parts(name)
  {
    if i < |dirs| then dirs[i] else files[i - |dirs|].name
  }

  lemma EntriesDistinct(dirs: seq<string>, files: seq<Named>)
    requires forall d :: d in dirs ==> IsCanonical(d)
    requires forall f :: f in files ==> IsCanonical(f.name)
    requires forall i, j :: 0 <= i < j < |dirs| ==> dirs[i] != dirs[j]
    requires forall i, j :: 0 <= i < j < |files| ==> files[i].name != files[j].name
    requires forall d, f :: d in dirs && f in files ==> d != f.name
    ensures DistinctPaths(DirEntries(dirs) + FileEntries(files))
  {
    var entries := DirEntries(dirs) + FileEntries(files);
    forall i, j | 0 <= i < j < |entries| ensures entries[i].path != entries[j].path {
      var a, b := EntryName(dirs, files, i), EntryName(dirs, files, j);
      if i < |dirs| <= j { assert dirs[i] in dirs && files[j - |dirs|] in files; }
      assert IsCanonical(a) && IsCanonical(b) && a != b;
      CanonicalByPath(a, b);
    }
  }

  lemma TarPathsDistinct(host: Host, ms: seq<Member>)
    requires NamesSound(host, ms)
    ensures DistinctPaths(TarEntries(ms))
  {
    var dirs, files := DirsOf(ms), FilesOf(ms);
    DirsDistinct(host, ms);
    FilesDistinct(host, ms);
    forall d | d in dirs ensures IsCanonical(d) {
      var k := DirComesFrom(ms, d);
    }
    forall f | f in files ensures IsCanonical(f.name) {
      var k := FileComesFrom(ms, f);
    }
    forall d, f | d in dirs && f in files ensures d != f.name {
      DirIsNotFile(host, ms, d, f);
    }
    EntriesDistinct(dirs, files);
  }

  /** In an accepted archive nothing that is written lies below a link with a name. */
  lemma NothingBelowLinks(host: Host, limits: Limits, stage: Path, ms: seq<Member>, i: nat, l: string)
    requires ChecksPass(host, limits, stage, ms) && i < |TarEntries(ms)|
    requires l in LinksOf(ms) && l != ""
    ensures !IsAncestor(Parts(l), TarEntries(ms)[i].path)
  {
    ScanIsSound(host, limits, ms);
    var dirs, files := DirsOf(ms), FilesOf(ms);
    if i < |dirs| {
      var k := DirComesFrom(ms, dirs[i]);
    } else {
      var k := FileComesFrom(ms, files[i - |dirs|]);
    }
    LinkIsCanonical(host, ms, l);
    PrefixIffAncestor(l, EntryName(dirs, files, i));
  }

  /** Entry i is written strictly below the path that link l spells. */
  ghost predicate IsBelowLink(ms: seq<Member>, i: nat, l: string) {
    i < |TarEntries(ms)| && l in LinksOf(ms) && IsAncestor(Parts(l), TarEntries(ms)[i].path)
  }

  /** The one link that may lie above what is written is the stage itself: a link member named "." has the empty
      canonical name, and the prefix test compares with "/", which no name starts with. */
  lemma BelowLinksIff(host: Host, limits: Limits, stage: Path, ms: seq<Member>)
    requires ChecksPass(host, limits, stage, ms)
    ensures (exists i: nat, l :: IsBelowLink(ms, i, l)) <==>
            "" in LinksOf(ms) && exists i: nat :: i < |TarEntries(ms)| && TarEntries(ms)[i].path != []
  {
    assert Parts("") == [];
    if i: nat, l :| IsBelowLink(ms, i, l) {
      if l != "" { NothingBelowLinks(host, limits, stage, ms, i, l); }
    }
    if "" in LinksOf(ms) {
      if i: nat :| i < |TarEntries(ms)| && TarEntries(ms)[i].path != [] {
        assert IsBelowLink(ms, i, "");
      }
    }
  }

  lemma DotNames(host: Host)
    requires !host.reserved("a")
    ensures Parts(".") == [] && Parts("") == [] && Parts("a") == ["a"]
    ensures Normalized(".") == "" && Normalized("a") == "a"
    ensures FirstProblem(host, Split(".")) == None && FirstProblem(host, Split("a")) == None
  {
    SplitPlain(".");
    SplitPlain("a");
    assert Keep(["a"]) == ["a"] + Keep([]);
    assert StripEnd("a") == "a";
  }

  lemma DotSorts(ms: seq<Member>)
    requires ms == [Member(".", SymLink, [], "a"), Member("a", RegularFile, [], "")]
    requires Normalized(".") == "" && Normalized("a") == "a"
    ensures LinksOf(ms) == map["" := Link("a", false)] && FilesOf(ms) == [Named("a", [])] && DirsOf(ms) == []
    ensures TotalOf(ms) == 0
  {
    var first := [ms[0]];
    assert ms[..|ms| - 1] == first && first[..|first| - 1] == [];
    assert LinksOf(first) == map["" := Link("a", false)] && FilesOf(first) == [] && DirsOf(first) == [];
    assert TotalOf(first) == 0;
  }

  lemma DotUsable(host: Host)
    requires !host.reserved("a")
    ensures IsUsable(host, ".") && IsUsable(host, "a")
  {
    DotNames(host);
    assert IsSafeComponent(host, "a");
  }

  lemma DotMembersOk(host: Host, limits: Limits, ms: seq<Member>)
    requires ms == [Member(".", SymLink, [], "a"), Member("a", RegularFile, [], "")] && !host.reserved("a")
    requires Normalized(".") == "" && Normalized("a") == "a" && host.casefold("") != host.casefold("a")
    ensures MembersOk(host, limits, ms) && NamesDiffer(host, ms)
  {
    DotUsable(host);
    assert MemberOk(host, limits, ms[0]) && MemberOk(host, limits, ms[1]);
    assert NameOf(ms[0]) == "" && NameOf(ms[1]) == "a";
  }

  lemma DotIsAdmissible(host: Host, limits: Limits, ms: seq<Member>)
    requires ms == [Member(".", SymLink, [], "a"), Member("a", RegularFile, [], "")]
    requires limits.maxMembers >= 2 && !host.reserved("a") && host.casefold("") != host.casefold("a")
    ensures ScanAll(host, limits, ms).Accepted?
  {
    DotNames(host);
    assert TotalOf(ms) == 0 by { DotSorts(ms); }
    DotMembersOk(host, limits, ms);
    ScanAcceptsIff(host, limits, ms);
  }

  lemma DotChain(stage: Path, links: map<string, Link>)
    requires IsStage(stage) && links == map["" := Link("a", false)] && Parts("") == [] && Parts("a") == ["a"]
    ensures EndsAt(Walker(stage, links), "", 1, "a")
  {
    ResolveClean(stage + ["a"]);
    assert stage + [] == stage && stage <= stage + ["a"] && (stage + ["a"])[|stage|..] == ["a"];
    assert OneHop(stage, "", links[""]) == Some("a");
    assert At(Walker(stage, links), "", 0) == Some("");
  }

  /** An archive of a symlink called "." and a file passes every check. */
  lemma DotLinkPasses(host: Host, limits: Limits, stage: Path, ms: seq<Member>)
    requires IsStage(stage) && ms == [Member(".", SymLink, [], "a"), Member("a", RegularFile, [], "")]
    requires limits.maxMembers >= 2 && limits.maxLinkDepth >= 1
    requires !host.reserved("a") && host.casefold("") != host.casefold("a")
    ensures ChecksPass(host, limits, stage, ms) && IsBelowLink(ms, 0, "")
  {
    DotNames(host);
    DotSorts(ms);
    DotIsAdmissible(host, limits, ms);
    DotChain(stage, LinksOf(ms));
    assert TarEntries(ms) == [FileEntry(["a"], [])];
  }

  lemma {:induction false} LinkIsCanonical(host: Host, ms: seq<Member>, l: string)
    requires NamesSound(host, ms) && l in LinksOf(ms)
    ensures IsCanonical(l)
  {
    var n := |ms| - 1;
    if l in LinksOf(ms[..n]) {
      NamesSoundPrefix(host, ms);
      LinkIsCanonical(host, ms[..n], l);
    } else {
      assert l == NameOf(ms[n]);
    }
  }

  // ---------- the second pass ----------

  /** Without the duplicate check an accepted name is accepted again, under the same spelling. */
  lemma {:induction false} AcceptedAgain(host: Host, limits: Limits, ms: seq<Member>, k: nat)
    requires ScanAll(host, limits, ms).Accepted? && k < |ms|
    ensures ValidateName(host, ms[k].rawName, {}) == Accepted(NameOf(ms[k]))
  {
    var n := |ms| - 1;
    if k < n {
      AcceptedAgain(host, limits, ms[..n], k);
    }
  }

  ghost predicate IsWanted(files: seq<Named>, name: string) {
    exists f :: f in files && f.name == name
  }

  lemma {:induction false} FileIsListed(ms: seq<Member>, k: nat)
    requires k < |ms| && ms[k].kind == RegularFile
    ensures Named(NameOf(ms[k]), ms[k].content) in FilesOf(ms)
  {
    if k < |ms| - 1 {
      FileIsListed(ms[..|ms| - 1], k);
      assert ms[..|ms| - 1][k] == ms[k];
    }
  }

  lemma SameNameSameMember(host: Host, ms: seq<Member>, j: nat, k: nat, name: string)
    requires NamesSound(host, ms) && j < |ms| && k < |ms| && NameOf(ms[j]) == name == NameOf(ms[k])
    ensures j == k
  {
    assert forall i, l :: 0 <= i < l < |ms| ==> host.casefold(NameOf(ms[i])) != host.casefold(NameOf(ms[l]));
  }

  /** The second pass picks exactly the regular files, each once. */
  lemma WantedIffFile(host: Host, ms: seq<Member>, k: nat)
    requires NamesSound(host, ms) && k < |ms|
    ensures IsWanted(FilesOf(ms), NameOf(ms[k])) <==> ms[k].kind == RegularFile
  {
    if ms[k].kind == RegularFile { FileIsListed(ms, k); }
    if IsWanted(FilesOf(ms), NameOf(ms[k])) {
      var f :| f in FilesOf(ms) && f.name == NameOf(ms[k]);
      var j := FileComesFrom(ms, f);
      SameNameSameMember(host, ms, j, k, f.name);
    }
  }

  lemma {:induction false} FailureStays(fs: Tree, entries: seq<Entry>, k: nat)
    requires k <= |entries| && WriteAll(fs, entries[..k]).None?
    ensures WriteAll(fs, entries).None?
    decreases |entries|
  {
    if k < |entries| {
      assert entries[..|entries| - 1][..k] == entries[..k];
      FailureStays(fs, entries[..|entries| - 1], k);
    } else {
      assert entries[..k] == entries;
    }
  }

  lemma WriteNext(fs: Tree, entries: seq<Entry>, k: nat)
    requires k < |entries|
    ensures WriteAll(fs, entries[..k + 1]) ==
            match WriteAll(fs, entries[..k]) case None => None case Some(mid) => WriteOne(mid, entries[k])
  {
    assert entries[..k + 1][..k] == entries[..k];
  }

  lemma {:induction false} FilesUpTo(ms: seq<Member>, k: nat)
    requires k < |ms|
    ensures FilesOf(ms[..k + 1]) ==
            FilesOf(ms[..k]) + (if ms[k].kind == RegularFile then [Named(NameOf(ms[k]), ms[k].content)] else [])
  {
    assert ms[..k + 1][..k] == ms[..k];
  }

  lemma {:induction false} FilesGrow(ms: seq<Member>, k: nat)
    requires k <= |ms|
    ensures FilesOf(ms[..k]) <= FilesOf(ms)
    decreases |ms| - k
  {
    if k < |ms| {
      FilesUpTo(ms, k);
      FilesGrow(ms, k + 1);
    } else {
      assert ms[..k] == ms;
    }
  }

  /** Where the second pass stands after k members: the entries written so far are a prefix. */
  lemma WrittenSoFar(ms: seq<Member>, k: nat)
    requires k <= |ms|
    ensures var n := |DirsOf(ms)| + |FilesOf(ms[..k])|;
            && n <= |TarEntries(ms)|
            && (k < |ms| && ms[k].kind == RegularFile ==>
                  && n < |TarEntries(ms)| && TarEntries(ms)[n] == FileEntry(Parts(NameOf(ms[k])), ms[k].content)
                  && n + 1 == |DirsOf(ms)| + |FilesOf(ms[..k + 1])|)
            && (k < |ms| && ms[k].kind != RegularFile ==> FilesOf(ms[..k + 1]) == FilesOf(ms[..k]))
  {
    FilesGrow(ms, k);
    if k < |ms| {
      FilesUpTo(ms, k);
      FilesGrow(ms, k + 1);
    }
  }

  /** After k members of the second pass, fs is what a prefix of the entries makes of fs0. */
  ghost predicate Written(fs0: Tree, ms: seq<Member>, k: nat, fs: Tree)
    requires k <= |ms|
  {
    var n := |DirsOf(ms)| + |FilesOf(ms[..k])|;
    n <= |TarEntries(ms)| && WriteAll(fs0, TarEntries(ms)[..n]) == Some(fs)
  }

  lemma SkipMember(fs0: Tree, ms: seq<Member>, k: nat, fs: Tree)
    requires k < |ms| && Written(fs0, ms, k, fs) && ms[k].kind != RegularFile
    ensures Written(fs0, ms, k + 1, fs)
  {
    WrittenSoFar(ms, k);
  }

  lemma WriteMember(fs0: Tree, ms: seq<Member>, k: nat, fs: Tree)
    requires k < |ms| && Written(fs0, ms, k, fs) && ms[k].kind == RegularFile
    ensures match WriteOne(fs, FileEntry(Parts(NameOf(ms[k])), ms[k].content))
            case None => WriteAll(fs0, TarEntries(ms)).None?
            case Some(next) => Written(fs0, ms, k + 1, next)
  {
    WrittenSoFar(ms, k);
    var n := |DirsOf(ms)| + |FilesOf(ms[..k])|;
    WriteNext(fs0, TarEntries(ms), n);
    if WriteAll(fs0, TarEntries(ms)[..n + 1]).None? { FailureStays(fs0, TarEntries(ms), n + 1); }
  }

  lemma AllWritten(fs0: Tree, ms: seq<Member>, fs: Tree)
    requires Written(fs0, ms, |ms|, fs)
    ensures WriteAll(fs0, TarEntries(ms)) == Some(fs)
  {
    assert ms[..|ms|] == ms && TarEntries(ms)[..|TarEntries(ms)|] == TarEntries(ms);
  }

  // ---------- the extractor as it runs ----------

  class Stage {
    const root: Path
    var fs: Tree

    constructor (root: Path)
      ensures fs == EMPTY_STAGE && this.root == root
    {
      this.root := root;
      fs := EMPTY_STAGE;
    }

    method ScanHeaders(host: Host, limits: Limits, ms: seq<Member>) returns (r: Outcome<Scan>)
      ensures r == ScanAll(host, limits, ms)
    {
      var st := NOTHING;
      for k := 0 to |ms|
        invariant ScanAll(host, limits, ms[..k]) == Accepted(st)
      {
        assert ms[..k + 1][..k] == ms[..k];
        var next := ScanOne(host, limits, st, ms[k]);
        if next.Rejected? {
          RejectionStays(host, limits, ms, k + 1);
          return next;
        }
        st := next.value;
      }
      assert ms[..|ms|] == ms;
      return Accepted(st);
    }

    method CheckLinks(limits: Limits, links: map<string, Link>) returns (problem: Option<Reason>)
      ensures problem.None? <==> LinksOk(root, links, limits.maxLinkDepth)
      ensures problem.Some? ==> problem.value in {LinkEscapes, LinkCycle, LinkTooDeep}
    {
      var left := links.Keys;
      while left != {}
        invariant left <= links.Keys
        invariant forall name :: name in links && name !in left ==> ChainOk(root, links, name, limits.maxLinkDepth)
        decreases left
      {
        var name :| name in left;
        var r := ResolveLinkChain(root, links, name, limits.maxLinkDepth);
        if r.Rejected? {
          assert !ChainOk(root, links, name, limits.maxLinkDepth);
          return Some(r.reason);
        }
        left := left - {name};
      }
      return None;
    }

    method CheckNotUnderLink(links: map<string, Link>, files: seq<Named>, dirs: seq<string>) returns (ok: bool)
      ensures ok <==> (forall f :: f in files ==> !UnderSomeLink(links, f.name))
                      && (forall d :: d in dirs ==> !UnderSomeLink(links, d))
    {
      for k := 0 to |files|
        invariant forall j :: 0 <= j < k ==> !UnderSomeLink(links, files[j].name)
      {
        if UnderSomeLink(links, files[k].name) {
          return false;
        }
      }
      for k := 0 to |dirs|
        invariant forall j :: 0 <= j < k ==> !UnderSomeLink(links, dirs[j])
      {
        if UnderSomeLink(links, dirs[k]) {
          return false;
        }
      }
      return true;
    }

    method MakeAllDirs(ms: seq<Member>, dirs: seq<string>) returns (ok: bool)
      requires dirs == DirsOf(ms)
      modifies this`fs
      ensures ok ==> WriteAll(old(fs), TarEntries(ms)[..|dirs|]) == Some(fs)
      ensures !ok ==> WriteAll(old(fs), TarEntries(ms)).None?
    {
      ghost var entries := TarEntries(ms);
      for k := 0 to |dirs|
        invariant WriteAll(old(fs), entries[..k]) == Some(fs)
      {
        WriteNext(old(fs), entries, k);
        var next := MakeDirs(fs, Parts(dirs[k]));
        if next.None? {
          FailureStays(old(fs), entries, k + 1);
          return false;
        }
        fs := next.value;
      }
      return true;
    }

    /** The second look at a member's name: its place in the stage if the member is to be written. */
    method PlaceOf(host: Host, limits: Limits, ms: seq<Member>, k: nat, wanted: set<string>)
      returns (place: Option<Path>)
      requires ScanAll(host, limits, ms).Accepted? && k < |ms|
      requires forall name :: name in wanted <==> IsWanted(FilesOf(ms), name)
      ensures place == if ms[k].kind == RegularFile then Some(Parts(NameOf(ms[k]))) else None
    {
      ScanIsSound(host, limits, ms);
      AcceptedAgain(host, limits, ms, k);
      WantedIffFile(host, ms, k);
      var canon := ValidateName(host, ms[k].rawName, {});
      if canon.Rejected? || canon.value !in wanted {
        return None;
      }
      return Some(Parts(canon.value));
    }

    /** Reads the archive again and writes the members whose canonical name is wanted. */
    method WriteFiles(host: Host, limits: Limits, ms: seq<Member>, files: seq<Named>, ghost fs0: Tree)
      returns (ok: bool)
      requires ScanAll(host, limits, ms).Accepted? && files == FilesOf(ms)
      requires WriteAll(fs0, TarEntries(ms)[..|DirsOf(ms)|]) == Some(fs)
      modifies this`fs
      ensures ok ==> WriteAll(fs0, TarEntries(ms)) == Some(fs)
      ensures !ok ==> WriteAll(fs0, TarEntries(ms)).None?
    {
      var wanted := set f | f in files :: f.name;
      assert forall name :: name in wanted <==> IsWanted(files, name);
      assert ms[..0] == [];
      for k := 0 to |ms|
        invariant Written(fs0, ms, k, fs)
      {
        var place := PlaceOf(host, limits, ms, k, wanted);
        if place.None? {
          SkipMember(fs0, ms, k, fs);
          continue;
        }
        var next := WriteOne(fs, FileEntry(place.value, ms[k].content));
        WriteMember(fs0, ms, k, fs);
        if next.None? {
          return false;
        }
        fs := next.value;
      }
      AllWritten(fs0, ms, fs);
      return true;
    }

    /** None on success, else the reason. Nothing is written unless every check has passed; then the
        writes succeed exactly when the archive describes a tree, and leave exactly that tree. */
    method ExtractTar(host: Host, limits: Limits, ms: seq<Member>) returns (problem: Option<Reason>)
      modifies this`fs
      ensures problem.Some? && problem.value != WriteFailed <==> !ChecksPass(host, limits, root, ms)
      ensures problem.Some? && problem.value != WriteFailed ==> fs == old(fs)
      ensures old(fs) == EMPTY_STAGE && ChecksPass(host, limits, root, ms) ==>
                (problem.None? <==> Buildable(TarEntries(ms)))
      ensures old(fs) == EMPTY_STAGE && problem.None? ==> Holds(fs, TarEntries(ms))
    {
      var scan := ScanHeaders(host, limits, ms);
      if scan.Rejected? {
        ScanNeverWrites(host, limits, ms);
        return Some(scan.reason);
      }
      ScanIsSound(host, limits, ms);
      var st := scan.value;
      var badLink := CheckLinks(limits, st.links);
      if badLink.Some? {
        return badLink;
      }
      var clear := CheckNotUnderLink(st.links, st.files, st.dirs);
      if !clear {
        return Some(UnderLink);
      }
      assert ChecksPass(host, limits, root, ms);
      TarPathsDistinct(host, ms);
      WriteAllBuilds(TarEntries(ms));
      ghost var fs0 := fs;
      var ok := MakeAllDirs(ms, st.dirs);
      if !ok {
        return Some(WriteFailed);
      }
      ok := WriteFiles(host, limits, ms, st.files, fs0);
      return if ok then None else Some(WriteFailed);
    }
  }

  lemma {:induction false} RejectionStays(host: Host, limits: Limits, ms: seq<Member>, k: nat)
    requires k <= |ms| && ScanAll(host, limits, ms[..k]).Rejected?
    ensures ScanAll(host, limits, ms) == ScanAll(host, limits, ms[..k])
    decreases |ms|
  {
    if k < |ms| {
      assert ms[..|ms| - 1][..k] == ms[..k];
      RejectionStays(host, limits, ms[..|ms| - 1], k);
    } else {
      assert ms[..k] == ms;
    }
  }

  lemma {:induction false} ScanNeverWrites(host: Host, limits: Limits, ms: seq<Member>)
    ensures ScanAll(host, limits, ms).Rejected? ==> ScanAll(host, limits, ms).reason != WriteFailed
  {
    if ms != [] {
      ScanNeverWrites(host, limits, ms[..|ms| - 1]);
      ProblemsAreNames(host, Split(ms[|ms| - 1].rawName));
    }
  }

  lemma {:induction false} ProblemsAreNames(host: Host, parts: seq<string>)
    ensures FirstProblem(host, parts).Some? ==> FirstProblem(host, parts).value != WriteFailed
  {
    if parts != [] { ProblemsAreNames(host, parts[1..]); }
  }
}
