/** Archive member names: validation, the canonical spelling, and paths as component sequences. */
module ArchiveNames {
  import opened Wrappers

  type Path = seq<string>

  datatype Reason =
    | InvalidName | AbsoluteName | Traversal | Backslash | Colon | ReservedName | DuplicateName
    | TooManyMembers | SpecialMember | UnsupportedMember | MemberTooBig | ArchiveTooBig
    | LinkEscapes | LinkCycle | LinkTooDeep | UnderLink | WriteFailed

  datatype Outcome<+T> = Accepted(value: T) | Rejected(reason: Reason)

  /** What the host supplies: Unicode case folding, and whether a name is reserved once lower-cased. */
  datatype Host = Host(casefold: string -> string, reserved: string -> bool)

  // ---------- splitting and joining ----------

  /** str.split("/"): always at least one part. */
  function Split(s: string): (parts: seq<string>)
    ensures parts != []
    ensures forall k :: 0 <= k < |parts| ==> '/' !in parts[k]
  {
    if s == "" then [""]
    else
      var rest := Split(s[1..]);
      if s[0] == '/' then [""] + rest else [[s[0]] + rest[0]] + rest[1..]
  }

  /** "/".join */
  function Join(parts: seq<string>): string {
    if parts == [] then ""
    else if |parts| == 1 then parts[0]
    else parts[0] + "/" + Join(parts[1..])
  }

  /** A path component that pathlib keeps. */
  predicate IsComponent(part: string) {
    part != "" && part != "."
  }

  function Keep(parts: seq<string>): (kept: Path)
    ensures forall k :: 0 <= k < |kept| ==> IsComponent(kept[k]) && kept[k] in parts
  {
    if parts == [] then []
    else if IsComponent(parts[0]) then [parts[0]] + Keep(parts[1..])
    else Keep(parts[1..])
  }

  /** The components pathlib sees in a relative path. */
  function Parts(name: string): Path {
    Keep(Split(name))
  }

  /** Non-empty components without slashes: what a canonical name is made of. */
  ghost predicate IsPath(p: Path) {
    forall k :: 0 <= k < |p| ==> IsComponent(p[k]) && '/' !in p[k]
  }

  lemma {:induction false} SplitPlain(s: string)
    requires '/' !in s
    ensures Split(s) == [s]
  {
    if s != "" {
      assert s == [s[0]] + s[1..];
      SplitPlain(s[1..]);
    }
  }

  lemma {:induction false} SplitAtSlash(a: string, b: string)
    requires '/' !in a
    ensures Split(a + "/" + b) == [a] + Split(b)
  {
    var s := a + "/" + b;
    if a == "" {
      assert s[0] == '/' && s[1..] == b;
    } else {
      assert s[0] == a[0] && s[1..] == a[1..] + "/" + b;
      assert a == [a[0]] + a[1..];
      SplitAtSlash(a[1..], b);
    }
  }

  lemma {:induction false} SplitJoin(p: Path)
    requires p != [] && forall k :: 0 <= k < |p| ==> '/' !in p[k]
    ensures Split(Join(p)) == p
  {
    if |p| == 1 {
      SplitPlain(p[0]);
    } else {
      SplitJoin(p[1..]);
      SplitAtSlash(p[0], Join(p[1..]));
    }
  }

  /** Nothing is lost in splitting. */
  lemma {:induction false} JoinOfSplit(s: string)
    ensures Join(Split(s)) == s
  {
    if s != "" {
      JoinOfSplit(s[1..]);
      var rest := Split(s[1..]);
      if s[0] == '/' {
        assert ([""] + rest)[1..] == rest;
        assert s == "/" + s[1..];
      } else {
        assert ([[s[0]] + rest[0]] + rest[1..])[1..] == rest[1..];
        assert s == [s[0]] + s[1..];
      }
    }
  }

  lemma {:induction false} KeepAll(p: Path)
    requires forall k :: 0 <= k < |p| ==> IsComponent(p[k])
    ensures Keep(p) == p
  {
    if p != [] {
      KeepAll(p[1..]);
    }
  }

  /** Joining and splitting again gives the path back. */
  lemma PartsOfJoin(p: Path)
    requires IsPath(p)
    ensures Parts(Join(p)) == p
  {
    if p == [] {
      assert Split("") == [""] && Keep([""]) == Keep([""][1..]);
    } else {
      SplitJoin(p);
      KeepAll(p);
    }
  }

  lemma PartsArePath(name: string)
    ensures IsPath(Parts(name))
  {
    forall k | 0 <= k < |Parts(name)| ensures '/' !in Parts(name)[k] {
      assert Parts(name)[k] in Split(name);
    }
  }

  /** A name in the spelling that Join gives it. */
  predicate IsCanonical(name: string) {
    name == Join(Parts(name))
  }

  lemma CanonicalByPath(a: string, b: string)
    requires IsCanonical(a) && IsCanonical(b)
    ensures Parts(a) == Parts(b) <==> a == b
  {
  }

  // ---------- validation ----------

  predicate IsTrailing(c: char) {
    c == ' ' || c == '.'
  }

  /** part.rstrip(" .") */
  function StripEnd(part: string): (r: string)
    ensures r <= part && (r != "" ==> r[|r| - 1] != ' ' && r[|r| - 1] != '.')
    ensures forall i :: |r| <= i < |part| ==> part[i] == ' ' || part[i] == '.'
  {
    if part != "" && IsTrailing(part[|part| - 1]) then StripEnd(part[..|part| - 1]) else part
  }

  /** The first objection to one path part, if any; empty parts and single dots are ignored. */
  function PartProblem(host: Host, part: string): Option<Reason> {
    if part == ".." then Some(Traversal)
    else if !IsComponent(part) then None
    else if '\\' in part then Some(Backslash)
    else if ':' in part then Some(Colon)
    else if StripEnd(part) == "" || host.reserved(StripEnd(part)) then Some(ReservedName)
    else None
  }

  function FirstProblem(host: Host, parts: seq<string>): Option<Reason> {
    if parts == [] then None
    else if PartProblem(host, parts[0]).Some? then PartProblem(host, parts[0])
    else FirstProblem(host, parts[1..])
  }

  function Normalized(name: string): string {
    Join(Parts(name))
  }

  function ValidateName(host: Host, name: string, folded: set<string>): Outcome<string> {
    if name == "" || '\0' in name then Rejected(InvalidName)
    else if name[0] == '/' || name[0] == '\\' then Rejected(AbsoluteName)
    else
      match FirstProblem(host, Split(name))
      case Some(reason) => Rejected(reason)
      case None =>
        if host.casefold(Normalized(name)) in folded then Rejected(DuplicateName) else Accepted(Normalized(name))
  }

  /** The validation loop as it runs. */
  method ValidateMemberName(host: Host, name: string, folded: set<string>) returns (r: Outcome<string>)
    ensures r == ValidateName(host, name, folded)
  {
    if name == "" || '\0' in name {
      return Rejected(InvalidName);
    }
    if name[0] == '/' || name[0] == '\\' {
      return Rejected(AbsoluteName);
    }
    var parts := Split(name);
    for k := 0 to |parts|
      invariant FirstProblem(host, parts) == FirstProblem(host, parts[k..])
    {
      var part := parts[k];
      if part == "" || part == "." || part == ".." {
        if part == ".." {
          return Rejected(Traversal);
        }
        continue;
      }
      if '\\' in part {
        return Rejected(Backslash);
      }
      if ':' in part {
        return Rejected(Colon);
      }
      var stripped := StripEnd(part);
      if stripped == "" || host.reserved(stripped) {
        return Rejected(ReservedName);
      }
    }
    var normalized := Join(Keep(parts));
    if host.casefold(normalized) in folded {
      return Rejected(DuplicateName);
    }
    return Accepted(normalized);
  }

  /** A component an accepted name may have. */
  ghost predicate IsSafeComponent(host: Host, c: string) {
    && IsComponent(c) && c != ".." && '/' !in c && '\\' !in c && ':' !in c
    && StripEnd(c) != "" && !host.reserved(StripEnd(c))
  }

  lemma {:induction false} NoProblemMeansSafe(host: Host, parts: seq<string>)
    requires FirstProblem(host, parts).None? && forall k :: 0 <= k < |parts| ==> '/' !in parts[k]
    ensures forall k :: 0 <= k < |Keep(parts)| ==> IsSafeComponent(host, Keep(parts)[k])
  {
    if parts != [] {
      NoProblemMeansSafe(host, parts[1..]);
    }
  }

  ghost predicate AllSafe(host: Host, path: Path) {
    path == [] || (IsSafeComponent(host, path[0]) && AllSafe(host, path[1..]))
  }

  lemma {:induction false} AllSafeIff(host: Host, path: Path)
    ensures AllSafe(host, path) <==> forall k :: 0 <= k < |path| ==> IsSafeComponent(host, path[k])
  {
    if path != [] {
      AllSafeIff(host, path[1..]);
      if AllSafe(host, path) {
        forall k | 0 <= k < |path| ensures IsSafeComponent(host, path[k]) {
          if k > 0 { assert path[1..][k - 1] == path[k]; }
        }
      }
      if forall k :: 0 <= k < |path| ==> IsSafeComponent(host, path[k]) {
        forall k | 0 <= k < |path[1..]| ensures IsSafeComponent(host, path[1..][k]) {
          assert path[1..][k] == path[k + 1];
        }
      }
    }
  }

  lemma {:induction false} SafeMeansNoProblem(host: Host, parts: seq<string>)
    requires AllSafe(host, Keep(parts))
    ensures FirstProblem(host, parts).None?
  {
    if parts != [] {
      if IsComponent(parts[0]) {
        assert Keep(parts)[0] == parts[0] && Keep(parts)[1..] == Keep(parts[1..]);
      }
      SafeMeansNoProblem(host, parts[1..]);
    }
  }

  /** A raw name that may be used: relative, and every component of it safe. */
  ghost predicate IsUsable(host: Host, name: string) {
    && name != "" && '\0' !in name && name[0] != '/' && name[0] != '\\'
    && forall k :: 0 <= k < |Parts(name)| ==> IsSafeComponent(host, Parts(name)[k])
  }

  /** Accepted are exactly the usable names that are new under case folding. */
  lemma NameAcceptedIff(host: Host, name: string, folded: set<string>)
    ensures ValidateName(host, name, folded).Accepted? <==>
            IsUsable(host, name) && host.casefold(Normalized(name)) !in folded
  {
    if FirstProblem(host, Split(name)).None? {
      NoProblemMeansSafe(host, Split(name));
    }
    if IsUsable(host, name) {
      AllSafeIff(host, Parts(name));
      SafeMeansNoProblem(host, Split(name));
    }
  }

  /** An accepted name is canonical, relative, free of "..", and new under case folding. */
  lemma AcceptedNameIsSafe(host: Host, name: string, folded: set<string>)
    requires ValidateName(host, name, folded).Accepted?
    ensures var n := ValidateName(host, name, folded).value;
            && IsCanonical(n) && Parts(n) == Parts(name)
            && (forall k :: 0 <= k < |Parts(n)| ==> IsSafeComponent(host, Parts(n)[k]))
            && host.casefold(n) !in folded
  {
    PartsArePath(name);
    PartsOfJoin(Parts(name));
    NoProblemMeansSafe(host, Split(name));
  }

  // ---------- string prefixes and ancestors ----------

  predicate IsAncestor(a: Path, b: Path) {
    |a| < |b| && a <= b
  }

  lemma {:induction false} JoinExtends(a: Path, b: Path)
    requires a != [] && IsAncestor(a, b)
    ensures Join(a) + "/" <= Join(b)
  {
    assert a[0] == b[0];
    if |a| > 1 {
      JoinExtends(a[1..], b[1..]);
    }
  }

  /** The code compares strings; what it decides is whether one path is above the other. */
  lemma PrefixIffAncestor(a: string, b: string)
    requires IsCanonical(a) && IsCanonical(b) && a != ""
    ensures a + "/" <= b <==> IsAncestor(Parts(a), Parts(b))
  {
    PartsArePath(a);
    PartsArePath(b);
    if IsAncestor(Parts(a), Parts(b)) {
      assert Join([]) == "";
      JoinExtends(Parts(a), Parts(b));
    }
    if a + "/" <= b {
      assert b == a + "/" + b[|a| + 1..];
      SplitConcat(a, b[|a| + 1..]);
      KeepConcat(Split(a), Split(b[|a| + 1..]));
      if Parts(b) == Parts(a) { CanonicalByPath(a, b); }
    }
  }

  lemma {:induction false} SplitConcat(a: string, b: string)
    ensures Split(a + "/" + b) == Split(a) + Split(b)
  {
    var s := a + "/" + b;
    if a == "" {
      assert s[0] == '/' && s[1..] == b;
    } else {
      assert s[0] == a[0] && s[1..] == a[1..] + "/" + b;
      SplitConcat(a[1..], b);
    }
  }

  lemma {:induction false} KeepConcat(p: seq<string>, q: seq<string>)
    ensures Keep(p + q) == Keep(p) + Keep(q)
  {
    if p == [] {
      assert p + q == q;
    } else {
      assert (p + q)[1..] == p[1..] + q;
      KeepConcat(p[1..], q);
    }
  }
}
