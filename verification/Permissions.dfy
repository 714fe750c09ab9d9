/** An agent's capability permissions as the settings dialog edits them: effective modes, edits, and
    the list of grants that is saved and loaded again. */
module Permissions {
  import opened Wrappers

  datatype Mode = NoAccess | OnDemand | Always

  /** `server` is "" for a tool without a server id. */
  datatype Cap = Cap(name: string, isMcp: bool, server: string, egress: bool, requireApproval: bool)

  datatype Grant = Grant(name: string, enabled: bool, requireApproval: bool, alwaysLoaded: Option<bool>)

  datatype State = State(
    modes: map<string, Mode>,
    serverModes: map<string, Mode>,
    approvals: set<string>,
    serverApprovals: map<string, bool>,
    denied: set<string>)

  const PREFIX := "mcp_server:"
  const OTHER := "other"

  function ModeIn(modes: map<string, Mode>, name: string): Mode {
    if name in modes then modes[name] else NoAccess
  }

  /** What a capability may do: its own entry first, then what its server was granted. */
  function ModeFor(st: State, cap: Cap): Mode {
    if !cap.isMcp then ModeIn(st.modes, cap.name)
    else if cap.name in st.denied then NoAccess
    else if cap.name in st.modes then st.modes[cap.name]
    else if cap.server != "" then ModeIn(st.serverModes, cap.server)
    else NoAccess
  }

  function GrantMode(grant: Grant, isMcp: bool): Mode {
    if !grant.enabled then NoAccess
    else match grant.alwaysLoaded
      case Some(true) => Always
      case Some(false) => OnDemand
      case None => if isMcp then OnDemand else Always
  }

  predicate UniqueNames(caps: seq<Cap>) {
    forall a, b :: a in caps && b in caps && a.name == b.name ==> a == b
  }

  /** Modes are only stored where there is one. */
  predicate Clean(st: State) {
    && (forall n :: n in st.modes ==> st.modes[n] != NoAccess)
    && (forall n :: n in st.serverModes ==> st.serverModes[n] != NoAccess)
  }

  function Find(caps: seq<Cap>, name: string): (found: Option<Cap>)
    ensures found.Some? ==> found.value in caps && found.value.name == name
    ensures found.None? ==> forall cap :: cap in caps ==> cap.name != name
  {
    if caps == [] then None
    else if caps[0].name == name then Some(caps[0])
    else Find(caps[1..], name)
  }

  // ---------- edits ----------

  class CapabilitiesTab {
    const allCaps: seq<Cap>
    var modes: map<string, Mode>
    var serverModes: map<string, Mode>
    var approvals: set<string>
    var serverApprovals: map<string, bool>
    var denied: set<string>

    function Now(): State
      reads this
    {
      State(modes, serverModes, approvals, serverApprovals, denied)
    }

    constructor (allCaps: seq<Cap>)
      ensures this.allCaps == allCaps && Now() == State(map[], map[], {}, map[], {})
    {
      this.allCaps := allCaps;
      modes, serverModes, approvals, serverApprovals, denied := map[], map[], {}, map[], {};
    }

    /** The capability named gets the mode asked for, whichever entry that takes; no other mode changes. */
    method UpdateMode(name: string, mode: Mode)
      requires UniqueNames(allCaps)
      modifies this`modes, this`denied
      ensures forall cap :: cap in allCaps ==>
                ModeFor(Now(), cap) == if cap.name == name then mode else ModeFor(old(Now()), cap)
      ensures Clean(old(Now())) ==> Clean(Now())
    {
      var found := Find(allCaps, name);
      var inherited :=
        if found.Some? && found.value.isMcp && found.value.server != "" then ModeIn(serverModes, found.value.server)
        else NoAccess;
      if found.Some? && found.value.isMcp && inherited != NoAccess {
        if mode == inherited {
          modes := modes - {name};
          denied := denied - {name};
        } else if mode == NoAccess {
          modes := modes - {name};
          denied := denied + {name};
        } else {
          modes := modes[name := mode];
          denied := denied - {name};
        }
      } else {
        if mode == NoAccess {
          modes := modes - {name};
        } else {
          modes := modes[name := mode];
        }
        denied := denied - {name};
      }
    }

    /** A server's mode reaches exactly its tools without an entry of their own. */
    method UpdateServerMode(server: string, mode: Mode, caps: seq<Cap>)
      requires server != ""
      modifies this`serverModes, this`serverApprovals
      ensures forall cap :: cap in allCaps ==>
                ModeFor(Now(), cap) ==
                if cap.isMcp && cap.server == server && cap.name !in denied && cap.name !in modes then mode
                else ModeFor(old(Now()), cap)
      ensures Clean(old(Now())) ==> Clean(Now())
      ensures mode == NoAccess ==> serverApprovals == old(serverApprovals) - {server}
      ensures mode != NoAccess ==>
                serverApprovals == old(serverApprovals)[
                  server := if server in old(serverApprovals) then old(serverApprovals)[server]
                            else exists cap: Cap :: cap in caps && cap.egress]
    {
      if mode == NoAccess {
        serverModes := serverModes - {server};
        serverApprovals := serverApprovals - {server};
      } else {
        serverModes := serverModes[server := mode];
        if server !in serverApprovals {
          serverApprovals := serverApprovals[server := exists cap: Cap :: cap in caps && cap.egress];
        }
      }
    }

    /** Enabling all gives each its default mode. Disabling all takes away the entries, so a tool of a
        granted server is not disabled: it falls back to what its server was granted. */
    method SetAllModes(caps: seq<Cap>, enable: bool)
      requires UniqueNames(allCaps) && forall cap :: cap in caps ==> cap in allCaps
      modifies this`modes, this`denied
      ensures forall cap :: cap in allCaps ==>
                ModeFor(Now(), cap) ==
                if cap !in caps then ModeFor(old(Now()), cap)
                else if enable then (if cap.isMcp then OnDemand else Always)
                else if cap.isMcp && cap.server != "" then ModeIn(serverModes, cap.server)
                else NoAccess
      ensures Clean(old(Now())) ==> Clean(Now())
    {
      for i := 0 to |caps|
        invariant forall cap :: cap in allCaps && cap in caps[..i] ==>
                    cap.name !in denied &&
                    if enable then cap.name in modes && modes[cap.name] == (if cap.isMcp then OnDemand else Always)
                    else cap.name !in modes
        invariant forall cap :: cap in allCaps && cap !in caps[..i] ==>
                    && (cap.name in denied <==> cap.name in old(denied))
                    && (cap.name in modes <==> cap.name in old(modes))
                    && (cap.name in modes ==> modes[cap.name] == old(modes)[cap.name])
        invariant Clean(old(Now())) ==> Clean(Now())
      {
        assert caps[..i + 1] == caps[..i] + [caps[i]];
        if enable {
          modes := modes[caps[i].name := if caps[i].isMcp then OnDemand else Always];
        } else {
          modes := modes - {caps[i].name};
        }
        denied := denied - {caps[i].name};
      }
    }
  }

  // ---------- saving ----------

  /** The grants that capability gets on its own. */
  function OwnGrants(st: State, cap: Cap): seq<Grant> {
    if cap.isMcp && cap.name in st.denied then [Grant(cap.name, false, false, Some(false))]
    else if ModeIn(st.modes, cap.name) == NoAccess then []
    else [Grant(cap.name, true, cap.name in st.approvals, Some(st.modes[cap.name] == Always))]
  }

  function Key(cap: Cap): string {
    if cap.server == "" then OTHER else cap.server
  }

  function ServerGrants(st: State, key: string, group: seq<Cap>): seq<Grant> {
    if key == OTHER || ModeIn(st.serverModes, key) == NoAccess then []
    else
      var ask := if key in st.serverApprovals then st.serverApprovals[key]
                 else exists cap: Cap :: cap in group && cap.egress;
      [Grant(PREFIX + key, true, ask, Some(st.serverModes[key] == Always))]
  }

  function AllOwn(st: State, caps: seq<Cap>): seq<Grant> {
    if caps == [] then [] else AllOwn(st, caps[..|caps| - 1]) + OwnGrants(st, caps[|caps| - 1])
  }

  function Builtins(caps: seq<Cap>): seq<Cap> {
    if caps == [] then []
    else if caps[|caps| - 1].isMcp then Builtins(caps[..|caps| - 1])
    else Builtins(caps[..|caps| - 1]) + [caps[|caps| - 1]]
  }

  /** The tools of one server, in order. */
  function GroupOf(caps: seq<Cap>, key: string): seq<Cap> {
    if caps == [] then []
    else
      var before, last := GroupOf(caps[..|caps| - 1], key), caps[|caps| - 1];
      if last.isMcp && Key(last) == key then before + [last] else before
  }

  /** The servers in the order of their first tools. */
  function Servers(caps: seq<Cap>): seq<string> {
    if caps == [] then []
    else
      var before, last := Servers(caps[..|caps| - 1]), caps[|caps| - 1];
      if last.isMcp && Key(last) !in before then before + [Key(last)] else before
  }

  function AllServers(st: State, caps: seq<Cap>, keys: seq<string>): seq<Grant> {
    if keys == [] then []
    else
      var key := keys[|keys| - 1];
      AllServers(st, caps, keys[..|keys| - 1]) + ServerGrants(st, key, GroupOf(caps, key)) +
      AllOwn(st, GroupOf(caps, key))
  }

  /** What is saved: built-in tools, then server by server the server's grant and its tools' own. */
  function Saved(st: State, caps: seq<Cap>): seq<Grant> {
    AllOwn(st, Builtins(caps)) + AllServers(st, caps, Servers(caps))
  }

  method SaveOwn(st: State, group: seq<Cap>, so: seq<Grant>) returns (grants: seq<Grant>)
    ensures grants == so + AllOwn(st, group)
  {
    grants := so;
    for i := 0 to |group|
      invariant grants == so + AllOwn(st, group[..i])
    {
      assert group[..i + 1][..i] == group[..i];
      var cap := group[i];
      if cap.isMcp && cap.name in st.denied {
        grants := grants + [Grant(cap.name, false, false, Some(false))];
        continue;
      }
      var mode := ModeIn(st.modes, cap.name);
      if mode != NoAccess {
        grants := grants + [Grant(cap.name, true, cap.name in st.approvals, Some(mode == Always))];
      }
    }
    assert group[..|group|] == group;
  }

  method GroupServers(caps: seq<Cap>) returns (keys: seq<string>, groups: map<string, seq<Cap>>)
    ensures keys == Servers(caps)
    ensures forall key :: key in groups <==> key in keys
    ensures forall key :: key in keys ==> groups[key] == GroupOf(caps, key)
  {
    keys, groups := [], map[];
    for i := 0 to |caps|
      invariant keys == Servers(caps[..i])
      invariant forall key :: key in groups <==> key in keys
      invariant forall key :: GroupOf(caps[..i], key) == if key in groups then groups[key] else []
    {
      assert caps[..i + 1][..i] == caps[..i];
      if caps[i].isMcp {
        var key := Key(caps[i]);
        if key !in groups {
          keys := keys + [key];
          groups := groups[key := []];
        }
        groups := groups[key := groups[key] + [caps[i]]];
      }
    }
    assert caps[..|caps|] == caps;
  }

  method FilterBuiltins(caps: seq<Cap>) returns (builtins: seq<Cap>)
    ensures builtins == Builtins(caps)
  {
    builtins := [];
    for i := 0 to |caps|
      invariant builtins == Builtins(caps[..i])
    {
      assert caps[..i + 1][..i] == caps[..i];
      if !caps[i].isMcp {
        builtins := builtins + [caps[i]];
      }
    }
    assert caps[..|caps|] == caps;
  }

  method SaveServer(st: State, key: string, group: seq<Cap>, so: seq<Grant>) returns (grants: seq<Grant>)
    ensures grants == so + ServerGrants(st, key, group) + AllOwn(st, group)
  {
    grants := so;
    var mode := ModeIn(st.serverModes, key);
    if key != OTHER && mode != NoAccess {
      var ask := if key in st.serverApprovals then st.serverApprovals[key]
                 else exists cap: Cap :: cap in group && cap.egress;
      grants := grants + [Grant(PREFIX + key, true, ask, Some(mode == Always))];
    }
    grants := SaveOwn(st, group, grants);
  }

  method SaveServers(st: State, caps: seq<Cap>, so: seq<Grant>) returns (grants: seq<Grant>)
    ensures grants == so + AllServers(st, caps, Servers(caps))
  {
    var keys, groups := GroupServers(caps);
    grants := so;
    for i := 0 to |keys|
      invariant grants == so + AllServers(st, caps, keys[..i])
    {
      ghost var was := grants;
      grants := SaveServer(st, keys[i], groups[keys[i]], grants);
      ServersNext(st, caps, keys, i, so, was, grants);
    }
    assert keys[..|keys|] == keys;
  }

  lemma ServersNext(st: State, caps: seq<Cap>, keys: seq<string>, i: nat, so: seq<Grant>, was: seq<Grant>,
                    grants: seq<Grant>)
    requires i < |keys| && was == so + AllServers(st, caps, keys[..i])
    requires grants == was + ServerGrants(st, keys[i], GroupOf(caps, keys[i])) + AllOwn(st, GroupOf(caps, keys[i]))
    ensures grants == so + AllServers(st, caps, keys[..i + 1])
  {
    assert keys[..i + 1][..i] == keys[..i];
    Regroup(so, AllServers(st, caps, keys[..i]), ServerGrants(st, keys[i], GroupOf(caps, keys[i])),
            AllOwn(st, GroupOf(caps, keys[i])));
  }

  lemma Regroup(a: seq<Grant>, b: seq<Grant>, c: seq<Grant>, d: seq<Grant>)
    ensures a + b + c + d == a + (b + c + d)
  {
  }

  method SaveCapabilities(st: State, caps: seq<Cap>) returns (grants: seq<Grant>)
    ensures grants == Saved(st, caps)
  {
    var builtins := FilterBuiltins(caps);
    grants := SaveOwn(st, builtins, []);
    assert grants == AllOwn(st, builtins);
    grants := SaveServers(st, caps, grants);
  }

  // ---------- loading ----------

  const EMPTY := State(map[], map[], {}, map[], {})

  function LoadOne(st: State, grant: Grant, caps: seq<Cap>): State {
    if PREFIX <= grant.name then
      var server := grant.name[|PREFIX|..];
      var mode := GrantMode(grant, true);
      st.(serverModes := if mode != NoAccess then st.serverModes[server := mode] else st.serverModes,
          serverApprovals := st.serverApprovals[server := grant.requireApproval])
    else
      var found := Find(caps, grant.name);
      var mode := GrantMode(grant, found.Some? && found.value.isMcp);
      st.(denied := if mode == NoAccess then st.denied + {grant.name} else st.denied,
          modes := if mode == NoAccess then st.modes else st.modes[grant.name := mode],
          approvals := if grant.requireApproval then st.approvals + {grant.name} else st.approvals)
  }

  function Loaded(grants: seq<Grant>, caps: seq<Cap>): State {
    if grants == [] then EMPTY else LoadOne(Loaded(grants[..|grants| - 1], caps), grants[|grants| - 1], caps)
  }

  method LoadCapabilities(grants: seq<Grant>, caps: seq<Cap>) returns (st: State)
    ensures st == Loaded(grants, caps)
  {
    var modes, serverModes: map<string, Mode>, approvals, serverApprovals: map<string, bool>, denied :=
      map[], map[], {}, map[], {};
    for i := 0 to |grants|
      invariant State(modes, serverModes, approvals, serverApprovals, denied) == Loaded(grants[..i], caps)
    {
      assert grants[..i + 1][..i] == grants[..i];
      var grant := grants[i];
      if PREFIX <= grant.name {
        var server := grant.name[|PREFIX|..];
        var mode := GrantMode(grant, true);
        if mode != NoAccess {
          serverModes := serverModes[server := mode];
        }
        serverApprovals := serverApprovals[server := grant.requireApproval];
        continue;
      }
      var found := Find(caps, grant.name);
      var mode := GrantMode(grant, found.Some? && found.value.isMcp);
      if mode == NoAccess {
        denied := denied + {grant.name};
      } else {
        modes := modes[grant.name := mode];
      }
      if grant.requireApproval {
        approvals := approvals + {grant.name};
      }
    }
    assert grants[..|grants|] == grants;
    st := State(modes, serverModes, approvals, serverApprovals, denied);
  }

  // ---------- saving and loading again ----------

  lemma {:induction false} GroupHas(caps: seq<Cap>, key: string, cap: Cap)
    ensures cap in GroupOf(caps, key) <==> cap in caps && cap.isMcp && Key(cap) == key
  {
    if caps != [] {
      assert caps == caps[..|caps| - 1] + [caps[|caps| - 1]];
      GroupHas(caps[..|caps| - 1], key, cap);
    }
  }

  lemma {:induction false} BuiltinsHave(caps: seq<Cap>, cap: Cap)
    ensures cap in Builtins(caps) <==> cap in caps && !cap.isMcp
  {
    if caps != [] {
      assert caps == caps[..|caps| - 1] + [caps[|caps| - 1]];
      BuiltinsHave(caps[..|caps| - 1], cap);
    }
  }

  lemma {:induction false} ServersHave(caps: seq<Cap>, key: string)
    ensures key in Servers(caps) <==> exists cap :: cap in caps && cap.isMcp && Key(cap) == key
  {
    if caps != [] {
      assert caps == caps[..|caps| - 1] + [caps[|caps| - 1]];
      ServersHave(caps[..|caps| - 1], key);
    }
  }

  lemma {:induction false} AllOwnHas(st: State, caps: seq<Cap>, grant: Grant)
    ensures grant in AllOwn(st, caps) <==> exists cap :: cap in caps && grant in OwnGrants(st, cap)
  {
    if caps != [] {
      assert caps == caps[..|caps| - 1] + [caps[|caps| - 1]];
      AllOwnHas(st, caps[..|caps| - 1], grant);
    }
  }

  ghost predicate FromServer(st: State, caps: seq<Cap>, key: string, grant: Grant) {
    grant in ServerGrants(st, key, GroupOf(caps, key)) || grant in AllOwn(st, GroupOf(caps, key))
  }

  lemma {:induction false} AllServersHave(st: State, caps: seq<Cap>, keys: seq<string>, grant: Grant)
    ensures grant in AllServers(st, caps, keys) <==> exists key :: key in keys && FromServer(st, caps, key, grant)
  {
    if keys != [] {
      var last := keys[|keys| - 1];
      assert keys == keys[..|keys| - 1] + [last];
      AllServersHave(st, caps, keys[..|keys| - 1], grant);
      assert FromServer(st, caps, last, grant) <==>
             grant in ServerGrants(st, last, GroupOf(caps, last)) || grant in AllOwn(st, GroupOf(caps, last));
    }
  }

  ghost predicate IsServerGrant(st: State, caps: seq<Cap>, key: string, grant: Grant) {
    grant in ServerGrants(st, key, GroupOf(caps, key)) && exists cap :: cap in caps && cap.isMcp && Key(cap) == key
  }

  lemma FromServerIff(st: State, caps: seq<Cap>, key: string, grant: Grant)
    ensures FromServer(st, caps, key, grant) <==>
            grant in ServerGrants(st, key, GroupOf(caps, key)) ||
            exists cap :: cap in caps && cap.isMcp && Key(cap) == key && grant in OwnGrants(st, cap)
  {
    AllOwnHas(st, GroupOf(caps, key), grant);
    forall cap ensures cap in GroupOf(caps, key) <==> cap in caps && cap.isMcp && Key(cap) == key {
      GroupHas(caps, key, cap);
    }
  }

  lemma SavesOwn(st: State, caps: seq<Cap>, cap: Cap, grant: Grant)
    requires cap in caps && grant in OwnGrants(st, cap)
    ensures grant in Saved(st, caps)
  {
    if cap.isMcp {
      FromServerIff(st, caps, Key(cap), grant);
      ServersHave(caps, Key(cap));
      AllServersHave(st, caps, Servers(caps), grant);
    } else {
      BuiltinsHave(caps, cap);
      AllOwnHas(st, Builtins(caps), grant);
    }
  }

  lemma SavesServer(st: State, caps: seq<Cap>, key: string, grant: Grant)
    requires IsServerGrant(st, caps, key, grant)
    ensures grant in Saved(st, caps)
  {
    FromServerIff(st, caps, key, grant);
    ServersHave(caps, key);
    AllServersHave(st, caps, Servers(caps), grant);
  }

  /** A saved grant is a listed capability's own, or that of a server with listed tools: entries for tools
      that are not listed at the moment are not written back. */
  lemma SavesNothingElse(st: State, caps: seq<Cap>, grant: Grant)
    requires grant in Saved(st, caps)
    ensures (exists cap :: cap in caps && grant in OwnGrants(st, cap)) ||
            exists key :: IsServerGrant(st, caps, key, grant)
  {
    AllOwnHas(st, Builtins(caps), grant);
    AllServersHave(st, caps, Servers(caps), grant);
    if cap :| cap in Builtins(caps) && grant in OwnGrants(st, cap) {
      BuiltinsHave(caps, cap);
    } else {
      var key :| key in Servers(caps) && FromServer(st, caps, key, grant);
      FromServerIff(st, caps, key, grant);
      ServersHave(caps, key);
      if grant in ServerGrants(st, key, GroupOf(caps, key)) {
        assert IsServerGrant(st, caps, key, grant);
      }
    }
  }

  // ---------- what loading makes of one name ----------

  /** What is stored about a tool's name. */
  predicate StoredAs(st: State, name: string, mode: Option<Mode>, asks: bool) {
    && (name in st.modes <==> mode.Some? && mode.value != NoAccess)
    && (name in st.modes ==> mode == Some(st.modes[name]))
    && (name in st.denied <==> mode == Some(NoAccess))
    && (name in st.approvals <==> asks)
  }

  lemma {:induction false} LoadsAbsent(grants: seq<Grant>, caps: seq<Cap>, name: string)
    requires forall g :: g in grants ==> g.name != name
    ensures StoredAs(Loaded(grants, caps), name, None, false)
  {
    if grants != [] { LoadsAbsent(grants[..|grants| - 1], caps, name); }
  }

  /** All grants of the name are one and the same. */
  lemma {:induction false} LoadsPresent(grants: seq<Grant>, caps: seq<Cap>, grant: Grant)
    requires grant in grants && !(PREFIX <= grant.name) && grant.alwaysLoaded.Some?
    requires forall g :: g in grants && g.name == grant.name ==> g == grant
    ensures StoredAs(Loaded(grants, caps), grant.name, Some(GrantMode(grant, true)), grant.requireApproval)
  {
    var before, last := grants[..|grants| - 1], grants[|grants| - 1];
    assert grants == before + [last];
    if grant in before {
      LoadsPresent(before, caps, grant);
    } else {
      LoadsAbsent(before, caps, grant.name);
    }
  }

  predicate ServerStoredAs(st: State, server: string, mode: Option<Mode>, asks: Option<bool>) {
    && (server in st.serverModes <==> mode.Some? && mode.value != NoAccess)
    && (server in st.serverModes ==> mode == Some(st.serverModes[server]))
    && (server in st.serverApprovals <==> asks.Some?)
    && (server in st.serverApprovals ==> asks == Some(st.serverApprovals[server]))
  }

  lemma PrefixName(server: string, name: string)
    requires PREFIX <= name && name[|PREFIX|..] == server
    ensures name == PREFIX + server
  {
  }

  lemma {:induction false} LoadsNoServer(grants: seq<Grant>, caps: seq<Cap>, server: string)
    requires forall g :: g in grants ==> g.name != PREFIX + server
    ensures ServerStoredAs(Loaded(grants, caps), server, None, None)
  {
    if grants != [] {
      LoadsNoServer(grants[..|grants| - 1], caps, server);
      var last := grants[|grants| - 1];
      if PREFIX <= last.name && last.name[|PREFIX|..] == server { PrefixName(server, last.name); }
    }
  }

  lemma {:induction false} LoadsServer(grants: seq<Grant>, caps: seq<Cap>, server: string, grant: Grant)
    requires grant in grants && grant.name == PREFIX + server
    requires forall g :: g in grants && g.name == grant.name ==> g == grant
    ensures ServerStoredAs(Loaded(grants, caps), server, Some(GrantMode(grant, true)), Some(grant.requireApproval))
  {
    var before, last := grants[..|grants| - 1], grants[|grants| - 1];
    assert grants == before + [last];
    assert grant.name[|PREFIX|..] == server;
    if grant in before {
      LoadsServer(before, caps, server, grant);
    } else {
      LoadsNoServer(before, caps, server);
    }
    if PREFIX <= last.name && last.name[|PREFIX|..] == server { PrefixName(server, last.name); }
  }

  // ---------- the round trip ----------

  predicate PlainNames(caps: seq<Cap>) {
    forall cap :: cap in caps ==> !(PREFIX <= cap.name)
  }

  lemma OwnRoundTrip(st: State, caps: seq<Cap>, cap: Cap)
    requires UniqueNames(caps) && PlainNames(caps) && cap in caps && Clean(st)
    ensures StoredAs(Loaded(Saved(st, caps), caps), cap.name,
                     if cap.isMcp && cap.name in st.denied then Some(NoAccess)
                     else if cap.name in st.modes then Some(st.modes[cap.name]) else None,
                     !(cap.isMcp && cap.name in st.denied) && cap.name in st.modes && cap.name in st.approvals)
  {
    var grants := Saved(st, caps);
    forall g | g in grants && g.name == cap.name ensures g in OwnGrants(st, cap) {
      SavesNothingElse(st, caps, g);
      forall key ensures !IsServerGrant(st, caps, key, g) {
        assert PREFIX <= PREFIX + key;
      }
    }
    if OwnGrants(st, cap) == [] {
      LoadsAbsent(grants, caps, cap.name);
    } else {
      var g := OwnGrants(st, cap)[0];
      SavesOwn(st, caps, cap, g);
      LoadsPresent(grants, caps, g);
    }
  }

  /** Whether a server's tools ask first: as was set, else if one of its listed tools reaches outside. */
  ghost predicate ServerAsks(st: State, caps: seq<Cap>, server: string) {
    if server in st.serverApprovals then st.serverApprovals[server]
    else exists cap :: cap in caps && cap.isMcp && cap.server == server && cap.egress
  }

  lemma GroupAsks(st: State, caps: seq<Cap>, server: string, grants: seq<Grant>)
    requires server != "" && server != OTHER && Clean(st) && ModeIn(st.serverModes, server) != NoAccess
    requires grants == ServerGrants(st, server, GroupOf(caps, server))
    ensures grants ==
            [Grant(PREFIX + server, true, ServerAsks(st, caps, server), Some(st.serverModes[server] == Always))]
  {
    forall cap ensures cap in GroupOf(caps, server) <==> cap in caps && cap.isMcp && cap.server == server {
      GroupHas(caps, server, cap);
    }
  }

  /** A server with listed tools keeps its mode and whether it asks, unless its id is "other" or it has no mode:
      then neither is stored afterwards. */
  lemma ServerRoundTrip(st: State, caps: seq<Cap>, tool: Cap)
    requires PlainNames(caps) && tool in caps && tool.isMcp && tool.server != "" && Clean(st)
    ensures var st' := Loaded(Saved(st, caps), caps);
            if tool.server == OTHER || tool.server !in st.serverModes then ServerStoredAs(st', tool.server, None, None)
            else ServerStoredAs(st', tool.server, Some(st.serverModes[tool.server]),
                                Some(ServerAsks(st, caps, tool.server)))
  {
    var grants, key := Saved(st, caps), tool.server;
    var own := ServerGrants(st, key, GroupOf(caps, key));
    forall g | g in grants && g.name == PREFIX + key ensures g in own {
      SavesNothingElse(st, caps, g);
      if k :| IsServerGrant(st, caps, k, g) {
        assert g.name[|PREFIX|..] == k && g.name[|PREFIX|..] == key;
      }
    }
    if own == [] {
      LoadsNoServer(grants, caps, key);
    } else {
      GroupAsks(st, caps, key, own);
      assert IsServerGrant(st, caps, key, own[0]);
      SavesServer(st, caps, key, own[0]);
      LoadsServer(grants, caps, key, own[0]);
    }
  }

  /** Saving and loading again keeps what a listed capability may do, unless it is a tool of a server with
      the id "other" that only has what that server was granted: that grant is never written. */
  lemma RoundTripIff(st: State, caps: seq<Cap>, cap: Cap)
    requires UniqueNames(caps) && PlainNames(caps) && cap in caps && Clean(st)
    ensures ModeFor(Loaded(Saved(st, caps), caps), cap) == ModeFor(st, cap) <==>
            !(cap.isMcp && cap.server == OTHER && cap.name !in st.denied && cap.name !in st.modes &&
              OTHER in st.serverModes)
  {
    OwnRoundTrip(st, caps, cap);
    if cap.isMcp && cap.server != "" {
      ServerRoundTrip(st, caps, cap);
    }
  }

  /** What is loaded is clean, whatever was saved. */
  lemma {:induction false} LoadedIsClean(grants: seq<Grant>, caps: seq<Cap>)
    ensures Clean(Loaded(grants, caps))
  {
    if grants != [] { LoadedIsClean(grants[..|grants| - 1], caps); }
  }

  // ---------- what is written ----------

  /** The grant written for a listed capability under its own name: a refusal if it is denied, else its own mode, if
      it has one, as loaded always or on demand, with its approval flag. */
  lemma OwnGrantIff(st: State, caps: seq<Cap>, cap: Cap, g: Grant)
    requires UniqueNames(caps) && PlainNames(caps) && cap in caps && Clean(st) && g.name == cap.name
    ensures g in Saved(st, caps) <==>
            if cap.isMcp && cap.name in st.denied then g == Grant(cap.name, false, false, Some(false))
            else cap.name in st.modes &&
                 g == Grant(cap.name, true, cap.name in st.approvals, Some(match st.modes[cap.name]
                                                                          case Always => true
                                                                          case _ => false))
  {
    if g in Saved(st, caps) {
      SavesNothingElse(st, caps, g);
      forall key ensures !IsServerGrant(st, caps, key, g) {
        assert PREFIX <= PREFIX + key;
      }
    }
    if g in OwnGrants(st, cap) { SavesOwn(st, caps, cap, g); }
  }

  /** What a stored grant means: nothing if it is switched off, else always or on demand as it says; one from before
      that choice existed is on demand for a server's tool and always for a built-in. */
  function Meaning(g: Grant, cap: Cap): Mode {
    if !g.enabled then NoAccess
    else if g.alwaysLoaded == Some(true) then Always
    else if g.alwaysLoaded == Some(false) then OnDemand
    else if cap.isMcp then OnDemand else Always
  }

  lemma {:induction false} LoadsStored(grants: seq<Grant>, caps: seq<Cap>, cap: Cap, g: Grant)
    requires UniqueNames(caps) && PlainNames(caps) && cap in caps && g in grants && g.name == cap.name
    requires forall h :: h in grants && h.name == g.name ==> h == g
    ensures StoredAs(Loaded(grants, caps), cap.name, Some(Meaning(g, cap)), g.requireApproval)
  {
    var before, last := grants[..|grants| - 1], grants[|grants| - 1];
    assert grants == before + [last];
    if g in before {
      LoadsStored(before, caps, cap, g);
    } else {
      LoadsAbsent(before, caps, cap.name);
    }
  }

  /** A capability with a stored grant may do what the grant means, whatever else is stored. */
  lemma LoadedMode(grants: seq<Grant>, caps: seq<Cap>, cap: Cap, g: Grant)
    requires UniqueNames(caps) && PlainNames(caps) && cap in caps && g in grants && g.name == cap.name
    requires forall h :: h in grants && h.name == g.name ==> h == g
    ensures ModeFor(Loaded(grants, caps), cap) == Meaning(g, cap)
    ensures cap.name in Loaded(grants, caps).approvals <==> g.requireApproval
  {
    LoadsStored(grants, caps, cap, g);
  }
}
