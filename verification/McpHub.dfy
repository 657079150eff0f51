/** The table of MCP servers and the table of tool names handed out from them
    (crates/komo-runtime/src/mcp.rs). Both change under hot reload, while a run being accepted may
    hold a list of connections it took before. */
module McpHub {
  import Glob
  import opened Text

  // ------------------------------------------------------------ tool names

  const MAX_TOOL_NAME: nat := 64

  predicate IdentifierChar(c: char) {
    'a' <= c <= 'z' || 'A' <= c <= 'Z' || '0' <= c <= '9' || c == '_' || c == '-'
  }

  function Clean(raw: string): (r: string)
    ensures |r| == |raw| && forall i | 0 <= i < |r| :: IdentifierChar(r[i])
  {
    seq(|raw|, i requires 0 <= i < |raw| => if IdentifierChar(raw[i]) then raw[i] else '_')
  }

  const SMALL := "abcdefghijklmnopqrstuvwxyz"
  const LARGE := "ABCDEFGHIJKLMNOPQRSTUVWXYZ"
  const OTHERS := "0123456789_-"

  /** Letters, digits, and two more. */
  predicate MayStand(c: char) { c in SMALL || c in LARGE || c in OTHERS }

  lemma SmallLetters(c: char)
    ensures c in SMALL <==> 'a' <= c <= 'z'
  {
    if 'a' <= c <= 'z' {
      assert SMALL[c as int - 'a' as int] == c;
    }
  }

  lemma LargeLetters(c: char)
    ensures c in LARGE <==> 'A' <= c <= 'Z'
  {
    if 'A' <= c <= 'Z' {
      assert LARGE[c as int - 'A' as int] == c;
    }
  }

  lemma OtherCharacters(c: char)
    ensures c in OTHERS <==> '0' <= c <= '9' || c == '_' || c == '-'
  {
    if '0' <= c <= '9' {
      assert OTHERS[c as int - '0' as int] == c;
    } else {
      assert OTHERS[10] == '_' && OTHERS[11] == '-';
    }
  }

  lemma IdentifierCharsAre(c: char)
    ensures IdentifierChar(c) <==> MayStand(c)
  {
    hide SMALL, LARGE, OTHERS;
    SmallLetters(c);
    LargeLetters(c);
    OtherCharacters(c);
  }

  /** A character that may stand stays; any other becomes an underscore. */
  lemma CleanIs(raw: string, i: nat)
    requires i < |raw|
    ensures |Clean(raw)| == |raw| && Clean(raw)[i] == if MayStand(raw[i]) then raw[i] else '_'
  {
    IdentifierCharsAre(raw[i]);
  }

  /** The name the model sees; none when it is too long, for a cut would make two tools one. */
  function ToolName(server: string, tool: string): Option<string> {
    var name := "mcp__" + Clean(server) + "__" + Clean(tool);
    if |name| <= MAX_TOOL_NAME then Some(name) else None
  }

  function Strip(s: string, prefix: string): Option<string> {
    if StartsWith(s, prefix) then Some(s[|prefix|..]) else None
  }

  /** A tool has a name if and only if server and tool are 57 characters together at most; tools of one server whose
      names may stand as they are have different ones. */
  lemma ToolNameExactly(server: string, tool: string, other: string)
    ensures ToolName(server, tool).Some? <==> |server| + |tool| <= 57
    ensures ToolName(server, tool).Some? ==> ToolName(server, tool).value == "mcp__" + Clean(server) + "__" + Clean(tool)
    ensures ToolName(server, tool).Some? && ToolName(server, tool) == ToolName(server, other) ==> Clean(tool) == Clean(other)
    ensures (forall c :: c in tool + other ==> MayStand(c)) && ToolName(server, tool).Some? ==>
              (ToolName(server, tool) == ToolName(server, other) ==> tool == other)
  {
    hide Clean, IdentifierChar;
    var front := "mcp__" + Clean(server) + "__";
    if ToolName(server, tool).Some? && ToolName(server, tool) == ToolName(server, other) {
      assert front + Clean(tool) == front + Clean(other);
      assert (front + Clean(tool))[|front|..] == Clean(tool) && (front + Clean(other))[|front|..] == Clean(other);
      if forall c :: c in tool + other ==> MayStand(c) {
        CleanLeaves(tool);
        CleanLeaves(other);
      }
    }
  }

  lemma CleanLeaves(raw: string)
    requires forall c :: c in raw ==> MayStand(c)
    ensures Clean(raw) == raw
  {
    forall i | 0 <= i < |raw| ensures Clean(raw)[i] == raw[i] {
      CleanIs(raw, i);
      assert raw[i] in raw;
    }
  }

  /** Could this name come from that server? Asked before the server has listed its tools. */
  predicate Claims(server: string, name: string) {
    var a := Strip(name, "mcp__");
    a.Some? &&
    var b := Strip(a.value, Clean(server));
    b.Some? &&
    var c := Strip(b.value, "__");
    c.Some? && c.value != []
  }

  lemma StripExactly(s: string, prefix: string, rest: string)
    ensures Strip(s, prefix) == Some(rest) <==> s == prefix + rest
  {
    if Strip(s, prefix) == Some(rest) {
      assert s == s[..|prefix|] + s[|prefix|..];
    }
    if s == prefix + rest {
      assert s[..|prefix|] == prefix && s[|prefix|..] == rest;
    }
  }

  /** A server claims exactly the names of that shape, so it claims every name it can hand out. */
  lemma ClaimsExactly(server: string, name: string)
    ensures Claims(server, name) <==> exists rest: string :: rest != [] && name == "mcp__" + Clean(server) + "__" + rest
  {
    hide Clean, Strip;
    var p, q, u := "mcp__", Clean(server), "__";
    if Claims(server, name) {
      var a := Strip(name, p).value;
      var b := Strip(a, q).value;
      var c := Strip(b, u).value;
      StripExactly(name, p, a);
      StripExactly(a, q, b);
      StripExactly(b, u, c);
      assert p + (q + (u + c)) == p + q + u + c;
    }
    if rest: string :| rest != [] && name == p + q + u + rest {
      assert p + (q + (u + rest)) == p + q + u + rest;
      StripExactly(name, p, q + (u + rest));
      StripExactly(q + (u + rest), q, u + rest);
      StripExactly(u + rest, u, rest);
    }
  }

  lemma OwnNameClaimed(server: string, tool: string)
    requires ToolName(server, tool).Some? && tool != []
    ensures Claims(server, ToolName(server, tool).value)
    ensures |ToolName(server, tool).value| <= MAX_TOOL_NAME
    ensures forall c | c in ToolName(server, tool).value :: IdentifierChar(c)
  {
    ClaimsExactly(server, ToolName(server, tool).value);
    var name := ToolName(server, tool).value;
    assert name == "mcp__" + Clean(server) + "__" + Clean(tool);
    assert forall c | c in "mcp__" :: IdentifierChar(c);
  }

  // ------------------------------------------------------------ connections

  datatype Exposure = Codemode | Direct | Hidden

  datatype Config = Config(transport: string, tools: Option<seq<string>>, readOnly: seq<string>,
                           exposure: Exposure, toolExposure: seq<Glob.Rule<Exposure>>)

  function ExposureOf(config: Config, tool: string): Exposure {
    Glob.Choose(config.toolExposure, tool, config.exposure)
  }

  /** Does the configuration want this tool mounted? */
  predicate Wanted(config: Config, tool: string) {
    (config.tools.Some? ==> tool in config.tools.value) && ExposureOf(config, tool) != Hidden
  }

  class Connection {
    const name: string
    const config: Config
    var closed: bool
    /** Tools listed by the last connect and not handed out yet. */
    var pending: seq<string>

    constructor (name: string, config: Config)
      ensures this.name == name && this.config == config && !closed && pending == []
    {
      this.name, this.config := name, config;
      closed, pending := false, [];
    }

    /** A connect has succeeded. */
    method Adopt(tools: seq<string>)
      modifies this`pending
      ensures pending == tools
    {
      pending := tools;
    }

    method Close()
      modifies this`closed
      ensures closed
    {
      closed := true;
    }
  }

  /** A tool handed to the executor. */
  datatype Tool = Tool(name: string, connection: Connection, remote: string, readOnly: bool, exposure: Exposure)

  /** The names of the tools in a list, each as often as it occurs. */
  function NamesOf(tools: seq<Tool>): multiset<string> {
    if tools == [] then multiset{} else NamesOf(tools[..|tools| - 1]) + multiset{tools[|tools| - 1].name}
  }

  lemma {:induction false} NamesAppend(a: seq<Tool>, b: seq<Tool>)
    ensures NamesOf(a + b) == NamesOf(a) + NamesOf(b)
  {
    if b == [] {
      assert a + b == a;
    } else {
      assert (a + b)[..|a + b| - 1] == a + b[..|b| - 1];
      NamesAppend(a, b[..|b| - 1]);
    }
  }

  /** Why a tool's name is withdrawn. */
  datatype Why = Reconfigured(server: string) | Dropped(server: string)

  datatype Change = Change(added: set<string>, removed: set<string>, withdrawn: map<string, Why>)

  function Reason(servers: map<string, Config>, owner: string): Why {
    if owner in servers then Reconfigured(owner) else Dropped(owner)
  }

  // ------------------------------------------------------------ the hub

  class Hub {
    var connections: map<string, Connection>
    var registered: map<string, string>
    /** Every connection ever made, and every name ever handed out or withdrawn. */
    ghost var created: set<Connection>
    ghost var handedOut: multiset<string>
    ghost var withdrawn: multiset<string>

    /** The owner of every registered name is in the table; whatever is not in the table is closed;
        names handed out and not withdrawn are the registered ones. */
    ghost predicate Valid()
      reads this, created
    {
      Table() && Owners() && Ledger()
    }

    ghost predicate Table()
      reads this`connections, this`created, created`closed
    {
      && (forall n | n in connections ::
            connections[n] in created && connections[n].name == n && !connections[n].closed)
      && (forall c | c in created :: c.closed || (c.name in connections && connections[c.name] == c))
    }

    ghost predicate Owners()
      reads this`connections, this`registered
    {
      forall t | t in registered :: registered[t] in connections
    }

    ghost predicate Ledger()
      reads this`registered, this`handedOut, this`withdrawn
    {
      handedOut == withdrawn + multiset(registered.Keys)
    }

    constructor ()
      ensures Valid() && connections == map[] && registered == map[] && created == {}
      ensures handedOut == multiset{} && withdrawn == multiset{}
    {
      connections, registered := map[], map[];
      created, handedOut, withdrawn := {}, multiset{}, multiset{};
    }

    /** The connections of this moment, by name; later changes of the table do not change the list. */
    method Snapshot() returns (list: seq<Connection>)
      requires Valid()
      ensures Listing(list) && forall c :: c in list <==> c in connections.Values
      ensures forall i, j | 0 <= i < j < |list| :: NotAfter(list[i].name, list[j].name)
    {
      list := [];
      var names := connections.Keys;
      while names != {}
        invariant names <= connections.Keys
        invariant Listing(list)
        invariant forall i | 0 <= i < |list| ::
                    list[i].name in connections.Keys - names && connections[list[i].name] == list[i]
        invariant forall n | n in connections.Keys - names :: connections[n] in list
        invariant forall i, n | 0 <= i < |list| && n in names :: NotAfter(list[i].name, n)
        invariant forall i, j | 0 <= i < j < |list| :: NotAfter(list[i].name, list[j].name)
        decreases names
      {
        ghost var first := FirstOf(names);
        var n :| n in names && forall other :: other in names ==> NotAfter(n, other);
        names := names - {n};
        list := list + [connections[n]];
      }
    }

    /** A list of connections as some earlier moment had them. */
    ghost predicate Listing(list: seq<Connection>)
      reads this
    {
      && (forall i | 0 <= i < |list| :: list[i] in created)
      && (forall i, j | 0 <= i < j < |list| :: list[i] != list[j])
    }

    /** What each listed connection has ready; nothing, once it is closed. */
    ghost function Shares(list: seq<Connection>): seq<Share>
      reads list
    {
      seq(|list|, i requires 0 <= i < |list| reads list => Share(list[i], if list[i].closed then [] else list[i].pending))
    }

    /** Hands out the tools the listed connections have ready. The list may be old; what it may hand
        out is still what is open, and so in the table, now. */
    method NewTools(snapshot: seq<Connection>) returns (tools: seq<Tool>)
      requires Valid() && Listing(snapshot)
      modifies this`registered, this`handedOut, (set c | c in snapshot)`pending
      ensures Valid() && created == old(created) && connections == old(connections) && withdrawn == old(withdrawn)
      ensures Mounted(registered, tools) == MountShares(old(registered), old(Shares(snapshot)))
      ensures handedOut == old(handedOut) + NamesOf(tools)
      // whoever hands out a tool is open, and therefore the connection the table has under that name
      ensures forall i | 0 <= i < |tools| ::
                var c := tools[i].connection;
                c in snapshot && !c.closed && c.name in connections && connections[c.name] == c
      ensures forall i | 0 <= i < |snapshot| ::
                snapshot[i].pending == if snapshot[i].closed then old(snapshot[i].pending) else []
    {
      hide Mount, MountShares, Table, Owners, Ledger, NamesOf;
      NamesNone();
      tools := [];
      ghost var shares := Shares(snapshot);
      MountNoShares(registered, shares);
      var i := 0;
      while i < |snapshot|
        invariant i <= |snapshot|
        invariant Table() && Owners() && Ledger()
        invariant Mounted(registered, tools) == MountShares(old(registered), shares[..i])
        invariant handedOut == old(handedOut) + NamesOf(tools)
        invariant forall j | 0 <= j < i :: snapshot[j].pending == if snapshot[j].closed then old(snapshot[j].pending) else []
        invariant forall j | i <= j < |snapshot| :: snapshot[j].pending == old(snapshot[j].pending)
      {
        var listed := Take(snapshot[i]);
        assert shares[i] == Share(snapshot[i], listed);
        MountNextShare(old(registered), shares, i);
        OpenInTable(snapshot[i]);
        var more := Register(snapshot[i], listed);
        NamesAppend(tools, more);
        tools := tools + more;
        i := i + 1;
      }
      assert shares[..|snapshot|] == shares;
      OwnersAreOpen(old(registered), snapshot, shares);
    }

    lemma OpenInTable(c: Connection)
      requires Table() && c in created
      ensures c.closed || c.name in connections
    {
    }

    lemma OwnersAreOpen(names: map<string, string>, snapshot: seq<Connection>, shares: seq<Share>)
      requires Table() && Listing(snapshot) && |shares| == |snapshot|
      requires forall j | 0 <= j < |shares| ::
                 shares[j].connection == snapshot[j] && (snapshot[j].closed ==> shares[j].listed == [])
      ensures forall k | 0 <= k < |MountShares(names, shares).tools| ::
                var c := MountShares(names, shares).tools[k].connection;
                c in snapshot && !c.closed && c.name in connections && connections[c.name] == c
    {
      hide MountShares;
      forall k | 0 <= k < |MountShares(names, shares).tools|
        ensures var c := MountShares(names, shares).tools[k].connection;
                c in snapshot && !c.closed && c.name in connections && connections[c.name] == c
      {
        var j := MountedFrom(names, shares, k);
        assert shares[j].connection == snapshot[j];
      }
    }

    /** What a connection has ready, taken; a closed one is left alone. */
    method Take(connection: Connection) returns (listed: seq<string>)
      modifies connection`pending
      ensures listed == if connection.closed then [] else old(connection.pending)
      ensures connection.pending == if connection.closed then old(connection.pending) else []
    {
      listed := [];
      if !connection.closed {
        listed := connection.pending;
        connection.pending := [];
      }
    }

    /** One connection's share. */
    method Register(connection: Connection, listed: seq<string>) returns (tools: seq<Tool>)
      requires Owners() && Ledger() && (connection.name in connections || listed == [])
      modifies this`registered, this`handedOut
      ensures Owners() && Ledger()
      ensures Mounted(registered, tools) == Mount(old(registered), connection, listed)
      ensures handedOut == old(handedOut) + NamesOf(tools)
    {
      hide MountOne, Owners, Ledger, NamesOf;
      NamesNone();
      tools := [];
      var k := 0;
      while k < |listed|
        invariant k <= |listed|
        invariant Owners() && Ledger()
        invariant Mounted(registered, tools) == Mount(old(registered), connection, listed[..k])
        invariant handedOut == old(handedOut) + NamesOf(tools)
      {
        assert listed[..k + 1][..k] == listed[..k];
        var more := RegisterOne(connection, listed[k]);
        NamesAppend(tools, more);
        tools := tools + more;
        k := k + 1;
      }
      assert listed[..|listed|] == listed;
    }

    /** A tool hidden, not wanted, with too long a name or with a name already taken is skipped. */
    method RegisterOne(connection: Connection, remote: string) returns (tools: seq<Tool>)
      requires Owners() && Ledger() && connection.name in connections
      modifies this`registered, this`handedOut
      ensures Owners() && Ledger()
      ensures Mounted(registered, tools) == MountOne(old(registered), connection, remote)
      ensures handedOut == old(handedOut) + NamesOf(tools)
    {
      hide ToolName, Wanted, ToolFrom;
      tools := [];
      NamesNone();
      var name := ToolName(connection.name, remote);
      if Wanted(connection.config, remote) && name.Some? && name.value !in registered {
        KeysAdd(registered, name.value, connection.name);
        registered := registered[name.value := connection.name];
        handedOut := handedOut + multiset{name.value};
        tools := [ToolFrom(connection, remote, name.value)];
        NamesOne(connection, remote, name.value);
      }
    }

    /** One server leaves the table: closed, its names withdrawn. */
    method Retire(connection: Connection, servers: map<string, Config>) returns (taken: map<string, Why>)
      requires Valid() && connection.name in connections && connections[connection.name] == connection
      modifies this`connections, this`registered, this`withdrawn, connection`closed
      ensures Valid() && connection.closed
      ensures connections == old(connections) - {connection.name}
      ensures registered == Without(old(registered), {connection.name})
      ensures taken == LostTo(old(registered), {connection.name}, servers)
      ensures withdrawn == old(withdrawn) + multiset(taken.Keys)
    {
      connections := connections - {connection.name};
      connection.Close();
      taken := LostTo(registered, {connection.name}, servers);
      LedgerSplit(registered, {connection.name}, servers);
      withdrawn := withdrawn + multiset(taken.Keys);
      registered := Without(registered, {connection.name});
    }

    /** Installs a new configuration: connections no longer wanted as they are leave the table, are
        closed, and lose their names; what is missing is added. Everything else stays as it is. */
    method Reconcile(servers: map<string, Config>) returns (change: Change)
      requires Valid()
      modifies this, (set c | c in connections.Values)`closed
      ensures Valid() && old(created) <= created && fresh(created - old(created)) && handedOut == old(handedOut)
      // the table is the configuration
      ensures connections.Keys == servers.Keys
      ensures forall n | n in servers :: connections[n].config == servers[n]
      // an unchanged server keeps its very connection, everything else is new, and what left is closed
      ensures change.removed == old(Stale(servers))
      ensures change.added == servers.Keys - (old(connections).Keys - change.removed)
      ensures forall n | n in servers && n !in change.added :: connections[n] == old(connections)[n]
      ensures forall n | n in change.added :: fresh(connections[n])
      ensures forall n | n in change.removed :: old(connections)[n].closed
      // exactly the names of the servers that left are withdrawn, with the reason
      ensures change.withdrawn == LostTo(old(registered), change.removed, servers)
      ensures withdrawn == old(withdrawn) + multiset(change.withdrawn.Keys)
      ensures registered == Without(old(registered), change.removed)
      ensures servers.Keys == old(connections).Keys && change.removed == {} ==> created == old(created)
    {
      hide Table, Owners, Ledger, Without, LostTo;
      var removed := Stale(servers);
      var taken := RetireAll(removed, servers);
      var added := servers.Keys - connections.Keys;
      Admit(servers);
      change := Change(added, removed, taken);
    }

    function Stale(servers: map<string, Config>): set<string>
      reads this
    {
      set n | n in connections && !(n in servers && connections[n].config == servers[n])
    }

    method RetireAll(removed: set<string>, servers: map<string, Config>) returns (taken: map<string, Why>)
      requires Valid() && removed <= connections.Keys
      modifies this`connections, this`registered, this`withdrawn, (set c | c in connections.Values)`closed
      ensures Valid()
      ensures connections == old(connections) - removed
      ensures forall n | n in removed :: old(connections)[n].closed
      ensures registered == Without(old(registered), removed) && taken == LostTo(old(registered), removed, servers)
      ensures withdrawn == old(withdrawn) + multiset(taken.Keys)
    {
      LedgerMeans();
      hide Table, Owners, Ledger, Without, LostTo;
      taken := RetireEach(removed, servers);
      LedgerMoves(old(registered), removed, servers, old(withdrawn), old(handedOut));
    }

    method RetireEach(removed: set<string>, servers: map<string, Config>) returns (taken: map<string, Why>)
      requires Valid() && removed <= connections.Keys
      modifies this`connections, this`registered, this`withdrawn, (set c | c in connections.Values)`closed
      ensures Valid()
      ensures connections == old(connections) - removed
      ensures forall n | n in removed :: old(connections)[n].closed
      ensures registered == Without(old(registered), removed) && taken == LostTo(old(registered), removed, servers)
    {
      hide Table, Owners, Ledger, Without, LostTo, Reason;
      taken := map[];
      var stale := removed;
      ghost var gone := {};
      ghost var table := connections;
      WithoutNobody(registered, servers);
      while stale != {}
        invariant stale <= removed && gone == removed - stale
        invariant connections == table - gone
        invariant forall n | n in gone :: table[n].closed
        invariant Table() && Owners() && Ledger()
        invariant registered == Without(old(registered), gone)
        invariant taken == LostTo(old(registered), gone, servers)
        decreases stale
      {
        var name :| name in stale;
        stale := stale - {name};
        assert connections[name] == table[name];
        NamedByKey(name);
        var mine := Retire(connections[name], servers);
        WithoutStep(old(registered), gone, name, servers);
        taken := taken + mine;
        gone := gone + {name};
      }
      assert gone == removed;
    }

    lemma LedgerMeans()
      requires Ledger()
      ensures handedOut == withdrawn + multiset(registered.Keys)
    {
    }

    lemma LedgerMoves(names: map<string, string>, gone: set<string>, servers: map<string, Config>,
                      before: multiset<string>, out: multiset<string>)
      requires Ledger() && registered == Without(names, gone) && out == handedOut && out == before + multiset(names.Keys)
      ensures withdrawn == before + multiset(LostTo(names, gone, servers).Keys)
    {
      WithdrawnGrows(names, gone, servers, handedOut, before, withdrawn);
    }

    lemma NamedByKey(name: string)
      requires Table() && name in connections
      ensures connections[name].name == name
    {
    }

    method Admit(servers: map<string, Config>)
      requires Valid() && connections.Keys <= servers.Keys
      modifies this`connections, this`created
      ensures Valid() && old(created) <= created && fresh(created - old(created))
      ensures connections.Keys == servers.Keys
      ensures forall n | n in old(connections) :: connections[n] == old(connections)[n]
      ensures forall n | n in servers && n !in old(connections) :: fresh(connections[n]) && connections[n].config == servers[n]
      ensures servers.Keys == old(connections).Keys ==> created == old(created)
    {
      hide Table, Owners;
      var missing := servers.Keys - connections.Keys;
      while missing != {}
        invariant missing <= servers.Keys
        invariant forall n | n in servers :: n in missing <==> n !in connections
        invariant forall n | n in connections :: n in servers
        invariant forall n | n in old(connections) :: n in connections && connections[n] == old(connections)[n]
        invariant forall n | n in connections && n !in old(connections) ::
                    fresh(connections[n]) && connections[n].config == servers[n]
        invariant Table() && Owners() && old(created) <= created && fresh(created - old(created))
        invariant servers.Keys == old(connections).Keys ==> missing == {} && created == old(created)
        decreases missing
      {
        var name :| name in missing;
        missing := missing - {name};
        AdmitOne(name, servers[name]);
      }
    }

    method AdmitOne(name: string, config: Config)
      requires Table() && Owners() && name !in connections
      modifies this`connections, this`created
      ensures Table() && Owners() && old(created) <= created && fresh(created - old(created))
      ensures name in connections && connections == old(connections)[name := connections[name]]
      ensures fresh(connections[name]) && connections[name].config == config
    {
      var connection := new Connection(name, config);
      connections := connections[name := connection];
      created := created + {connection};
    }

    /** Is this the configuration that is installed? */
    predicate Installed(servers: map<string, Config>)
      reads this`connections
    {
      connections.Keys == servers.Keys && forall n | n in servers :: connections[n].config == servers[n]
    }

    /** Installing the configuration that is installed, as it is after any reload of it, changes nothing at all. */
    method ReloadAgain(servers: map<string, Config>) returns (change: Change)
      requires Valid() && Installed(servers)
      modifies this, (set c | c in connections.Values)`closed
      ensures Valid() && Installed(servers)
      ensures change == Change({}, {}, map[])
      ensures connections == old(connections) && registered == old(registered) && created == old(created)
      ensures handedOut == old(handedOut) && withdrawn == old(withdrawn)
      ensures forall c | c in created :: c.closed == old(c.closed)
    {
      hide Table, Owners, Ledger, Without, LostTo;
      ghost var table := connections;
      assert Stale(servers) == {};
      OpenTable();
      change := Reconcile(servers);
      OpenTable();
      assert forall n | n in servers :: connections[n] == table[n];
      assert connections == table;
      SameNames(old(registered), servers);
    }

    lemma TableIsCreated()
      requires Table()
      ensures connections.Values <= created
    {
    }

    lemma OpenTable()
      requires Table()
      ensures forall c | c in connections.Values :: !c.closed
    {
    }

    lemma SameNames(names: map<string, string>, servers: map<string, Config>)
      ensures Without(names, {}) == names && LostTo(names, {}, servers) == map[]
    {
      WithoutNobody(names, servers);
    }
  }

  // ------------------------------------------------------------ any use

  /** `of` and `which` pick a list taken earlier and a connection in it. */
  datatype Use =
    | ToSnapshot
    | ToAdopt(of: nat, which: nat, tools: seq<string>)
    | ToReconcile(servers: map<string, Config>)
    | ToNewTools(of: nat)

  /** Lists of connections taken at any earlier moment. */
  ghost predicate Lists(hub: Hub, snapshots: seq<seq<Connection>>)
    reads hub
  {
    forall i | 0 <= i < |snapshots| :: hub.Listing(snapshots[i])
  }

  /** The configuration that was installed last. */
  function LastServers(uses: seq<Use>): map<string, Config> {
    if uses == [] then map[]
    else if uses[|uses| - 1].ToReconcile? then uses[|uses| - 1].servers
    else LastServers(uses[..|uses| - 1])
  }

  function Listings(uses: seq<Use>): nat {
    if uses == [] then 0 else Listings(uses[..|uses| - 1]) + if uses[|uses| - 1].ToSnapshot? then 1 else 0
  }

  /** Everything that open connections of the list had ready has been asked for. */
  predicate Emptied(list: seq<Connection>)
    reads list
  {
    forall c :: c in list && !c.closed ==> c.pending == []
  }

  method UseOnce(hub: Hub, snapshots: seq<seq<Connection>>, use: Use)
    returns (later: seq<seq<Connection>>, out: multiset<string>, back: multiset<string>)
    requires hub.Valid() && Lists(hub, snapshots)
    modifies hub, hub.created`pending, hub.created`closed
    ensures hub.Valid() && Lists(hub, later) && old(hub.created) <= hub.created
    ensures fresh(hub.created - old(hub.created))
    ensures hub.handedOut == old(hub.handedOut) + out && hub.withdrawn == old(hub.withdrawn) + back
    ensures if use.ToReconcile? then hub.Installed(use.servers) else hub.connections == old(hub.connections)
    ensures snapshots <= later && |later| == |snapshots| + if use.ToSnapshot? then 1 else 0
    ensures use.ToSnapshot? ==> forall c :: c in later[|snapshots|] <==> c in hub.connections.Values
    ensures use.ToNewTools? && use.of < |snapshots| ==> Emptied(snapshots[use.of])
    ensures use.ToAdopt? && use.of < |snapshots| && use.which < |snapshots[use.of]| ==> snapshots[use.of][use.which].pending == use.tools
  {
    later, out, back := snapshots, multiset{}, multiset{};
    match use {
      case ToSnapshot => later := UseSnapshot(hub, snapshots);
      case ToAdopt(of, which, tools) => UseAdopt(hub, snapshots, of, which, tools);
      case ToReconcile(servers) => back := UseReconcile(hub, snapshots, servers);
      case ToNewTools(of) => out := UseNewTools(hub, snapshots, of);
    }
  }

  method UseSnapshot(hub: Hub, snapshots: seq<seq<Connection>>) returns (later: seq<seq<Connection>>)
    requires hub.Valid() && Lists(hub, snapshots)
    ensures Lists(hub, later)
    ensures |later| == |snapshots| + 1 && later[..|snapshots|] == snapshots
    ensures forall c :: c in later[|snapshots|] <==> c in hub.connections.Values
  {
    var list := hub.Snapshot();
    later := snapshots + [list];
  }

  method UseAdopt(hub: Hub, snapshots: seq<seq<Connection>>, of: nat, which: nat, tools: seq<string>)
    requires hub.Valid() && Lists(hub, snapshots)
    modifies hub.created`pending
    ensures hub.Valid() && Lists(hub, snapshots)
    ensures of < |snapshots| && which < |snapshots[of]| ==> snapshots[of][which].pending == tools
  {
    if of < |snapshots| && which < |snapshots[of]| {
      assert hub.Listing(snapshots[of]);
      snapshots[of][which].Adopt(tools);
    }
  }

  method UseReconcile(hub: Hub, snapshots: seq<seq<Connection>>, servers: map<string, Config>) returns (back: multiset<string>)
    requires hub.Valid() && Lists(hub, snapshots)
    modifies hub, hub.created`closed
    ensures hub.Valid() && Lists(hub, snapshots) && old(hub.created) <= hub.created
    ensures fresh(hub.created - old(hub.created)) && hub.Installed(servers)
    ensures hub.handedOut == old(hub.handedOut) && hub.withdrawn == old(hub.withdrawn) + back
  {
    hub.TableIsCreated();
    hide Hub.Owners, Hub.Ledger, Hub.Table;
    var change := hub.Reconcile(servers);
    back := multiset(change.withdrawn.Keys);
  }

  method UseNewTools(hub: Hub, snapshots: seq<seq<Connection>>, of: nat) returns (out: multiset<string>)
    requires hub.Valid() && Lists(hub, snapshots)
    modifies hub`registered, hub`handedOut, hub.created`pending
    ensures hub.Valid() && Lists(hub, snapshots)
    ensures hub.handedOut == old(hub.handedOut) + out
    ensures of < |snapshots| ==> Emptied(snapshots[of])
  {
    hide Hub.Owners, Hub.Ledger, Hub.Table, NamesOf, MountShares;
    out := multiset{};
    if of < |snapshots| {
      assert hub.Listing(snapshots[of]);
      var tools := hub.NewTools(snapshots[of]);
      out := NamesOf(tools);
    }
  }

  /** Main result, for every sequence of connects, reloads, listings and hand-outs, over lists however old:
      the names of the tools handed out are the names withdrawn and the names in the table, each counted; and the
      table of servers is the configuration installed last. */
  method AnyUse(uses: seq<Use>)
    returns (hub: Hub, out: multiset<string>, back: multiset<string>, snapshots: seq<seq<Connection>>)
    ensures fresh(hub) && hub.Valid()
    ensures out == back + multiset(hub.registered.Keys)
    ensures hub.Installed(LastServers(uses)) && |snapshots| == Listings(uses)
    ensures uses != [] && uses[|uses| - 1].ToNewTools? && uses[|uses| - 1].of < |snapshots| ==> Emptied(snapshots[uses[|uses| - 1].of])
  {
    hide Emptied;
    hub := new Hub();
    snapshots, out, back := [], multiset{}, multiset{};
    for i := 0 to |uses|
      invariant fresh(hub) && fresh(hub.created) && hub.Valid() && Lists(hub, snapshots)
      invariant hub.handedOut == out && hub.withdrawn == back
      invariant hub.Installed(LastServers(uses[..i])) && |snapshots| == Listings(uses[..i])
      invariant i > 0 && uses[i - 1].ToNewTools? && uses[i - 1].of < |snapshots| ==> Emptied(snapshots[uses[i - 1].of])
    {
      var more, less;
      assert uses[..i + 1][..i] == uses[..i];
      snapshots, more, less := UseOnce(hub, snapshots, uses[i]);
      out, back := out + more, back + less;
    }
    assert uses[..|uses|] == uses;
  }

  // ------------------------------------------------------------ what is mounted

  datatype Share = Share(connection: Connection, listed: seq<string>)

  datatype Mounted = Mounted(names: map<string, string>, tools: seq<Tool>)

  function ToolFrom(c: Connection, remote: string, name: string): Tool {
    Tool(name, c, remote, remote in c.config.readOnly, ExposureOf(c.config, remote))
  }

  lemma NamesNone()
    ensures NamesOf([]) == multiset{}
  {
  }

  lemma NamesOne(c: Connection, remote: string, name: string)
    ensures NamesOf([ToolFrom(c, remote, name)]) == multiset{name}
  {
    var tools := [ToolFrom(c, remote, name)];
    assert tools[..0] == [];
  }

  function MountOne(names: map<string, string>, c: Connection, remote: string): Mounted {
    var name := ToolName(c.name, remote);
    if Wanted(c.config, remote) && name.Some? && name.value !in names
    then Mounted(names[name.value := c.name], [ToolFrom(c, remote, name.value)])
    else Mounted(names, [])
  }

  function Mount(names: map<string, string>, c: Connection, listed: seq<string>): Mounted {
    if listed == [] then Mounted(names, [])
    else
      var m := Mount(names, c, listed[..|listed| - 1]);
      var n := MountOne(m.names, c, listed[|listed| - 1]);
      Mounted(n.names, m.tools + n.tools)
  }

  lemma KeysAdd(names: map<string, string>, name: string, owner: string)
    requires name !in names
    ensures multiset(names[name := owner].Keys) == multiset(names.Keys) + multiset{name}
  {
    assert names[name := owner].Keys == names.Keys + {name};
  }

  function MountShares(names: map<string, string>, shares: seq<Share>): Mounted {
    if shares == [] then Mounted(names, [])
    else
      var m := MountShares(names, shares[..|shares| - 1]);
      var last := shares[|shares| - 1];
      var n := Mount(m.names, last.connection, last.listed);
      Mounted(n.names, m.tools + n.tools)
  }

  /** The table of names grows by the tools handed out and by nothing else: each under a name that
      was free, owned by its own server, and no name twice. */
  ghost predicate Grows(names: map<string, string>, m: Mounted) {
    && Extends(names, m.names)
    && (forall i | 0 <= i < |m.tools| :: Sound(names, m.names, m.tools[i]))
    && Accounted(names, m)
    && (forall i, j | 0 <= i < j < |m.tools| :: m.tools[i].name != m.tools[j].name)
  }

  lemma MountOneGrows(names: map<string, string>, c: Connection, remote: string)
    ensures Grows(names, MountOne(names, c, remote))
    ensures Wanted(c.config, remote) && ToolName(c.name, remote).Some? ==>
              ToolName(c.name, remote).value in MountOne(names, c, remote).names
    ensures FromOnly(c, MountOne(names, c, remote).tools)
  {
    hide ToolName, Wanted;
    var m := MountOne(names, c, remote);
    if m.tools != [] {
      assert m.tools[0].name in m.names;
    }
  }

  predicate FromOnly(c: Connection, tools: seq<Tool>) {
    forall i | 0 <= i < |tools| :: tools[i].connection == c
  }

  lemma {:induction false} MountGrows(names: map<string, string>, c: Connection, listed: seq<string>)
    ensures Grows(names, Mount(names, c, listed)) && FromOnly(c, Mount(names, c, listed).tools)
    ensures forall r | r in listed && Wanted(c.config, r) && ToolName(c.name, r).Some? ::
              ToolName(c.name, r).value in Mount(names, c, listed).names
    decreases |listed|
  {
    hide ToolName, Wanted, Grows, MountOne;
    if listed == [] {
      GrowsNothing(names);
    } else {
      var rest, remote := listed[..|listed| - 1], listed[|listed| - 1];
      var m := Mount(names, c, rest);
      MountGrows(names, c, rest);
      MountOneGrows(m.names, c, remote);
      var n := MountOne(m.names, c, remote);
      GrowsTwice(names, m, n);
      GrowsKeeps(m.names, n);
      forall r | r in listed && Wanted(c.config, r) && ToolName(c.name, r).Some?
        ensures ToolName(c.name, r).value in n.names
      {
        if r != remote { assert r in rest; }
      }
    }
  }

  lemma GrowsNothing(names: map<string, string>)
    ensures Grows(names, Mounted(names, []))
  {
  }

  predicate Sound(names: map<string, string>, after: map<string, string>, tool: Tool) {
    && tool.name !in names && tool.name in after && after[tool.name] == tool.connection.name
    && tool == ToolFrom(tool.connection, tool.remote, tool.name)
    && ToolName(tool.connection.name, tool.remote) == Some(tool.name)
    && Wanted(tool.connection.config, tool.remote)
  }

  predicate Extends(names: map<string, string>, after: map<string, string>) {
    forall t | t in names :: t in after && after[t] == names[t]
  }

  ghost predicate Accounted(names: map<string, string>, m: Mounted) {
    forall t | t in m.names && t !in names :: exists i :: 0 <= i < |m.tools| && m.tools[i].name == t
  }

  lemma GrowsTwice(names: map<string, string>, a: Mounted, b: Mounted)
    requires Grows(names, a) && Grows(a.names, b)
    ensures Grows(names, Mounted(b.names, a.tools + b.tools))
  {
    hide Sound, Accounted;
    AccountedTwice(names, a, b);
    SoundTwice(names, a, b);
    DistinctTwice(names, a, b);
  }

  lemma SoundTwice(names: map<string, string>, a: Mounted, b: Mounted)
    requires Grows(names, a) && Grows(a.names, b)
    ensures Extends(names, b.names)
    ensures forall i | 0 <= i < |a.tools + b.tools| :: Sound(names, b.names, (a.tools + b.tools)[i])
  {
    hide ToolName, Wanted, ToolFrom, Accounted;
    forall i | 0 <= i < |a.tools + b.tools|
      ensures Sound(names, b.names, (a.tools + b.tools)[i])
    {
      var tool := (a.tools + b.tools)[i];
      if i < |a.tools| {
        assert tool == a.tools[i] && Sound(names, a.names, tool);
      } else {
        assert tool == b.tools[i - |a.tools|] && Sound(a.names, b.names, tool);
      }
    }
  }

  lemma DistinctTwice(names: map<string, string>, a: Mounted, b: Mounted)
    requires Grows(names, a) && Grows(a.names, b)
    ensures forall i, j | 0 <= i < j < |a.tools + b.tools| :: (a.tools + b.tools)[i].name != (a.tools + b.tools)[j].name
  {
    hide ToolName, Wanted, ToolFrom, Accounted, Extends;
    var tools := a.tools + b.tools;
    forall i, j | 0 <= i < j < |tools|
      ensures tools[i].name != tools[j].name
    {
      if j < |a.tools| {
        assert tools[i] == a.tools[i] && tools[j] == a.tools[j];
      } else if i < |a.tools| {
        assert tools[i] == a.tools[i] && Sound(names, a.names, a.tools[i]);
        var k := j - |a.tools|;
        assert tools[j] == b.tools[k] && Sound(a.names, b.names, b.tools[k]);
      } else {
        assert tools[i] == b.tools[i - |a.tools|] && tools[j] == b.tools[j - |a.tools|];
      }
    }
  }

  lemma AccountedTwice(names: map<string, string>, a: Mounted, b: Mounted)
    requires Accounted(names, a) && Accounted(a.names, b)
    ensures Accounted(names, Mounted(b.names, a.tools + b.tools))
  {
    var tools := a.tools + b.tools;
    forall t | t in b.names && t !in names
      ensures exists i :: 0 <= i < |tools| && tools[i].name == t
    {
      if t in a.names {
        var i :| 0 <= i < |a.tools| && a.tools[i].name == t;
        assert tools[i].name == t;
      } else {
        var i :| 0 <= i < |b.tools| && b.tools[i].name == t;
        assert tools[|a.tools| + i].name == t;
      }
    }
  }

  /** What `NewTools` hands out is sound and complete: it only adds, every name handed out is new and
      unique and named and configured as it should be, and whatever an open connection had ready,
      wanted and nameable, is registered afterwards. */
  lemma {:induction false} MountSharesGrows(names: map<string, string>, shares: seq<Share>)
    ensures Grows(names, MountShares(names, shares))
    ensures forall i, r | 0 <= i < |shares| && r in shares[i].listed
                && Wanted(shares[i].connection.config, r) && ToolName(shares[i].connection.name, r).Some? ::
              ToolName(shares[i].connection.name, r).value in MountShares(names, shares).names
    decreases |shares|
  {
    hide ToolName, Wanted, Grows, Mount;
    if shares == [] {
      GrowsNothing(names);
    } else {
      var rest := shares[..|shares| - 1];
      var last := shares[|shares| - 1];
      var m := MountShares(names, rest);
      var n := Mount(m.names, last.connection, last.listed);
      MountSharesGrows(names, rest);
      MountGrows(m.names, last.connection, last.listed);
      GrowsTwice(names, m, n);
      GrowsKeeps(m.names, n);
      forall i, r | 0 <= i < |shares| && r in shares[i].listed
                && Wanted(shares[i].connection.config, r) && ToolName(shares[i].connection.name, r).Some?
        ensures ToolName(shares[i].connection.name, r).value in MountShares(names, shares).names
      {
        if i < |rest| { assert rest[i] == shares[i]; }
      }
    }
  }

  lemma MountNoShares(names: map<string, string>, shares: seq<Share>)
    ensures MountShares(names, shares[..0]) == Mounted(names, [])
  {
  }

  lemma MountNextShare(names: map<string, string>, shares: seq<Share>, i: nat)
    requires i < |shares|
    ensures var m := MountShares(names, shares[..i]);
            var n := Mount(m.names, shares[i].connection, shares[i].listed);
            MountShares(names, shares[..i + 1]) == Mounted(n.names, m.tools + n.tools)
  {
    assert shares[..i + 1][..i] == shares[..i];
  }

  /** Main result, without the rules' own names: every tool handed out has the exposure its rules give it, which is
      not hidden, is one its configuration lists, if that lists any, is read-only exactly if that says so,
      and is named after its server and itself. */
  lemma HandedOutIs(names: map<string, string>, shares: seq<Share>, k: nat)
    requires k < |MountShares(names, shares).tools|
    ensures var tool := MountShares(names, shares).tools[k];
            var config := tool.connection.config;
            && tool.exposure == Glob.Choose(config.toolExposure, tool.remote, config.exposure) && !tool.exposure.Hidden?
            && (config.tools.Some? ==> tool.remote in config.tools.value)
            && (tool.readOnly <==> tool.remote in config.readOnly)
            && tool.name == "mcp__" + Clean(tool.connection.name) + "__" + Clean(tool.remote)
            && |tool.name| <= 64 && tool.name !in names
  {
    hide MountShares, Clean;
    MountSharesGrows(names, shares);
    assert Sound(names, MountShares(names, shares).names, MountShares(names, shares).tools[k]);
  }

  /** And nothing that may be handed out is passed over: its name is taken afterwards. */
  lemma NothingPassedOver(names: map<string, string>, shares: seq<Share>, i: nat, remote: string)
    requires i < |shares| && remote in shares[i].listed
    requires var c := shares[i].connection;
             && Glob.Choose(c.config.toolExposure, remote, c.config.exposure) != Hidden
             && (c.config.tools.Some? ==> remote in c.config.tools.value)
             && |c.name| + |remote| <= 57
    ensures "mcp__" + Clean(shares[i].connection.name) + "__" + Clean(remote) in MountShares(names, shares).names
  {
    hide MountShares, Clean, Glob.Choose;
    MountSharesGrows(names, shares);
    ToolNameExactly(shares[i].connection.name, remote, remote);
  }

  /** Every tool handed out was ready on one of the connections asked. */
  lemma {:induction false} MountedFrom(names: map<string, string>, shares: seq<Share>, k: nat) returns (i: nat)
    requires k < |MountShares(names, shares).tools|
    ensures i < |shares| && MountShares(names, shares).tools[k].connection == shares[i].connection && shares[i].listed != []
    decreases |shares|
  {
    hide Mount, Grows;
    var rest, last := shares[..|shares| - 1], shares[|shares| - 1];
    var m := MountShares(names, rest);
    if k < |m.tools| {
      i := MountedFrom(names, rest, k);
    } else {
      i := |shares| - 1;
      MountGrows(m.names, last.connection, last.listed);
      MountNothing(m.names, last.connection);
    }
  }

  lemma MountNothing(names: map<string, string>, c: Connection)
    ensures Mount(names, c, []).tools == []
  {
  }

  lemma GrowsKeeps(names: map<string, string>, m: Mounted)
    requires Grows(names, m)
    ensures forall t | t in names :: t in m.names
  {
  }

  // ------------------------------------------------------------ what is withdrawn

  function Without(names: map<string, string>, gone: set<string>): map<string, string> {
    map t | t in names && names[t] !in gone :: names[t]
  }

  function LostTo(names: map<string, string>, gone: set<string>, servers: map<string, Config>): map<string, Why> {
    map t | t in names && names[t] in gone :: Reason(servers, names[t])
  }

  /** What is said of a withdrawn name: whose it was, and whether that server is still configured. */
  lemma WithdrawnBecause(names: map<string, string>, gone: set<string>, servers: map<string, Config>, name: string)
    ensures name in LostTo(names, gone, servers) <==> name in names && names[name] in gone
    ensures name in LostTo(names, gone, servers) ==>
              var why := LostTo(names, gone, servers)[name];
              why.server == names[name] && (why.Reconfigured? <==> names[name] in servers)
    ensures name in Without(names, gone) <==> name in names && names[name] !in gone
    ensures name in Without(names, gone) ==> Without(names, gone)[name] == names[name]
  {
  }

  lemma WithoutNobody(names: map<string, string>, servers: map<string, Config>)
    ensures Without(names, {}) == names && LostTo(names, {}, servers) == map[]
  {
  }

  lemma WithoutStep(names: map<string, string>, gone: set<string>, name: string, servers: map<string, Config>)
    ensures Without(Without(names, gone), {name}) == Without(names, gone + {name})
    ensures LostTo(names, gone, servers) + LostTo(Without(names, gone), {name}, servers) == LostTo(names, gone + {name}, servers)
  {
  }

  /** With nothing handed out, what the ledger gains on one side it has lost on the other. */
  lemma WithdrawnGrows(names: map<string, string>, gone: set<string>, servers: map<string, Config>,
                       handedOut: multiset<string>, before: multiset<string>, after: multiset<string>)
    requires handedOut == before + multiset(names.Keys)
    requires handedOut == after + multiset(Without(names, gone).Keys)
    ensures after == before + multiset(LostTo(names, gone, servers).Keys)
  {
    hide Without, LostTo;
    LedgerSplit(names, gone, servers);
    var kept, lost := multiset(Without(names, gone).Keys), multiset(LostTo(names, gone, servers).Keys);
    assert after + kept == (before + lost) + kept;
    Cancel(after, before + lost, kept);
  }

  lemma Cancel(a: multiset<string>, b: multiset<string>, c: multiset<string>)
    requires a + c == b + c
    ensures a == b
  {
    forall x ensures a[x] == b[x] {
      assert (a + c)[x] == (b + c)[x];
    }
  }

  /** A name is either kept or withdrawn. */
  lemma LedgerSplit(names: map<string, string>, gone: set<string>, servers: map<string, Config>)
    ensures multiset(names.Keys) == multiset(Without(names, gone).Keys) + multiset(LostTo(names, gone, servers).Keys)
  {
    var kept, lost := Without(names, gone).Keys, LostTo(names, gone, servers).Keys;
    assert names.Keys == kept + lost && kept !! lost;
  }
}
