/** The configurations of one rendering do not get in each other's way: ids, process keys, config paths,
    log paths and admin ports are all different. */
module DirectApart {
  import opened Wrappers
  import opened Text
  import opened Order
  import opened Lists
  import opened Validate
  import opened Rules
  import opened DirectRender
  import opened DirectPartition
  import FrpConfig
  import AdminPorts
  import Decimal
  import ProcessManager

  // ---------- ids that survive as file name parts ----------

  /** What node ids and generated rule ids are made of. */
  predicate SafeId(v: string) {
    v != "" && forall i | 0 <= i < |v| :: IsIdChar(v[i])
  }

  ghost predicate SafeRooms(rooms: seq<RoomRule>) {
    forall q | q in rooms :: SafeId(q.id)
  }

  lemma SafeIdIsKey(v: string)
    requires SafeId(v)
    ensures ProcessManager.ProcessKey(v) == v && SafeFilePart(v) == v
  {
    assert IsIdChar(v[0]) && IsIdChar(v[|v| - 1]);
  }

  lemma RoomProcessIdFacts(a: string, b: string)
    ensures SafeId(RoomProcessId(a))
    ensures SafeId(a) && SafeId(b) && RoomProcessId(a) == RoomProcessId(b) ==> a == b
  {
    assert RoomProcessId(a)[5..] == SafeFilePart(a) && RoomProcessId(b)[5..] == SafeFilePart(b);
    assert RoomProcessId(a)[..5] == "room-";
    forall i | 0 <= i < |RoomProcessId(a)| ensures IsIdChar(RoomProcessId(a)[i]) {
      if i >= 5 {
        assert RoomProcessId(a)[i] == SafeFilePart(a)[i - 5];
      }
    }
  }

  lemma RoomProcessesDiffer(rooms: seq<RoomRule>)
    requires DistinctRoomIds(rooms) && SafeRooms(rooms)
    ensures DistinctProcesses(rooms) && Distinct(RoomIds(rooms))
  {
    forall i, j | 0 <= i < j < |rooms| ensures RoomProcessId(rooms[i].id) != RoomProcessId(rooms[j].id) {
      assert rooms[i] in rooms && rooms[j] in rooms;
      RoomProcessIdFacts(rooms[i].id, rooms[j].id);
    }
  }

  // ---------- the process ids ----------

  lemma ConcatDistinct(a: seq<string>, b: seq<string>)
    requires Distinct(a) && Distinct(b) && forall x | x in a :: x !in b
    ensures Distinct(a + b)
  {
    forall i, j | 0 <= i < j < |a + b| ensures (a + b)[i] != (a + b)[j] {
      if i < |a| <= j {
        assert a[i] in a && b[j - |a|] in b;
      }
    }
  }

  lemma NodesAndRoomsDiffer(rules: seq<PortRule>, rooms: seq<RoomRule>)
    requires NoClash(rules, rooms) && DistinctRoomIds(rooms) && SafeRooms(rooms)
    ensures Distinct(SortedSet(NodeIds(rules)) + RoomIds(rooms))
  {
    SortedSetFacts(NodeIds(rules));
    RoomProcessesDiffer(rooms);
    forall x | x in SortedSet(NodeIds(rules)) ensures x !in RoomIds(rooms) {
      var r :| r in rules && r.nodeId == x;
      forall i | 0 <= i < |rooms| ensures RoomIds(rooms)[i] != x {
        assert rooms[i] in rooms;
      }
    }
    ConcatDistinct(SortedSet(NodeIds(rules)), RoomIds(rooms));
  }

  lemma ProcessIdsDiffer(d: Data, rules: seq<PortRule>, rooms: seq<RoomRule>)
    requires NoClash(rules, rooms) && DistinctRoomIds(rooms) && SafeRooms(rooms)
    ensures Distinct(ProcessIds(d, rules, rooms))
  {
    NodesAndRoomsDiffer(rules, rooms);
    var ids := SortedSet(NodeIds(rules)) + RoomIds(rooms);
    DirectPartition.SortKeepsDistinct(if ids == [] then FallbackIds(d) else ids, DefaultFirst);
  }

  lemma FallbackSafe(d: Data)
    requires NodesKeyed(d.nodes)
    ensures forall id | id in FallbackIds(d) :: SafeId(id)
  {
    assert SafeId(DEFAULT_NODE_ID);
    assert forall k | k in d.nodes :: SafeId(d.nodes[k].id);
  }

  lemma ProcessIdsSafe(d: Data, rules: seq<PortRule>, rooms: seq<RoomRule>)
    requires NodesKeyed(d.nodes) && forall r | r in rules :: r.nodeId in d.nodes
    ensures forall id | id in ProcessIds(d, rules, rooms) :: SafeId(id)
  {
    var nodes := SortedSet(NodeIds(rules));
    SortedSetFacts(NodeIds(rules));
    FallbackSafe(d);
    forall id | id in nodes + RoomIds(rooms) ensures SafeId(id) {
      if id in RoomIds(rooms) {
        var i :| 0 <= i < |rooms| && RoomIds(rooms)[i] == id;
        RoomProcessIdFacts(rooms[i].id, "");
      } else {
        var r :| r in rules && r.nodeId == id;
        assert IdPattern(id, 2);
      }
    }
    SortMembers(if nodes + RoomIds(rooms) == [] then FallbackIds(d) else nodes + RoomIds(rooms), DefaultFirst);
  }

  // ---------- paths ----------

  lemma SamePrefix(p: string, x: string, y: string)
    requires p + x == p + y
    ensures x == y
  {
    assert (p + x)[|p|..] == x && (p + y)[|p|..] == y;
  }

  lemma SameMiddle(p: string, x: string, y: string, q: string)
    requires p + x + q == p + y + q
    ensures x == y
  {
    assert |x| == |y|;
    assert (p + x + q)[|p|..|p| + |x|] == x && (p + y + q)[|p|..|p| + |y|] == y;
  }

  lemma PathsDiffer(dir: string, whole: string, pre: string, post: string, a: string, b: string)
    requires a != b && |pre| + |post| >= |whole| && a != "" && b != ""
    ensures dir + "/" + whole != dir + "/" + (pre + a + post)
    ensures dir + "/" + (pre + a + post) != dir + "/" + (pre + b + post)
  {
    if dir + "/" + whole == dir + "/" + (pre + a + post) {
      SamePrefix(dir + "/", whole, pre + a + post);
      assert false;
    }
    if dir + "/" + (pre + a + post) == dir + "/" + (pre + b + post) {
      SamePrefix(dir + "/", pre + a + post, pre + b + post);
      SameMiddle(pre, a, b, post);
      assert false;
    }
  }

  lemma ConfigPathsDiffer(frpc: Frpc, a: string, b: string)
    requires SafeId(a) && SafeId(b) && a != b
    ensures ConfigPath(frpc, a) != ConfigPath(frpc, b)
  {
    SafeIdIsKey(a);
    SafeIdIsKey(b);
    PathsDiffer(frpc.workDir, "frpc.toml", "frpc.", ".toml", a, b);
    PathsDiffer(frpc.workDir, "frpc.toml", "frpc.", ".toml", b, a);
  }

  lemma LogPathsDiffer(frpc: Frpc, a: string, b: string)
    requires SafeId(a) && SafeId(b) && a != b
    ensures LogPath(frpc, a) != LogPath(frpc, b)
  {
    SafeIdIsKey(a);
    SafeIdIsKey(b);
    PathsDiffer(frpc.workDir, "frpc.log", "frpc.", ".log", a, b);
    PathsDiffer(frpc.workDir, "frpc.log", "frpc.", ".log", b, a);
  }

  // ---------- the configurations ----------

  /** Nothing two configurations could fight over. */
  ghost predicate Apart(a: Rendered, b: Rendered) {
    && a.nodeId != b.nodeId && a.configPath != b.configPath && a.logPath != b.logPath
    && a.client.adminPort != b.client.adminPort
    && ProcessManager.ProcessKey(a.nodeId) != ProcessManager.ProcessKey(b.nodeId)
  }

  lemma TwoApart(d: Data, rules: seq<PortRule>, rooms: seq<RoomRule>, a: string, b: string, portA: int, portB: int)
    requires Configure(d, rules, rooms, a, portA).Ok? && Configure(d, rules, rooms, b, portB).Ok?
    requires SafeId(a) && SafeId(b) && a != b && portA != portB
    ensures Apart(Configure(d, rules, rooms, a, portA).value, Configure(d, rules, rooms, b, portB).value)
  {
    ConfigureContents(d, rules, rooms, a, portA);
    ConfigureContents(d, rules, rooms, b, portB);
    SafeIdIsKey(a);
    SafeIdIsKey(b);
    ConfigPathsDiffer(d.frpc, a, b);
    LogPathsDiffer(d.frpc, a, b);
  }

  /** The hypotheses under which direct mode keeps processes apart: stored states are consistent, room
      rules carry generated ids, and no node is named like an active room's process. */
  ghost predicate WellNamed(d: Data) {
    && Consistent(d) && SafeRooms(ActiveRooms(d)) && NoClash(ActivePorts(d), ActiveRooms(d))
  }

  lemma ActiveNodesPresent(d: Data)
    requires PortRulesKeyed(d.portRules) && NodesPresent(d.portRules, d.nodes)
    ensures forall r | r in ActivePorts(d) :: r.nodeId in d.nodes
  {
    ActivePortsFacts(d);
    forall r | r in ActivePorts(d) ensures r.nodeId in d.nodes {
      assert r.id in d.portRules;
    }
  }

  lemma RenderedIdsSafe(d: Data)
    requires Consistent(d)
    ensures forall id | id in RenderedIds(d) :: SafeId(id)
  {
    ActiveNodesPresent(d);
    ProcessIdsSafe(d, ActivePorts(d), ActiveRooms(d));
  }

  lemma RenderedIdsDiffer(d: Data)
    requires WellNamed(d)
    ensures Distinct(RenderedIds(d))
  {
    ActiveRoomsFacts(d);
    ProcessIdsDiffer(d, ActivePorts(d), ActiveRooms(d));
  }

  lemma AllApart(d: Data, rules: seq<PortRule>, rooms: seq<RoomRule>, ids: seq<string>, ports: map<string, int>)
    requires forall id | id in ids :: id in ports && SafeId(id)
    requires forall a, b | a in ports && b in ports && a != b :: ports[a] != ports[b]
    requires Distinct(ids) && ConfigureAll(d, rules, rooms, ids, ports).Ok?
    ensures var configs := ConfigureAll(d, rules, rooms, ids, ports).value;
            forall i, j | 0 <= i < j < |configs| :: Apart(configs[i], configs[j])
  {
    var configs := ConfigureAll(d, rules, rooms, ids, ports).value;
    forall i, j | 0 <= i < j < |configs| ensures Apart(configs[i], configs[j]) {
      assert ids[i] in ids && ids[j] in ids && ids[i] != ids[j];
      ConfiguredAt(d, rules, rooms, ids, ports, i);
      ConfiguredAt(d, rules, rooms, ids, ports, j);
      TwoApart(d, rules, rooms, ids[i], ids[j], ports[ids[i]], ports[ids[j]]);
    }
  }

  lemma NormalizedWellNamed(d: Data)
    requires WellNamed(d)
    ensures WellNamed(Normalized(d))
  {
  }

  /** No two configurations of one rendering share an id, a process key, a config path, a log path or an
      admin port. */
  lemma ConfigsApart(isIP: string -> bool, d: Data)
    requires WellNamed(d) && Render(isIP, d).Ok?
    ensures var configs := Render(isIP, d).value;
            forall i, j | 0 <= i < j < |configs| :: Apart(configs[i], configs[j])
  {
    var n := Normalized(d);
    var base := AdminPorts.BaseOf(n.frpc.adminPort);
    NormalizedWellNamed(d);
    RenderShape(isIP, d);
    RenderedIdsSafe(n);
    RenderedIdsDiffer(n);
    AdminPorts.AssignedApart(base, RenderedIds(n));
    AllApart(n, ActivePorts(n), ActiveRooms(n), RenderedIds(n), AdminPorts.Assign(base, RenderedIds(n)).ports);
  }

  // ---------- restart keys ----------

  /** The eight fields whose change forces a restart, with the defaults filled in. */
  datatype Restart = Restart(
    serverAddr: string, serverPort: int, authMethod: string, authToken: string,
    adminAddr: string, adminPort: int, adminUser: string, adminPassword: string)

  function RestartOf(c: FrpConfig.ClientConfig): Restart {
    Restart(c.serverAddr, c.serverPort, FrpConfig.DefaultString(c.authMethod, "token"), c.authToken,
            FrpConfig.DefaultString(c.adminAddr, "127.0.0.1"), FrpConfig.DefaultInt(c.adminPort, 7400),
            FrpConfig.DefaultString(c.adminUser, "admin"), c.adminPassword)
  }

  predicate NulFree(c: FrpConfig.ClientConfig) {
    && Free(c.serverAddr, NUL) && Free(c.authMethod, NUL) && Free(c.authToken, NUL)
    && Free(c.adminAddr, NUL) && Free(c.adminUser, NUL) && Free(c.adminPassword, NUL)
  }

  lemma NumberIsNulFree(n: int)
    ensures Free(Decimal.PrintInt(n), NUL)
  {
    var s := Decimal.PrintInt(n);
    if n < 0 {
      assert s == [s[0]] + s[1..];
    }
  }

  lemma FieldsFree(c: FrpConfig.ClientConfig)
    requires NulFree(c)
    ensures forall p | p in RestartFields(c) :: Free(p, NUL)
  {
    NumberIsNulFree(c.serverPort);
    NumberIsNulFree(FrpConfig.DefaultInt(c.adminPort, 7400));
  }

  /** On fields without a NUL character the restart key changes exactly when one of the eight does. */
  lemma RestartKeyInjective(a: FrpConfig.ClientConfig, b: FrpConfig.ClientConfig)
    requires NulFree(a) && NulFree(b)
    ensures RestartKey(a) == RestartKey(b) <==> RestartOf(a) == RestartOf(b)
  {
    FieldsFree(a);
    FieldsFree(b);
    JoinInjective(RestartFields(a), RestartFields(b), NUL);
    SameFields(RestartFields(a), RestartFields(b), RestartOf(a), RestartOf(b));
  }

  lemma SameFields(fa: seq<string>, fb: seq<string>, a: Restart, b: Restart)
    requires |fa| == |fb| == 8
    requires fa[0] == a.serverAddr && fa[1] == Decimal.PrintInt(a.serverPort) && fa[2] == a.authMethod && fa[3] == a.authToken
    requires fa[4] == a.adminAddr && fa[5] == Decimal.PrintInt(a.adminPort) && fa[6] == a.adminUser && fa[7] == a.adminPassword
    requires fb[0] == b.serverAddr && fb[1] == Decimal.PrintInt(b.serverPort) && fb[2] == b.authMethod && fb[3] == b.authToken
    requires fb[4] == b.adminAddr && fb[5] == Decimal.PrintInt(b.adminPort) && fb[6] == b.adminUser && fb[7] == b.adminPassword
    ensures fa == fb <==> a == b
  {
    Decimal.PrintIntInjective(a.serverPort, b.serverPort);
    Decimal.PrintIntInjective(a.adminPort, b.adminPort);
  }
}
