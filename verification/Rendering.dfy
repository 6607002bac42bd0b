/** renderClientConfigs as applyData uses it: what it reads of the store, and why its configurations can be
    written and applied side by side. */
module Rendering {
  import opened Wrappers
  import opened Order
  import opened Lists
  import opened Validate
  import opened Rules
  import opened DirectRender
  import opened DirectPartition
  import opened DirectApart
  import opened Transaction
  import FrpConfig
  import AdminPorts
  import PM = ProcessManager

  /** net.ParseIP, and the configuration of a client that joined a group in the older way. */
  datatype Env = Env(isIP: string -> bool, legacy: Data -> FrpConfig.ClientConfig)

  /** Without rules, a client configured for a group renders that group's configuration. */
  predicate UsesDirectMode(d: Data) {
    |d.portRules| > 0 || |d.roomRules| > 0 || !d.legacy
  }

  ghost function LegacyConfig(legacy: Data -> FrpConfig.ClientConfig, d: Data): PM.RuntimeConfig {
    var frpc := Normalized(d).frpc;
    PM.RuntimeConfig(PM.DEFAULT_KEY, ConfigPath(frpc, PM.DEFAULT_KEY), LogPath(frpc, PM.DEFAULT_KEY), RestartKey(legacy(d)),
                     FrpConfig.Render(legacy(d)))
  }

  ghost function RenderClient(env: Env, d: Data): Result<seq<PM.RuntimeConfig>> {
    if UsesDirectMode(d) then
      var configs :- Render(env.isIP, d);
      Ok(Each(Runtime, configs))
    else Ok([LegacyConfig(env.legacy, d)])
  }

  ghost function RendererOf(env: Env): Renderer {
    d => RenderClient(env, d)
  }

  // ---------- configurations that can be written and applied together ----------

  /** Configurations that share a process key or a path share what matters there. */
  ghost predicate Mergeable(configs: seq<PM.RuntimeConfig>) {
    PM.KeysAgree(configs) && PathsAgree(configs)
  }

  ghost predicate Differ(a: PM.RuntimeConfig, b: PM.RuntimeConfig) {
    a.configPath != b.configPath && PM.ProcessKey(a.nodeId) != PM.ProcessKey(b.nodeId)
  }

  lemma PairwiseMergeable(configs: seq<PM.RuntimeConfig>)
    requires forall i, j | 0 <= i < |configs| && 0 <= j < |configs| :: configs[i] == configs[j] || Differ(configs[i], configs[j])
    ensures Mergeable(configs)
  {
    forall a, b | a in configs && b in configs ensures a == b || Differ(a, b) {
      var i :| 0 <= i < |configs| && configs[i] == a;
      var j :| 0 <= j < |configs| && configs[j] == b;
      assert configs[i] == configs[j] || Differ(configs[i], configs[j]);
    }
  }

  /** Two process ids are rendered to one configuration, or to two that share nothing. */
  lemma SameOrDiffer(d: Data, rules: seq<PortRule>, rooms: seq<RoomRule>, a: string, b: string, ports: map<string, int>)
    requires SafeId(a) && SafeId(b)
    requires Configurer(d, rules, rooms, ports)(a).Ok? && Configurer(d, rules, rooms, ports)(b).Ok?
    ensures var x := Configurer(d, rules, rooms, ports)(a).value;
            var y := Configurer(d, rules, rooms, ports)(b).value;
            x == y || Differ(Runtime(x), Runtime(y))
  {
    if a != b {
      ConfigureContents(d, rules, rooms, a, PortOf(ports, a));
      ConfigureContents(d, rules, rooms, b, PortOf(ports, b));
      SafeIdIsKey(a);
      SafeIdIsKey(b);
      ConfigPathsDiffer(d.frpc, a, b);
    }
  }

  lemma ConfiguredMergeable(d: Data, rules: seq<PortRule>, rooms: seq<RoomRule>, ids: seq<string>, ports: map<string, int>)
    requires forall id | id in ids :: SafeId(id)
    requires ConfigureAll(d, rules, rooms, ids, ports).Ok?
    ensures Mergeable(Each(Runtime, ConfigureAll(d, rules, rooms, ids, ports).value))
  {
    var configs := ConfigureAll(d, rules, rooms, ids, ports).value;
    var raws := Each(Runtime, configs);
    forall i, j | 0 <= i < |raws| && 0 <= j < |raws| ensures raws[i] == raws[j] || Differ(raws[i], raws[j]) {
      assert ids[i] in ids && ids[j] in ids;
      SameOrDiffer(d, rules, rooms, ids[i], ids[j], ports);
    }
    PairwiseMergeable(raws);
  }

  /** Whatever renders from a consistent store can be written and applied together, even when a node carries
      the id of a room's process and its configuration is rendered twice. */
  lemma RenderedMergeable(env: Env, d: Data)
    requires Consistent(d) && RenderClient(env, d).Ok?
    ensures Mergeable(RenderClient(env, d).value)
  {
    if UsesDirectMode(d) {
      var n := Normalized(d);
      RenderShape(env.isIP, d);
      RenderedIdsSafe(n);
      var ports := AdminPorts.Assign(AdminPorts.BaseOf(n.frpc.adminPort), RenderedIds(n)).ports;
      ConfiguredMergeable(n, ActivePorts(n), ActiveRooms(n), RenderedIds(n), ports);
    }
  }

  // ---------- what rendering reads ----------

  ghost predicate SameNode(d: Data, d': Data, id: string) {
    (id in d'.nodes <==> id in d.nodes) && (id in d.nodes ==> d'.nodes[id] == d.nodes[id])
  }

  lemma SamePortCheck(isIP: string -> bool, d: Data, d': Data, r: PortRule)
    requires d'.portRules == d.portRules && SameNode(d, d', r.nodeId)
    ensures ValidatePortRule(isIP, d', r) == ValidatePortRule(isIP, d, r)
  {
  }

  lemma SameRoomCheck(isIP: string -> bool, d: Data, d': Data, q: RoomRule)
    requires d'.roomRules == d.roomRules
    ensures ValidateRoomRule(isIP, d', q) == ValidateRoomRule(isIP, d, q)
  {
  }

  lemma SameChecks(isIP: string -> bool, d: Data, d': Data, rules: seq<PortRule>, rooms: seq<RoomRule>)
    requires d'.portRules == d.portRules && d'.roomRules == d.roomRules
    requires forall r | r in rules :: SameNode(d, d', r.nodeId)
    ensures FirstFailure(PortCheck(isIP, d'), rules) == FirstFailure(PortCheck(isIP, d), rules)
    ensures FirstFailure(RoomCheck(isIP, d'), rooms) == FirstFailure(RoomCheck(isIP, d), rooms)
  {
    forall r | r in rules ensures PortCheck(isIP, d')(r) == PortCheck(isIP, d)(r) {
      SamePortCheck(isIP, d, d', r);
    }
    FirstFailureAgree(PortCheck(isIP, d'), PortCheck(isIP, d), rules);
    forall q | q in rooms ensures RoomCheck(isIP, d')(q) == RoomCheck(isIP, d)(q) {
      SameRoomCheck(isIP, d, d', q);
    }
    FirstFailureAgree(RoomCheck(isIP, d'), RoomCheck(isIP, d), rooms);
  }

  lemma RoomIdHasRoom(rooms: seq<RoomRule>, id: string)
    requires id in RoomIds(rooms)
    ensures RoomFor(rooms, id).Some?
  {
    RoomForSome(rooms, id);
    var i :| 0 <= i < |rooms| && RoomIds(rooms)[i] == id;
    assert rooms[i] in rooms && RoomProcessId(rooms[i].id) == id;
  }

  lemma SameConfigure(d: Data, d': Data, rules: seq<PortRule>, rooms: seq<RoomRule>, id: string, port: int)
    requires d'.frpc == d.frpc && (id in NodeIds(rules) || id in RoomIds(rooms))
    requires forall r | r in rules :: SameNode(d, d', r.nodeId)
    ensures Configure(d', rules, rooms, id, port) == Configure(d, rules, rooms, id, port)
  {
    if id in RoomIds(rooms) {
      RoomIdHasRoom(rooms, id);
    } else {
      assert SameNode(d, d', id);
    }
  }

  lemma SameProcessIds(d: Data, d': Data, rules: seq<PortRule>, rooms: seq<RoomRule>)
    requires rules != [] || rooms != []
    ensures ProcessIds(d', rules, rooms) == ProcessIds(d, rules, rooms)
    ensures forall id | id in ProcessIds(d, rules, rooms) :: id in NodeIds(rules) || id in RoomIds(rooms)
  {
    var ids := SortedSet(NodeIds(rules)) + RoomIds(rooms);
    SortedSetFacts(NodeIds(rules));
    SomeIds(rules, rooms);
    SortMembers(ids, DefaultFirst);
  }

  lemma SomeIds(rules: seq<PortRule>, rooms: seq<RoomRule>)
    requires rules != [] || rooms != []
    ensures SortedSet(NodeIds(rules)) + RoomIds(rooms) != []
  {
    if SortedSet(NodeIds(rules)) + RoomIds(rooms) == [] {
      NoIdsNoRules(rules, rooms);
      assert false;
    }
  }

  lemma SameConfigurations(d: Data, d': Data, rules: seq<PortRule>, rooms: seq<RoomRule>, ids: seq<string>, ports: map<string, int>)
    requires d'.frpc == d.frpc
    requires forall id | id in ids :: id in NodeIds(rules) || id in RoomIds(rooms)
    requires forall r | r in rules :: SameNode(d, d', r.nodeId)
    ensures ConfigureAll(d', rules, rooms, ids, ports) == ConfigureAll(d, rules, rooms, ids, ports)
  {
    forall id | id in ids ensures Configurer(d', rules, rooms, ports)(id) == Configurer(d, rules, rooms, ports)(id) {
      SameConfigure(d, d', rules, rooms, id, PortOf(ports, id));
    }
    CollectAgree(Configurer(d', rules, rooms, ports), Configurer(d, rules, rooms, ports), ids);
  }

  lemma SameAssigned(d: Data, d': Data, rules: seq<PortRule>, rooms: seq<RoomRule>, ids: seq<string>)
    requires d'.frpc == d.frpc
    requires forall id | id in ids :: id in NodeIds(rules) || id in RoomIds(rooms)
    requires forall r | r in rules :: SameNode(d, d', r.nodeId)
    ensures ConfigureAssigned(d', rules, rooms, ids) == ConfigureAssigned(d, rules, rooms, ids)
  {
    match AdminPorts.Assign(AdminPorts.BaseOf(d.frpc.adminPort), ids)
    case Assigned(ports, _) => SameConfigurations(d, d', rules, rooms, ids, ports);
    case _ =>
  }

  lemma SameRenderActive(isIP: string -> bool, d: Data, d': Data, rules: seq<PortRule>, rooms: seq<RoomRule>)
    requires d'.frpc == d.frpc && d'.portRules == d.portRules && d'.roomRules == d.roomRules
    requires rules != [] || rooms != []
    requires forall r | r in rules :: SameNode(d, d', r.nodeId)
    ensures RenderActive(isIP, d', rules, rooms) == RenderActive(isIP, d, rules, rooms)
  {
    SameChecks(isIP, d, d', rules, rooms);
    SameProcessIds(d, d', rules, rooms);
    SameAssigned(d, d', rules, rooms, ProcessIds(d, rules, rooms));
  }

  ghost predicate SomeEnabled(d: Data) {
    (exists k | k in d.portRules :: d.portRules[k].enabled) || (exists k | k in d.roomRules :: d.roomRules[k].enabled)
  }

  lemma EnabledIsActive(d: Data)
    requires PortRulesKeyed(d.portRules) && RoomRulesKeyed(d.roomRules) && SomeEnabled(d)
    ensures ActivePorts(d) != [] || ActiveRooms(d) != []
    ensures UsesDirectMode(d)
  {
    ActivePortsFacts(d);
    ActiveRoomsFacts(d);
    if k :| k in d.portRules && d.portRules[k].enabled {
      assert d.portRules[k] in ActivePorts(d);
    } else {
      var k :| k in d.roomRules && d.roomRules[k].enabled;
      assert d.roomRules[k] in ActiveRooms(d);
    }
  }

  /** The nodes that enabled rules use are the same. */
  ghost predicate SameForEnabled(d: Data, d': Data) {
    forall k | k in d.portRules && d.portRules[k].enabled :: SameNode(d, d', d.portRules[k].nodeId)
  }

  lemma ActiveNodesSame(d: Data, d': Data)
    requires PortRulesKeyed(d.portRules) && SameForEnabled(d, d')
    ensures forall r | r in ActivePorts(d) :: SameNode(d, d', r.nodeId)
  {
    ActivePortsFacts(d);
    forall r | r in ActivePorts(d) ensures SameNode(d, d', r.nodeId) {
      assert r.id in d.portRules;
    }
  }

  lemma RenderReadsActiveNodes(isIP: string -> bool, d: Data, d': Data)
    requires d' == d.(nodes := d'.nodes) && forall r | r in ActivePorts(d) :: SameNode(d, d', r.nodeId)
    requires ActivePorts(d) != [] || ActiveRooms(d) != []
    ensures Render(isIP, d') == Render(isIP, d)
  {
    SameRenderActive(isIP, Normalized(d), Normalized(d'), ActivePorts(d), ActiveRooms(d));
  }

  lemma SameRendered(env: Env, d: Data, d': Data)
    requires UsesDirectMode(d) && UsesDirectMode(d') && Render(env.isIP, d') == Render(env.isIP, d)
    ensures RenderClient(env, d') == RenderClient(env, d)
  {
  }

  /** With a rule enabled, rendering reads only the nodes that enabled rules use. */
  lemma RenderReadsEnabledNodes(env: Env, d: Data, d': Data)
    requires d' == d.(nodes := d'.nodes) && SameForEnabled(d, d')
    requires PortRulesKeyed(d.portRules) && RoomRulesKeyed(d.roomRules) && SomeEnabled(d)
    ensures RenderClient(env, d') == RenderClient(env, d)
  {
    EnabledIsActive(d);
    ActiveNodesSame(d, d');
    RenderReadsActiveNodes(env.isIP, d, d');
    SameRendered(env, d, d');
  }

  // ---------- when rendering succeeds ----------

  lemma ConfigureSucceeds(d: Data, rules: seq<PortRule>, rooms: seq<RoomRule>, id: string, port: int)
    requires (id in NodeIds(rules) || id in RoomIds(rooms)) && forall r | r in rules :: r.nodeId in d.nodes
    ensures Configure(d, rules, rooms, id, port).Ok?
  {
    if id in RoomIds(rooms) {
      RoomIdHasRoom(rooms, id);
    }
  }

  lemma ConfigureAllSucceeds(d: Data, rules: seq<PortRule>, rooms: seq<RoomRule>, ids: seq<string>, ports: map<string, int>)
    requires forall id | id in ids :: id in NodeIds(rules) || id in RoomIds(rooms)
    requires forall r | r in rules :: r.nodeId in d.nodes
    ensures ConfigureAll(d, rules, rooms, ids, ports).Ok?
  {
    forall id | id in ids ensures Configurer(d, rules, rooms, ports)(id).Ok? {
      ConfigureSucceeds(d, rules, rooms, id, PortOf(ports, id));
    }
    CollectOk(Configurer(d, rules, rooms, ports), ids);
  }

  lemma ActiveSucceedsIff(isIP: string -> bool, d: Data, rules: seq<PortRule>, rooms: seq<RoomRule>)
    requires (rules != [] || rooms != []) && forall r | r in rules :: r.nodeId in d.nodes
    requires 1 <= AdminPorts.BaseOf(d.frpc.adminPort) <= AdminPorts.MAX_PORT
    ensures RenderActive(isIP, d, rules, rooms).Ok? <==>
              && FirstFailure(PortCheck(isIP, d), rules).Pass? && FirstFailure(RoomCheck(isIP, d), rooms).Pass?
              && AdminPorts.Assignable(AdminPorts.BaseOf(d.frpc.adminPort), ProcessIds(d, rules, rooms))
  {
    var ids := ProcessIds(d, rules, rooms);
    var base := AdminPorts.BaseOf(d.frpc.adminPort);
    SameProcessIds(d, d, rules, rooms);
    AdminPorts.AssignSucceedsIff(base, ids);
    if AdminPorts.Assign(base, ids).Assigned? {
      ConfigureAllSucceeds(d, rules, rooms, ids, AdminPorts.Assign(base, ids).ports);
    }
  }

  /** With a rule enabled and a valid admin port, rendering succeeds exactly when every enabled rule is valid
      and the admin ports can be assigned. */
  lemma RenderSucceedsIff(isIP: string -> bool, data: Data)
    requires Consistent(data) && (ActivePorts(data) != [] || ActiveRooms(data) != [])
    requires 1 <= AdminPorts.BaseOf(Normalized(data).frpc.adminPort) <= AdminPorts.MAX_PORT
    ensures var d := Normalized(data);
            Render(isIP, data).Ok? <==>
              && (forall r | r in ActivePorts(d) :: ValidatePortRule(isIP, d, r) == Pass)
              && (forall q | q in ActiveRooms(d) :: ValidateRoomRule(isIP, d, q) == Pass)
              && AdminPorts.Assignable(AdminPorts.BaseOf(d.frpc.adminPort), RenderedIds(d))
  {
    var d := Normalized(data);
    ActiveNodesPresent(d);
    ActiveSucceedsIff(isIP, d, ActivePorts(d), ActiveRooms(d));
    ChecksMean(isIP, d, ActivePorts(d), ActiveRooms(d));
  }

  lemma ChecksMean(isIP: string -> bool, d: Data, rules: seq<PortRule>, rooms: seq<RoomRule>)
    ensures FirstFailure(PortCheck(isIP, d), rules).Pass? <==> forall r | r in rules :: ValidatePortRule(isIP, d, r) == Pass
    ensures FirstFailure(RoomCheck(isIP, d), rooms).Pass? <==> forall q | q in rooms :: ValidateRoomRule(isIP, d, q) == Pass
  {
    assert forall r :: PortCheck(isIP, d)(r) == ValidatePortRule(isIP, d, r);
    assert forall q :: RoomCheck(isIP, d)(q) == ValidateRoomRule(isIP, d, q);
  }

  // ---------- applyData in direct mode ----------

  lemma DirectAllOrNothing(env: Env, w: World, oldData: Data, data: Data, fate: Fate)
    requires Consistent(Normalized(data)) && Consistent(oldData)
    ensures var r := ApplyData(RendererOf(env), w, oldData, data, fate);
            var before := RenderClient(env, oldData);
            if !Accepted(RendererOf(env), data, fate) || before == Err(Diverges) then r.world == w && r.result.Err?
            else if r.result.Ok? then Committed(w, Normalized(data), RenderClient(env, Normalized(data)).value, r.world)
            else if before.Ok? then Restored(w, Normalized(oldData), before.value, RenderClient(env, Normalized(data)).value, r.world)
            else StoreRestored(w, Normalized(oldData), RenderClient(env, Normalized(data)).value, r.world)
  {
    if RenderClient(env, oldData).Ok? {
      RenderedMergeable(env, oldData);
    }
    if RenderClient(env, Normalized(data)).Ok? {
      RenderedMergeable(env, Normalized(data));
    }
    AllOrNothing(RendererOf(env), w, oldData, data, fate);
  }
}
