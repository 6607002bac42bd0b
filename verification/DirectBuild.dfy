/** buildDirectFrpcConfigs as the source runs it: loops over the rules, maps filled on the way, and a
    rendering that does not depend on the order in which the maps are traversed. */
module DirectBuild {
  import opened Wrappers
  import opened Order
  import opened Lists
  import opened Rules
  import opened DirectRender
  import opened DirectPartition
  import FrpConfig
  import AdminPorts

  // ---------- the orders ----------

  lemma PortRuleLeOrders(rules: seq<PortRule>)
    requires TiedPortsEqual(rules)
    ensures TotalPreorder(PortRuleLe) && Separates(rules, PortRuleLe)
  {
    forall x, y ensures PortRuleLe(x, y) || PortRuleLe(y, x) { StrLeTotal(x.id, y.id); }
    forall x, y, z | PortRuleLe(x, y) && PortRuleLe(y, z) ensures PortRuleLe(x, z) {
      if x.createdAt == y.createdAt == z.createdAt { StrLeTransitive(x.id, y.id, z.id); }
    }
    forall x, y | x in rules && y in rules && PortRuleLe(x, y) && PortRuleLe(y, x) ensures x == y {
      StrLeAntisymmetric(x.id, y.id);
    }
  }

  /** Rules that the order does not tell apart are equal. */
  ghost predicate TiedPortsEqual(rules: seq<PortRule>) {
    forall x, y | x in rules && y in rules && x.id == y.id && x.createdAt == y.createdAt :: x == y
  }

  lemma RoomRuleLeOrders(rooms: seq<RoomRule>)
    requires TiedRoomsEqual(rooms)
    ensures TotalPreorder(RoomRuleLe) && Separates(rooms, RoomRuleLe)
  {
    forall x, y ensures RoomRuleLe(x, y) || RoomRuleLe(y, x) { StrLeTotal(x.id, y.id); }
    forall x, y, z | RoomRuleLe(x, y) && RoomRuleLe(y, z) ensures RoomRuleLe(x, z) {
      if x.createdAt == y.createdAt == z.createdAt { StrLeTransitive(x.id, y.id, z.id); }
    }
    forall x, y | x in rooms && y in rooms && RoomRuleLe(x, y) && RoomRuleLe(y, x) ensures x == y {
      StrLeAntisymmetric(x.id, y.id);
    }
  }

  ghost predicate TiedRoomsEqual(rooms: seq<RoomRule>) {
    forall x, y | x in rooms && y in rooms && x.id == y.id && x.createdAt == y.createdAt :: x == y
  }

  /** The stores whose sorted rules do not depend on how the map is traversed; rules stored under their ids
      are such a store. */
  ghost predicate NoPortTies(m: map<string, PortRule>) {
    forall a, b | a in m && b in m && m[a].id == m[b].id && m[a].createdAt == m[b].createdAt :: m[a] == m[b]
  }

  ghost predicate NoRoomTies(m: map<string, RoomRule>) {
    forall a, b | a in m && b in m && m[a].id == m[b].id && m[a].createdAt == m[b].createdAt :: m[a] == m[b]
  }

  lemma KeyedHasNoTies(d: Data)
    requires PortRulesKeyed(d.portRules) && RoomRulesKeyed(d.roomRules)
    ensures NoPortTies(d.portRules) && NoRoomTies(d.roomRules)
  {
  }

  lemma DefaultFirstOrders(ids: seq<string>)
    ensures TotalPreorder(DefaultFirst) && Separates(ids, DefaultFirst)
  {
    forall x, y ensures DefaultFirst(x, y) || DefaultFirst(y, x) { StrLeTotal(x, y); }
    forall x, y, z | DefaultFirst(x, y) && DefaultFirst(y, z) ensures DefaultFirst(x, z) {
      if StrLe(x, y) && StrLe(y, z) { StrLeTransitive(x, y, z); }
    }
    forall x, y | x in ids && y in ids && DefaultFirst(x, y) && DefaultFirst(y, x) ensures x == y {
      if StrLe(x, y) && StrLe(y, x) { StrLeAntisymmetric(x, y); }
    }
  }

  function Lookup<V>(m: map<string, V>): string -> seq<V> {
    k => if k in m then [m[k]] else []
  }

  lemma {:induction false} ValuesAreFlat<V>(m: map<string, V>, keys: seq<string>)
    requires forall k | k in keys :: k in m
    ensures Flat(Lookup(m), keys) == ValuesAt(m, keys)
  {
    if keys != [] {
      ValuesAreFlat(m, keys[1..]);
      assert ValuesAt(m, keys) == [m[keys[0]]] + ValuesAt(m, keys[1..]);
    }
  }

  /** The values of a map do not depend on the order of its keys, as a multiset. */
  lemma SameValues<V>(m: map<string, V>, keys: seq<string>)
    requires multiset(keys) == multiset(m.Keys) && forall k | k in keys :: k in m
    ensures multiset(ValuesAt(m, keys)) == multiset(ValuesAt(m, SortedKeys(m)))
  {
    SortedKeysOfTraversal(m, keys);
    FlatSort(Lookup(m), keys, StrLe);
    ValuesAreFlat(m, keys);
    ValuesAreFlat(m, SortedKeys(m));
  }

  lemma ValueOf<V>(m: map<string, V>, keys: seq<string>, v: V) returns (k: string)
    requires (forall k | k in keys :: k in m) && v in ValuesAt(m, keys)
    ensures k in m && m[k] == v
  {
    var i :| 0 <= i < |keys| && ValuesAt(m, keys)[i] == v;
    k := keys[i];
  }

  // ---------- sorted rules ----------

  /** The keys of a map in some order, with the values in the same order. */
  method Values<V>(m: map<string, V>) returns (keys: seq<string>, values: seq<V>)
    ensures multiset(keys) == multiset(m.Keys) && (forall k | k in keys :: k in m) && values == ValuesAt(m, keys)
  {
    keys := CollectKeys(m);
    DistinctOfSet(keys, m.Keys);
    values := [];
    for i := 0 to |keys|
      invariant |values| == i && forall j | 0 <= j < i :: keys[j] in m && values[j] == m[keys[j]]
    {
      assert keys[i] in keys;
      values := values + [m[keys[i]]];
    }
  }

  /** sortedPortRules */
  method SortPortRules(m: map<string, PortRule>) returns (rules: seq<PortRule>)
    requires NoPortTies(m)
    ensures rules == SortedPortRules(m)
  {
    var keys, values := Values(m);
    SameValues(m, keys);
    forall x, y | x in values && y in values && x.id == y.id && x.createdAt == y.createdAt ensures x == y {
      var a := ValueOf(m, keys, x);
      var b := ValueOf(m, keys, y);
    }
    PortRuleLeOrders(values);
    SortForgetsOrder(values, ValuesAt(m, SortedKeys(m)), PortRuleLe);
    rules := Sort(values, PortRuleLe);
  }

  /** sortedRoomRules */
  method SortRoomRules(m: map<string, RoomRule>) returns (rooms: seq<RoomRule>)
    requires NoRoomTies(m)
    ensures rooms == SortedRoomRules(m)
  {
    var keys, values := Values(m);
    SameValues(m, keys);
    forall x, y | x in values && y in values && x.id == y.id && x.createdAt == y.createdAt ensures x == y {
      var a := ValueOf(m, keys, x);
      var b := ValueOf(m, keys, y);
    }
    RoomRuleLeOrders(values);
    SortForgetsOrder(values, ValuesAt(m, SortedKeys(m)), RoomRuleLe);
    rooms := Sort(values, RoomRuleLe);
  }

  // ---------- collecting the active rules ----------

  /** `byNode` groups the rules, each group in order. */
  ghost predicate Groups(byNode: map<string, seq<PortRule>>, rules: seq<PortRule>) {
    byNode.Keys == NodeIds(rules) && forall id | id in byNode :: byNode[id] == Filter(OfNode(id), rules)
  }

  function AppendTo(byNode: map<string, seq<PortRule>>, r: PortRule): map<string, seq<PortRule>> {
    byNode[r.nodeId := (if r.nodeId in byNode then byNode[r.nodeId] else []) + [r]]
  }

  lemma NoRulesOf(rules: seq<PortRule>, id: string)
    requires id !in NodeIds(rules)
    ensures Filter(OfNode(id), rules) == []
  {
    FilterNothing(OfNode(id), rules);
  }

  lemma NodeIdsAppend(rules: seq<PortRule>, r: PortRule)
    ensures NodeIds(rules + [r]) == NodeIds(rules) + {r.nodeId}
  {
    assert r in rules + [r];
    assert forall q | q in rules :: q in rules + [r];
  }

  lemma GroupsAppend(byNode: map<string, seq<PortRule>>, rules: seq<PortRule>, r: PortRule)
    requires Groups(byNode, rules)
    ensures Groups(AppendTo(byNode, r), rules + [r])
  {
    if r.nodeId !in byNode {
      NoRulesOf(rules, r.nodeId);
    }
    NodeIdsAppend(rules, r);
    forall id | id in AppendTo(byNode, r) ensures AppendTo(byNode, r)[id] == Filter(OfNode(id), rules + [r]) {
      FilterConcat(OfNode(id), rules, [r]);
    }
  }

  /** One enabled rule: it decides when it is invalid, and joins its group when it is not. */
  lemma GroupStep(isIP: string -> bool, d: Data, sorted: seq<PortRule>, i: nat, byNode: map<string, seq<PortRule>>)
    requires i < |sorted| && PortEnabled(sorted[i])
    requires FirstFailure(PortCheck(isIP, d), Filter(PortEnabled, sorted[..i])).Pass?
    requires Groups(byNode, Filter(PortEnabled, sorted[..i]))
    ensures FirstFailure(PortCheck(isIP, d), Filter(PortEnabled, sorted[..i + 1])) == ValidatePortRule(isIP, d, sorted[i])
    ensures ValidatePortRule(isIP, d, sorted[i]).Fail? ==>
              FirstFailure(PortCheck(isIP, d), Filter(PortEnabled, sorted)) == ValidatePortRule(isIP, d, sorted[i])
    ensures Groups(AppendTo(byNode, sorted[i]), Filter(PortEnabled, sorted[..i + 1]))
  {
    FilterStep(PortEnabled, sorted, i);
    CheckStep(PortEnabled, PortCheck(isIP, d), sorted, i);
    GroupsAppend(byNode, Filter(PortEnabled, sorted[..i]), sorted[i]);
  }

  lemma SkipStep(sorted: seq<PortRule>, i: nat)
    requires i < |sorted| && !PortEnabled(sorted[i])
    ensures Filter(PortEnabled, sorted[..i + 1]) == Filter(PortEnabled, sorted[..i])
  {
    FilterStep(PortEnabled, sorted, i);
  }

  /** Validates the enabled port rules and groups them by node. */
  method GroupPortRules(isIP: string -> bool, d: Data) returns (check: Outcome, byNode: map<string, seq<PortRule>>)
    requires NoPortTies(d.portRules)
    ensures check == FirstFailure(PortCheck(isIP, d), ActivePorts(d))
    ensures check.Pass? ==> Groups(byNode, ActivePorts(d))
  {
    var sorted := SortPortRules(d.portRules);
    byNode := map[];
    for i := 0 to |sorted|
      invariant FirstFailure(PortCheck(isIP, d), Filter(PortEnabled, sorted[..i])).Pass?
      invariant Groups(byNode, Filter(PortEnabled, sorted[..i]))
    {
      var rule := sorted[i];
      if !rule.enabled {
        SkipStep(sorted, i);
        continue;
      }
      GroupStep(isIP, d, sorted, i, byNode);
      check := ValidatePortRule(isIP, d, rule);
      if check.Fail? {
        return;
      }
      byNode := AppendTo(byNode, rule);
    }
    assert sorted[..|sorted|] == sorted;
    check := Pass;
  }

  /** Validates the enabled room rules and collects them. */
  method CollectRoomRules(isIP: string -> bool, d: Data) returns (check: Outcome, active: seq<RoomRule>)
    requires NoRoomTies(d.roomRules)
    ensures check == FirstFailure(RoomCheck(isIP, d), ActiveRooms(d))
    ensures check.Pass? ==> active == ActiveRooms(d)
  {
    var sorted := SortRoomRules(d.roomRules);
    check, active := KeepChecked(RoomEnabled, RoomCheck(isIP, d), sorted);
  }

  // ---------- the process ids ----------

  method FallbackNode(d: Data) returns (ids: seq<string>)
    ensures ids == FallbackIds(d)
  {
    if DEFAULT_NODE_ID in d.nodes {
      return [d.nodes[DEFAULT_NODE_ID].id];
    }
    var keys := SortedMapKeys(d.nodes);
    if keys == [] {
      return [DEFAULT_NODE_ID];
    }
    assert keys[0] in keys;
    ids := [d.nodes[keys[0]].id];
  }

  lemma SortedIdsAreProcessIds(d: Data, rules: seq<PortRule>, rooms: seq<RoomRule>, nodes: seq<string>)
    requires multiset(nodes) == multiset(NodeIds(rules))
    ensures Sort(nodes + RoomIds(rooms), DefaultFirst) == Sort(SortedSet(NodeIds(rules)) + RoomIds(rooms), DefaultFirst)
    ensures nodes + RoomIds(rooms) == [] <==> SortedSet(NodeIds(rules)) + RoomIds(rooms) == []
  {
    var sorted := SortedSet(NodeIds(rules));
    assert (map k | k in NodeIds(rules) :: true).Keys == NodeIds(rules);
    assert multiset(sorted) == multiset(nodes);
    assert |multiset(sorted)| == |sorted| && |multiset(nodes)| == |nodes|;
    DefaultFirstOrders(nodes + RoomIds(rooms));
    SortForgetsOrder(nodes + RoomIds(rooms), sorted + RoomIds(rooms), DefaultFirst);
  }

  method CollectIds(d: Data, ghost rules: seq<PortRule>, byNode: map<string, seq<PortRule>>, rooms: seq<RoomRule>)
    returns (ids: seq<string>)
    requires Groups(byNode, rules)
    ensures ids == ProcessIds(d, rules, rooms)
  {
    var nodes := CollectKeys(byNode);
    ids := nodes;
    for i := 0 to |rooms|
      invariant ids == nodes + RoomIds(rooms)[..i]
    {
      ids := ids + [RoomProcessId(rooms[i].id)];
    }
    assert RoomIds(rooms)[..|rooms|] == RoomIds(rooms);
    SortedIdsAreProcessIds(d, rules, rooms, nodes);
    if |ids| == 0 {
      ids := FallbackNode(d);
    }
    ids := Sort(ids, DefaultFirst);
  }

  // ---------- the configurations ----------

  method RoomsByProcess(rooms: seq<RoomRule>) returns (byProcess: map<string, RoomRule>)
    ensures forall id :: RoomFor(rooms, id) == if id in byProcess then Some(byProcess[id]) else None
  {
    byProcess := map[];
    for i := 0 to |rooms|
      invariant forall id :: RoomFor(rooms[..i], id) == if id in byProcess then Some(byProcess[id]) else None
    {
      assert rooms[..i + 1][..i] == rooms[..i];
      byProcess := byProcess[RoomProcessId(rooms[i].id) := rooms[i]];
    }
    assert rooms[..|rooms|] == rooms;
  }

  /** buildDirectFrpcConfigForNode, with the admin port its caller sets. */
  method NodeConfiguration(d: Data, id: string, ghost all: seq<PortRule>, rules: seq<PortRule>, adminPort: int)
    returns (r: Result<FrpConfig.ClientConfig>)
    requires rules == Filter(OfNode(id), all)
    ensures r == if id in d.nodes then Ok(NodeClient(d, id, all, adminPort)) else Err(NotFound)
  {
    if id !in d.nodes {
      return Err(NotFound);
    }
    var proxies: seq<FrpConfig.Proxy> := [];
    for i := 0 to |rules|
      invariant proxies == PortProxies(rules)[..i]
    {
      proxies := proxies + [ProxyOf(rules[i])];
    }
    assert PortProxies(rules)[..|rules|] == NodeProxies(all, id);
    var n := d.nodes[id];
    r := Ok(FrpConfig.ClientConfig(n.serverAddr, n.frpsPort, "", n.authMethod, n.authToken, d.frpc.adminAddr, adminPort,
                                   d.frpc.adminUser, d.frpc.adminPassword, "", "", "", map[], proxies, []));
  }

  method ConfigureOne(d: Data, ghost rules: seq<PortRule>, rooms: seq<RoomRule>, byNode: map<string, seq<PortRule>>,
                      byProcess: map<string, RoomRule>, id: string, adminPort: int)
    returns (r: Result<Rendered>)
    requires Groups(byNode, rules)
    requires RoomFor(rooms, id) == if id in byProcess then Some(byProcess[id]) else None
    ensures r == Configure(d, rules, rooms, id, adminPort)
  {
    if id in byProcess {
      return Ok(Pack(d, id, RoomClient(d, byProcess[id], adminPort)));
    }
    if id !in byNode {
      NoRulesOf(rules, id);
    }
    var client := NodeConfiguration(d, id, rules, if id in byNode then byNode[id] else [], adminPort);
    if client.Err? {
      return Err(client.error);
    }
    r := Ok(Pack(d, id, client.value));
  }

  method ConfigureIds(d: Data, ghost rules: seq<PortRule>, rooms: seq<RoomRule>, byNode: map<string, seq<PortRule>>,
                      ids: seq<string>, ports: map<string, int>)
    returns (r: Result<seq<Rendered>>)
    requires Groups(byNode, rules)
    ensures r == ConfigureAll(d, rules, rooms, ids, ports)
  {
    var byProcess := RoomsByProcess(rooms);
    var configs: seq<Rendered> := [];
    for i := 0 to |ids|
      invariant ConfigureAll(d, rules, rooms, ids[..i], ports) == Ok(configs)
    {
      CollectStep(Configurer(d, rules, rooms, ports), ids, i);
      var one := ConfigureOne(d, rules, rooms, byNode, byProcess, ids[i], PortOf(ports, ids[i]));
      if one.Err? {
        return Err(one.error);
      }
      configs := configs + [one.value];
    }
    assert ids[..|ids|] == ids;
    r := Ok(configs);
  }

  method AssignAndConfigure(d: Data, ghost rules: seq<PortRule>, rooms: seq<RoomRule>, byNode: map<string, seq<PortRule>>, ids: seq<string>)
    returns (r: Result<seq<Rendered>>)
    requires Groups(byNode, rules)
    ensures r == ConfigureAssigned(d, rules, rooms, ids)
  {
    var assignment := AdminPorts.AssignAdminPorts(d.frpc.adminPort, ids);
    match assignment
    case NotEnough => r := Err(BadRequest);
    case BadPort => r := Err(BadRequest);
    case NeverReturns => r := Err(Diverges);
    case Assigned(ports, _) => r := ConfigureIds(d, rules, rooms, byNode, ids, ports);
  }

  /** Whatever order the maps are traversed in, the loops compute Render. */
  method BuildDirectFrpcConfigs(isIP: string -> bool, data: Data) returns (r: Result<seq<Rendered>>)
    requires NoPortTies(data.portRules) && NoRoomTies(data.roomRules)
    ensures r == Render(isIP, data)
  {
    var d := Normalized(data);
    var portCheck, byNode := GroupPortRules(isIP, d);
    if portCheck.Fail? {
      return Err(portCheck.error);
    }
    var roomCheck, rooms := CollectRoomRules(isIP, d);
    if roomCheck.Fail? {
      return Err(roomCheck.error);
    }
    var ids := CollectIds(d, ActivePorts(d), byNode, rooms);
    r := AssignAndConfigure(d, ActivePorts(d), rooms, byNode, ids);
  }
}
