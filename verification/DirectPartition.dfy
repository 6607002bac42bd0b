/** What direct rendering guarantees: every enabled rule appears exactly once, in its own configuration,
    and the configurations do not get in each other's way. */
module DirectPartition {
  import opened Wrappers
  import opened Order
  import opened Lists
  import opened Validate
  import opened Rules
  import opened DirectRender
  import FrpConfig
  import AdminPorts
  import Text
  import Decimal

  // ---------- the active rules ----------

  ghost predicate DistinctPortIds(rules: seq<PortRule>) {
    forall i, j | 0 <= i < j < |rules| :: rules[i].id != rules[j].id
  }

  ghost predicate DistinctRoomIds(rooms: seq<RoomRule>) {
    forall i, j | 0 <= i < j < |rooms| :: rooms[i].id != rooms[j].id
  }

  lemma SortKeepsDistinct<T(!new)>(xs: seq<T>, le: (T, T) -> bool)
    requires Distinct(xs)
    ensures Distinct(Sort(xs, le))
  {
    SortMultiset(xs, le);
    MultisetOfDistinct(xs);
    DistinctOfSet(Sort(xs, le), set x | x in xs);
  }

  lemma ValueMember<V>(m: map<string, V>, keys: seq<string>, k: string)
    requires (forall k | k in keys :: k in m) && k in keys
    ensures m[k] in ValuesAt(m, keys)
  {
    var i :| 0 <= i < |keys| && keys[i] == k;
    assert ValuesAt(m, keys)[i] == m[k];
  }

  lemma PortValues(m: map<string, PortRule>, keys: seq<string>)
    requires PortRulesKeyed(m) && Distinct(keys) && forall k :: k in keys <==> k in m
    ensures forall r :: r in ValuesAt(m, keys) <==> r.id in m && m[r.id] == r
    ensures Distinct(ValuesAt(m, keys))
  {
    var values := ValuesAt(m, keys);
    forall r: PortRule | r.id in m && m[r.id] == r ensures r in values {
      ValueMember(m, keys, r.id);
    }
    forall r | r in values ensures r.id in m && m[r.id] == r {
      var i :| 0 <= i < |values| && values[i] == r;
      assert keys[i] in m;
    }
    forall i, j | 0 <= i < j < |values| ensures values[i] != values[j] {
      assert keys[i] in m && keys[j] in m && m[keys[i]].id == keys[i] && m[keys[j]].id == keys[j];
    }
  }

  lemma RoomValues(m: map<string, RoomRule>, keys: seq<string>)
    requires RoomRulesKeyed(m) && Distinct(keys) && forall k :: k in keys <==> k in m
    ensures forall r :: r in ValuesAt(m, keys) <==> r.id in m && m[r.id] == r
    ensures Distinct(ValuesAt(m, keys))
  {
    var values := ValuesAt(m, keys);
    forall r: RoomRule | r.id in m && m[r.id] == r ensures r in values {
      ValueMember(m, keys, r.id);
    }
    forall r | r in values ensures r.id in m && m[r.id] == r {
      var i :| 0 <= i < |values| && values[i] == r;
      assert keys[i] in m;
    }
    forall i, j | 0 <= i < j < |values| ensures values[i] != values[j] {
      assert keys[i] in m && keys[j] in m && m[keys[i]].id == keys[i] && m[keys[j]].id == keys[j];
    }
  }

  lemma SortedPortRulesFacts(m: map<string, PortRule>)
    requires PortRulesKeyed(m)
    ensures forall r :: r in SortedPortRules(m) <==> r.id in m && m[r.id] == r
    ensures Distinct(SortedPortRules(m))
  {
    PortValues(m, SortedKeys(m));
    SortMembers(ValuesAt(m, SortedKeys(m)), PortRuleLe);
    SortKeepsDistinct(ValuesAt(m, SortedKeys(m)), PortRuleLe);
  }

  lemma SortedRoomRulesFacts(m: map<string, RoomRule>)
    requires RoomRulesKeyed(m)
    ensures forall r :: r in SortedRoomRules(m) <==> r.id in m && m[r.id] == r
    ensures Distinct(SortedRoomRules(m))
  {
    RoomValues(m, SortedKeys(m));
    SortMembers(ValuesAt(m, SortedKeys(m)), RoomRuleLe);
    SortKeepsDistinct(ValuesAt(m, SortedKeys(m)), RoomRuleLe);
  }

  /** The enabled port rules, each once. */
  lemma ActivePortsFacts(d: Data)
    requires PortRulesKeyed(d.portRules)
    ensures forall r :: r in ActivePorts(d) <==> r.id in d.portRules && d.portRules[r.id] == r && r.enabled
    ensures DistinctPortIds(ActivePorts(d))
  {
    SortedPortRulesFacts(d.portRules);
    FilterMembers(PortEnabled, SortedPortRules(d.portRules));
    FilterDistinct(PortEnabled, SortedPortRules(d.portRules));
    var active := ActivePorts(d);
    forall i, j | 0 <= i < j < |active| ensures active[i].id != active[j].id {
      assert active[i] in active && active[j] in active && active[i] != active[j];
    }
  }

  /** The enabled room rules, each once. */
  lemma ActiveRoomsFacts(d: Data)
    requires RoomRulesKeyed(d.roomRules)
    ensures forall r :: r in ActiveRooms(d) <==> r.id in d.roomRules && d.roomRules[r.id] == r && r.enabled
    ensures DistinctRoomIds(ActiveRooms(d))
  {
    SortedRoomRulesFacts(d.roomRules);
    FilterMembers(RoomEnabled, SortedRoomRules(d.roomRules));
    FilterDistinct(RoomEnabled, SortedRoomRules(d.roomRules));
    var active := ActiveRooms(d);
    forall i, j | 0 <= i < j < |active| ensures active[i].id != active[j].id {
      assert active[i] in active && active[j] in active && active[i] != active[j];
    }
  }

  // ---------- all proxies and visitors ----------

  function ConfigProxies(c: Rendered): seq<FrpConfig.Proxy> { c.client.proxies }

  function ConfigVisitors(c: Rendered): seq<FrpConfig.Visitor> { c.client.visitors }

  function AllProxies(configs: seq<Rendered>): seq<FrpConfig.Proxy> { Flat(ConfigProxies, configs) }

  function AllVisitors(configs: seq<Rendered>): seq<FrpConfig.Visitor> { Flat(ConfigVisitors, configs) }

  function PortProxies(rules: seq<PortRule>): seq<FrpConfig.Proxy> { Each(ProxyOf, rules) }

  function HostProxies(rooms: seq<RoomRule>): seq<FrpConfig.Proxy> { Flat(RoomProxies, rooms) }

  function GuestVisitors(rooms: seq<RoomRule>): seq<FrpConfig.Visitor> { Flat(RoomVisitors, rooms) }

  /** What the configuration of one process id holds. */
  function ProxiesFor(rules: seq<PortRule>, rooms: seq<RoomRule>): string -> seq<FrpConfig.Proxy> {
    id => match RoomFor(rooms, id)
          case Some(room) => RoomProxies(room)
          case None => NodeProxies(rules, id)
  }

  function VisitorsFor(rooms: seq<RoomRule>): string -> seq<FrpConfig.Visitor> {
    id => match RoomFor(rooms, id)
          case Some(room) => RoomVisitors(room)
          case None => []
  }

  function NodeProxiesOf(rules: seq<PortRule>): string -> seq<FrpConfig.Proxy> {
    id => NodeProxies(rules, id)
  }

  /** A configuration holds the node's rules, in their order, or the room. */
  lemma ConfigureContents(d: Data, rules: seq<PortRule>, rooms: seq<RoomRule>, id: string, adminPort: int)
    requires Configure(d, rules, rooms, id, adminPort).Ok?
    ensures var c := Configure(d, rules, rooms, id, adminPort).value;
            c.nodeId == id && c.client.proxies == ProxiesFor(rules, rooms)(id) && c.client.visitors == VisitorsFor(rooms)(id)
            && c.client.adminPort == adminPort
            && c.configPath == ConfigPath(d.frpc, id) && c.logPath == LogPath(d.frpc, id)
            && c.restartKey == RestartKey(c.client)
  {
  }

  lemma AllAreFlat(d: Data, rules: seq<PortRule>, rooms: seq<RoomRule>, ids: seq<string>, ports: map<string, int>)
    requires ConfigureAll(d, rules, rooms, ids, ports).Ok?
    ensures var configs := ConfigureAll(d, rules, rooms, ids, ports).value;
            && AllProxies(configs) == Flat(ProxiesFor(rules, rooms), ids)
            && AllVisitors(configs) == Flat(VisitorsFor(rooms), ids)
  {
    var configs := ConfigureAll(d, rules, rooms, ids, ports).value;
    forall i | 0 <= i < |ids|
      ensures ConfigProxies(configs[i]) == ProxiesFor(rules, rooms)(ids[i])
      ensures ConfigVisitors(configs[i]) == VisitorsFor(rooms)(ids[i])
    {
      ConfiguredAt(d, rules, rooms, ids, ports, i);
      ConfigureContents(d, rules, rooms, ids[i], PortOf(ports, ids[i]));
    }
    FlatAgree(ConfigProxies, configs, ProxiesFor(rules, rooms), ids);
    FlatAgree(ConfigVisitors, configs, VisitorsFor(rooms), ids);
  }

  lemma ConfiguredAt(d: Data, rules: seq<PortRule>, rooms: seq<RoomRule>, ids: seq<string>, ports: map<string, int>, i: nat)
    requires ConfigureAll(d, rules, rooms, ids, ports).Ok? && i < |ids|
    ensures var configs := ConfigureAll(d, rules, rooms, ids, ports).value;
            |configs| == |ids| && Configure(d, rules, rooms, ids[i], PortOf(ports, ids[i])) == Ok(configs[i])
  {
    assert Configurer(d, rules, rooms, ports)(ids[i]) == Ok(ConfigureAll(d, rules, rooms, ids, ports).value[i]);
  }

  // ---------- rooms ----------

  /** No two active rooms share a process. */
  ghost predicate DistinctProcesses(rooms: seq<RoomRule>) {
    forall i, j | 0 <= i < j < |rooms| :: RoomProcessId(rooms[i].id) != RoomProcessId(rooms[j].id)
  }

  lemma {:induction false} RoomForFinds(rooms: seq<RoomRule>, i: nat)
    requires DistinctProcesses(rooms) && i < |rooms|
    ensures RoomFor(rooms, RoomProcessId(rooms[i].id)) == Some(rooms[i])
  {
    if i < |rooms| - 1 {
      RoomForFinds(rooms[..|rooms| - 1], i);
    }
  }

  lemma {:induction false} RoomForSome(rooms: seq<RoomRule>, id: string)
    ensures match RoomFor(rooms, id)
            case Some(room) => room in rooms && RoomProcessId(room.id) == id
            case None => forall q | q in rooms :: RoomProcessId(q.id) != id
  {
    if rooms != [] {
      RoomForSome(rooms[..|rooms| - 1], id);
      assert rooms == rooms[..|rooms| - 1] + [rooms[|rooms| - 1]];
    }
  }

  lemma FlatRooms(rules: seq<PortRule>, rooms: seq<RoomRule>)
    requires DistinctProcesses(rooms)
    ensures Flat(ProxiesFor(rules, rooms), RoomIds(rooms)) == HostProxies(rooms)
    ensures Flat(VisitorsFor(rooms), RoomIds(rooms)) == GuestVisitors(rooms)
  {
    forall i | 0 <= i < |rooms|
      ensures RoomFor(rooms, RoomIds(rooms)[i]) == Some(rooms[i])
    {
      RoomForFinds(rooms, i);
    }
    FlatAgree(ProxiesFor(rules, rooms), RoomIds(rooms), RoomProxies, rooms);
    FlatAgree(VisitorsFor(rooms), RoomIds(rooms), RoomVisitors, rooms);
  }

  // ---------- nodes ----------

  /** No node with an enabled rule carries the id of an active room's process. */
  ghost predicate NoClash(rules: seq<PortRule>, rooms: seq<RoomRule>) {
    forall r, q | r in rules && q in rooms :: r.nodeId != RoomProcessId(q.id)
  }

  lemma NodeHasNoRoom(rules: seq<PortRule>, rooms: seq<RoomRule>, id: string)
    requires NoClash(rules, rooms) && id in NodeIds(rules)
    ensures RoomFor(rooms, id) == None
  {
    RoomForSome(rooms, id);
  }

  lemma FlatNodes(rules: seq<PortRule>, rooms: seq<RoomRule>, ids: seq<string>)
    requires NoClash(rules, rooms) && forall id | id in ids :: id in NodeIds(rules)
    ensures Flat(ProxiesFor(rules, rooms), ids) == Flat(NodeProxiesOf(rules), ids)
    ensures Flat(VisitorsFor(rooms), ids) == []
  {
    forall id | id in ids ensures RoomFor(rooms, id) == None {
      NodeHasNoRoom(rules, rooms, id);
    }
    FlatAgree(ProxiesFor(rules, rooms), ids, NodeProxiesOf(rules), ids);
    FlatNothing(VisitorsFor(rooms), ids);
  }

  lemma NodeProxiesCons(r: PortRule, rules: seq<PortRule>, id: string)
    ensures NodeProxies([r] + rules, id) == (if r.nodeId == id then [ProxyOf(r)] else []) + NodeProxies(rules, id)
  {
    assert ([r] + rules)[1..] == rules;
    assert Filter(OfNode(id), [r] + rules) == (if r.nodeId == id then [r] else []) + Filter(OfNode(id), rules);
  }

  /** One more rule adds one proxy: at its node, when that is among the ids. */
  lemma OneMoreRule(r: PortRule, rules: seq<PortRule>, ids: seq<string>)
    requires Distinct(ids)
    ensures multiset(Flat(NodeProxiesOf([r] + rules), ids))
         == multiset(Flat(NodeProxiesOf(rules), ids)) + Also(ProxyOf(r), r.nodeId in ids)
  {
    forall id | id in ids
      ensures multiset(NodeProxies([r] + rules, id)) == multiset(NodeProxies(rules, id)) + Also(ProxyOf(r), id == r.nodeId)
    {
      NodeProxiesCons(r, rules, id);
    }
    FlatOneMore(NodeProxiesOf(rules), NodeProxiesOf([r] + rules), ids, r.nodeId, ProxyOf(r));
  }

  lemma PartitionStep(r: PortRule, rules: seq<PortRule>, ids: seq<string>)
    requires Distinct(ids) && r.nodeId in ids
    requires multiset(Flat(NodeProxiesOf(rules), ids)) == multiset(PortProxies(rules))
    ensures multiset(Flat(NodeProxiesOf([r] + rules), ids)) == multiset(PortProxies([r] + rules))
  {
    OneMoreRule(r, rules, ids);
    assert PortProxies([r] + rules) == [ProxyOf(r)] + PortProxies(rules);
  }

  lemma {:induction false} NodesPartition(rules: seq<PortRule>, ids: seq<string>)
    requires Distinct(ids) && forall r | r in rules :: r.nodeId in ids
    ensures multiset(Flat(NodeProxiesOf(rules), ids)) == multiset(PortProxies(rules))
  {
    if rules == [] {
      FlatNothing(NodeProxiesOf(rules), ids);
    } else {
      assert rules == [rules[0]] + rules[1..];
      NodesPartition(rules[1..], ids);
      PartitionStep(rules[0], rules[1..], ids);
    }
  }

  // ---------- the partition ----------

  lemma SortedSetFacts(s: set<string>)
    ensures Distinct(SortedSet(s)) && forall k :: k in SortedSet(s) <==> k in s
  {
  }

  lemma FlatIds(rules: seq<PortRule>, rooms: seq<RoomRule>, nodes: seq<string>)
    requires DistinctProcesses(rooms) && NoClash(rules, rooms)
    requires Distinct(nodes) && forall id :: id in nodes <==> id in NodeIds(rules)
    ensures multiset(Flat(ProxiesFor(rules, rooms), nodes + RoomIds(rooms)))
         == multiset(PortProxies(rules)) + multiset(HostProxies(rooms))
    ensures multiset(Flat(VisitorsFor(rooms), nodes + RoomIds(rooms))) == multiset(GuestVisitors(rooms))
  {
    FlatConcat(ProxiesFor(rules, rooms), nodes, RoomIds(rooms));
    FlatConcat(VisitorsFor(rooms), nodes, RoomIds(rooms));
    FlatNodes(rules, rooms, nodes);
    forall r | r in rules ensures r.nodeId in nodes {
      assert r.nodeId in NodeIds(rules);
    }
    NodesPartition(rules, nodes);
    FlatRooms(rules, rooms);
  }

  lemma NothingActive(ids: seq<string>)
    ensures Flat(ProxiesFor([], []), ids) == [] && Flat(VisitorsFor([]), ids) == []
    ensures PortProxies([]) == [] && HostProxies([]) == [] && GuestVisitors([]) == []
  {
    FlatNothing(ProxiesFor([], []), ids);
    FlatNothing(VisitorsFor([]), ids);
  }

  lemma NoIdsNoRules(rules: seq<PortRule>, rooms: seq<RoomRule>)
    requires SortedSet(NodeIds(rules)) + RoomIds(rooms) == []
    ensures rules == [] && rooms == []
  {
    SortedSetFacts(NodeIds(rules));
    assert |SortedSet(NodeIds(rules))| == 0 && |RoomIds(rooms)| == 0;
    assert rules != [] ==> rules[0] in rules && rules[0].nodeId in NodeIds(rules);
  }

  lemma FlatProcessIds(d: Data, rules: seq<PortRule>, rooms: seq<RoomRule>)
    requires DistinctProcesses(rooms) && NoClash(rules, rooms)
    ensures multiset(Flat(ProxiesFor(rules, rooms), ProcessIds(d, rules, rooms)))
         == multiset(PortProxies(rules)) + multiset(HostProxies(rooms))
    ensures multiset(Flat(VisitorsFor(rooms), ProcessIds(d, rules, rooms))) == multiset(GuestVisitors(rooms))
  {
    var nodes := SortedSet(NodeIds(rules));
    SortedSetFacts(NodeIds(rules));
    if nodes + RoomIds(rooms) == [] {
      NoIdsNoRules(rules, rooms);
      NothingActive(ProcessIds(d, rules, rooms));
    } else {
      FlatSort(ProxiesFor(rules, rooms), nodes + RoomIds(rooms), DefaultFirst);
      FlatSort(VisitorsFor(rooms), nodes + RoomIds(rooms), DefaultFirst);
      FlatIds(rules, rooms, nodes);
    }
  }

  // ---------- a clash loses rules ----------

  lemma NodeProxyOrigin(rules: seq<PortRule>, id: string, p: FrpConfig.Proxy)
    requires p in NodeProxies(rules, id)
    ensures exists r :: r in rules && r.nodeId == id && p == ProxyOf(r)
  {
    var own := Filter(OfNode(id), rules);
    var i :| 0 <= i < |own| && NodeProxies(rules, id)[i] == p;
    FilterMembers(OfNode(id), rules);
    assert own[i] in own;
  }

  lemma ProxyOfInjective(a: PortRule, b: PortRule)
    requires ProxyOf(a) == ProxyOf(b)
    ensures a.id == b.id
  {
    assert ProxyName(a) == ProxyName(b) && a.protocol == b.protocol;
    var n := if a.protocol == "http" then 4 else 5;
    assert ProxyName(a)[n..] == a.id && ProxyName(b)[n..] == b.id;
  }

  /** A room's proxy carries metadata, a port rule's never does. */
  lemma RoomProxyIsNoPortProxy(room: RoomRule, r: PortRule)
    ensures ProxyOf(r) !in RoomProxies(room)
  {
    assert "room_id" in RoomMetas(room);
    assert ProxyOf(r).metadatas == map[];
  }

  lemma ClashLosesOne(rules: seq<PortRule>, rooms: seq<RoomRule>, id: string, r: PortRule, q: RoomRule)
    requires DistinctPortIds(rules) && r in rules && q in rooms && r.nodeId == RoomProcessId(q.id)
    ensures ProxyOf(r) !in ProxiesFor(rules, rooms)(id)
  {
    RoomForSome(rooms, id);
    match RoomFor(rooms, id)
    case Some(room) => RoomProxyIsNoPortProxy(room, r);
    case None =>
      if ProxyOf(r) in NodeProxies(rules, id) {
        NodeProxyOrigin(rules, id, ProxyOf(r));
        var r' :| r' in rules && r'.nodeId == id && ProxyOf(r) == ProxyOf(r');
        ProxyOfInjective(r, r');
        assert false;
      }
  }

  /** A rule whose node carries the id of an active room's process has no proxy in any configuration. */
  lemma ClashLosesRule(rules: seq<PortRule>, rooms: seq<RoomRule>, ids: seq<string>, r: PortRule, q: RoomRule)
    requires DistinctPortIds(rules) && r in rules && q in rooms && r.nodeId == RoomProcessId(q.id)
    ensures ProxyOf(r) in PortProxies(rules)
    ensures ProxyOf(r) !in Flat(ProxiesFor(rules, rooms), ids)
  {
    var i :| 0 <= i < |rules| && rules[i] == r;
    assert PortProxies(rules)[i] == ProxyOf(r);
    if ProxyOf(r) in Flat(ProxiesFor(rules, rooms), ids) {
      FlatOrigin(ProxiesFor(rules, rooms), ids, ProxyOf(r));
      var id :| id in ids && ProxyOf(r) in ProxiesFor(rules, rooms)(id);
      ClashLosesOne(rules, rooms, id, r, q);
      assert false;
    }
  }

  // ---------- the shape of a successful rendering ----------

  ghost function RenderedIds(d: Data): seq<string> {
    ProcessIds(d, ActivePorts(d), ActiveRooms(d))
  }

  lemma RenderActiveShape(isIP: string -> bool, d: Data, rules: seq<PortRule>, rooms: seq<RoomRule>)
    requires RenderActive(isIP, d, rules, rooms).Ok?
    ensures var assignment := AdminPorts.Assign(AdminPorts.BaseOf(d.frpc.adminPort), ProcessIds(d, rules, rooms));
            && assignment.Assigned?
            && RenderActive(isIP, d, rules, rooms) == ConfigureAll(d, rules, rooms, ProcessIds(d, rules, rooms), assignment.ports)
  {
  }

  lemma RenderShape(isIP: string -> bool, data: Data)
    requires Render(isIP, data).Ok?
    ensures var d := Normalized(data);
            var ids := RenderedIds(d);
            var ports := AdminPorts.Assign(AdminPorts.BaseOf(d.frpc.adminPort), ids);
            && ports.Assigned? && (forall id | id in ids :: id in ports.ports)
            && ConfigureAll(d, ActivePorts(d), ActiveRooms(d), ids, ports.ports) == Render(isIP, data)
    ensures Normalized(data).portRules == data.portRules && Normalized(data).roomRules == data.roomRules
  {
    var d := Normalized(data);
    RenderActiveShape(isIP, d, ActivePorts(d), ActiveRooms(d));
    AdminPorts.AssignedCovers(AdminPorts.BaseOf(d.frpc.adminPort), RenderedIds(d));
  }

  lemma RenderIsFlat(isIP: string -> bool, data: Data)
    requires Render(isIP, data).Ok?
    ensures var d := Normalized(data);
            && AllProxies(Render(isIP, data).value) == Flat(ProxiesFor(ActivePorts(d), ActiveRooms(d)), RenderedIds(d))
            && AllVisitors(Render(isIP, data).value) == Flat(VisitorsFor(ActiveRooms(d)), RenderedIds(d))
  {
    RenderShape(isIP, data);
    var d := Normalized(data);
    var ids := RenderedIds(d);
    var ports := AdminPorts.Assign(AdminPorts.BaseOf(d.frpc.adminPort), ids).ports;
    AllAreFlat(d, ActivePorts(d), ActiveRooms(d), ids, ports);
  }

  /** Rendering puts every enabled rule into the configurations exactly once, and nothing else, precisely
      when no node with an enabled rule carries the id of an active room's process. */
  lemma RenderPartitions(isIP: string -> bool, d: Data)
    requires Consistent(d) && DistinctProcesses(ActiveRooms(d)) && Render(isIP, d).Ok?
    ensures multiset(AllProxies(Render(isIP, d).value)) == multiset(PortProxies(ActivePorts(d))) + multiset(HostProxies(ActiveRooms(d)))
       <==> NoClash(ActivePorts(d), ActiveRooms(d))
    ensures NoClash(ActivePorts(d), ActiveRooms(d)) ==>
              multiset(AllVisitors(Render(isIP, d).value)) == multiset(GuestVisitors(ActiveRooms(d)))
  {
    RenderShape(isIP, d);
    RenderIsFlat(isIP, d);
    ActivePortsFacts(d);
    PartitionIff(Normalized(d), ActivePorts(d), ActiveRooms(d));
  }

  lemma PartitionIff(d: Data, rules: seq<PortRule>, rooms: seq<RoomRule>)
    requires DistinctPortIds(rules) && DistinctProcesses(rooms)
    ensures multiset(Flat(ProxiesFor(rules, rooms), ProcessIds(d, rules, rooms)))
         == multiset(PortProxies(rules)) + multiset(HostProxies(rooms))
       <==> NoClash(rules, rooms)
    ensures NoClash(rules, rooms) ==>
              multiset(Flat(VisitorsFor(rooms), ProcessIds(d, rules, rooms))) == multiset(GuestVisitors(rooms))
  {
    if NoClash(rules, rooms) {
      FlatProcessIds(d, rules, rooms);
    } else {
      var r, q :| r in rules && q in rooms && r.nodeId == RoomProcessId(q.id);
      ClashLosesRule(rules, rooms, ProcessIds(d, rules, rooms), r, q);
      assert ProxyOf(r) in multiset(PortProxies(rules));
      assert ProxyOf(r) !in multiset(Flat(ProxiesFor(rules, rooms), ProcessIds(d, rules, rooms)));
    }
  }
}
