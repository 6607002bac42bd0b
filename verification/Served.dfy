/** What the file of a node or a room must say about its rules, field by field, and why the configurations that direct
    mode builds say it (internal/client/service.go, buildDirectFrpcConfigForNode, buildRoomFrpcConfig). */
module Served {
  import opened Wrappers
  import opened Text
  import opened Order
  import opened Lists
  import opened Validate
  import opened Rules
  import opened RuleChecks
  import opened DirectRender
  import opened DirectPartition
  import opened DirectApart
  import opened DirectBuild
  import opened FrpConfigDecode
  import FrpConfig
  import WebDomain

  /** The file of a process id. */
  function FilePath(workDir: string, id: string): string {
    if id == "default" then workDir + "/frpc.toml" else workDir + "/frpc." + id + ".toml"
  }

  lemma ConfigPathIs(frpc: Frpc, id: string)
    requires SafeId(id)
    ensures ConfigPath(frpc, id) == FilePath(frpc.workDir, id)
  {
    SafeIdIsKey(id);
    assert frpc.workDir + "/" + "frpc.toml" == frpc.workDir + "/frpc.toml";
    assert frpc.workDir + "/" + ("frpc." + id + ".toml") == frpc.workDir + "/frpc." + id + ".toml";
  }

  /** The log of a process id. */
  function LogFilePath(workDir: string, id: string): string {
    if id == "default" then workDir + "/frpc.log" else workDir + "/frpc." + id + ".log"
  }

  lemma LogPathIs(frpc: Frpc, id: string)
    requires SafeId(id)
    ensures LogPath(frpc, id) == LogFilePath(frpc.workDir, id)
  {
    SafeIdIsKey(id);
    assert frpc.workDir + "/" + "frpc.log" == frpc.workDir + "/frpc.log";
    assert frpc.workDir + "/" + ("frpc." + id + ".log") == frpc.workDir + "/frpc." + id + ".log";
  }

  // ---------- the process ids ----------

  /** The default node comes first, and the others follow in the order of their ids; this is the order in which they
      get their admin ports. */
  lemma ProcessIdsInOrder(d: Data, rules: seq<PortRule>, rooms: seq<RoomRule>)
    ensures var ids := ProcessIds(d, rules, rooms);
            forall i, j | 0 <= i < j < |ids| :: ids[i] == "default" || (ids[j] != "default" && StrLe(ids[i], ids[j]))
  {
    var ids := SortedSet(NodeIds(rules)) + RoomIds(rooms);
    DefaultFirstOrders([]);
    SortSorted(if ids == [] then FallbackIds(d) else ids, DefaultFirst);
  }

  /** They are the nodes of the rules and the processes of the rooms; without any, one node of the store, the default one if
      it is there, or the default id. */
  lemma ProcessIdsAre(d: Data, rules: seq<PortRule>, rooms: seq<RoomRule>)
    requires NodesKeyed(d.nodes)
    ensures var ids := ProcessIds(d, rules, rooms);
            && (rules != [] || rooms != [] ==>
                 forall id :: id in ids <==>
                   (exists r :: r in rules && r.nodeId == id) || (exists q :: q in rooms && "room-" + SafeFilePart(q.id) == id))
            && (rules == [] && rooms == [] ==>
                 && |ids| == 1 && (d.nodes != map[] ==> ids[0] in d.nodes)
                 && ("default" in d.nodes || d.nodes == map[] ==> ids[0] == "default"))
  {
    var ids := SortedSet(NodeIds(rules)) + RoomIds(rooms);
    SortedSetFacts(NodeIds(rules));
    SortMembers(if ids == [] then FallbackIds(d) else ids, DefaultFirst);
    SortMultiset(if ids == [] then FallbackIds(d) else ids, DefaultFirst);
    if rules != [] || rooms != [] {
      SomeIdsListed(rules, rooms);
    } else {
      NoIds();
      FallbackIsNode(d);
    }
  }

  lemma SomeIdsListed(rules: seq<PortRule>, rooms: seq<RoomRule>)
    requires rules != [] || rooms != []
    ensures SortedSet(NodeIds(rules)) + RoomIds(rooms) != []
    ensures forall id :: id in SortedSet(NodeIds(rules)) + RoomIds(rooms) <==>
              (exists r :: r in rules && r.nodeId == id) || (exists q :: q in rooms && "room-" + SafeFilePart(q.id) == id)
  {
    var ids := SortedSet(NodeIds(rules)) + RoomIds(rooms);
    SortedSetFacts(NodeIds(rules));
    forall q | q in rooms ensures "room-" + SafeFilePart(q.id) in RoomIds(rooms) {
      var i :| 0 <= i < |rooms| && rooms[i] == q;
      assert RoomIds(rooms)[i] == RoomProcessId(q.id);
    }
    forall id | id in RoomIds(rooms) ensures exists q :: q in rooms && "room-" + SafeFilePart(q.id) == id {
      var i :| 0 <= i < |rooms| && RoomIds(rooms)[i] == id;
      assert rooms[i] in rooms;
    }
    if rules != [] {
      assert rules[0] in rules && rules[0].nodeId in ids;
    } else {
      assert rooms[0] in rooms && "room-" + SafeFilePart(rooms[0].id) in ids;
    }
  }

  lemma NoIds()
    ensures SortedSet(NodeIds([])) + RoomIds([]) == []
  {
    SortedSetFacts(NodeIds([]));
    assert NodeIds([]) == {};
  }

  lemma FallbackIsNode(d: Data)
    requires NodesKeyed(d.nodes)
    ensures |FallbackIds(d)| == 1 && (d.nodes != map[] ==> FallbackIds(d)[0] in d.nodes)
    ensures "default" in d.nodes || d.nodes == map[] ==> FallbackIds(d)[0] == "default"
  {
    var keys := SortedKeys(d.nodes);
    if d.nodes != map[] {
      var k :| k in d.nodes;
      assert k in keys;
      assert keys[0] in keys;
    }
  }

  // ---------- port rules ----------

  /** The proxy says what the rule says: which service, where it runs and how it is reached. */
  predicate Carries(p: FrpConfig.Proxy, r: PortRule) {
    && p.name == (if r.protocol == "http" then "web." + r.id else "port." + r.id)
    && p.kind == r.protocol && p.localIP == r.localIP && p.localPort == r.localPort
    && p.secretKey == "" && p.metadatas == map[]
    && (r.protocol != "http" ==> p.remotePort == r.remotePort && p.customDomains == [] && p.hostHeaderRewrite == "")
    && (r.protocol == "http" ==>
         && p.customDomains == [r.domain]
         && p.hostHeaderRewrite == if r.localIP in {"0.0.0.0", "::", "[::]"} then "127.0.0.1" else r.localIP)
  }

  lemma ProxyCarries(isIP: string -> bool, d: Data, r: PortRule)
    requires ValidatePortRule(isIP, d, r) == Pass
    ensures Carries(NormalProxy(ProxyOf(r)), r)
  {
    PortRuleValidIff(isIP, d, r);
  }

  /** All the enabled rules of a node, each once, the oldest first. */
  ghost predicate RulesOfNode(d: Data, id: string, rules: seq<PortRule>) {
    && (forall r :: r in rules <==> r.id in d.portRules && d.portRules[r.id] == r && r.enabled && r.nodeId == id)
    && (forall i, j | 0 <= i < j < |rules| ::
          && rules[i].id != rules[j].id && rules[i].createdAt <= rules[j].createdAt
          && (rules[i].createdAt == rules[j].createdAt ==> StrLe(rules[i].id, rules[j].id)))
  }

  lemma ActivePortsSorted(d: Data)
    ensures Sorted(ActivePorts(d), PortRuleLe)
  {
    PortRuleLeOrders([]);
    SortSorted(ValuesAt(d.portRules, SortedKeys(d.portRules)), PortRuleLe);
    FilterSorted(PortEnabled, SortedPortRules(d.portRules), PortRuleLe);
  }

  lemma OfNodeRules(d: Data, id: string)
    requires PortRulesKeyed(d.portRules)
    ensures RulesOfNode(d, id, Filter(OfNode(id), ActivePorts(d)))
  {
    var active := ActivePorts(d);
    var own := Filter(OfNode(id), active);
    ActivePortsFacts(d);
    ActivePortsSorted(d);
    FilterMembers(OfNode(id), active);
    FilterSorted(OfNode(id), active, PortRuleLe);
    FilterDistinct(OfNode(id), active);
    forall i, j | 0 <= i < j < |own| ensures own[i].id != own[j].id && PortRuleLe(own[i], own[j]) {
      assert own[i] in own && own[j] in own && own[i] != own[j];
    }
  }

  /** One proxy for each rule, in order. */
  ghost predicate CarriesAll(ps: seq<FrpConfig.Proxy>, rules: seq<PortRule>) {
    |ps| == |rules| && forall i | 0 <= i < |rules| :: Carries(ps[i], rules[i])
  }

  lemma NodeProxiesCarry(isIP: string -> bool, d: Data, id: string, active: seq<PortRule>)
    requires forall r | r in active :: ValidatePortRule(isIP, d, r) == Pass
    ensures CarriesAll(NormalProxies(NodeProxies(active, id)), Filter(OfNode(id), active))
  {
    var own := Filter(OfNode(id), active);
    FilterMembers(OfNode(id), active);
    forall i | 0 <= i < |own| ensures Carries(NormalProxies(NodeProxies(active, id))[i], own[i]) {
      assert own[i] in own;
      ProxyCarries(isIP, d, own[i]);
    }
  }

  /** The frpc of a node connects to it, and listens for its manager as configured. */
  predicate ConnectsTo(cfg: FrpConfig.ClientConfig, node: NodeConfig, frpc: Frpc, adminPort: int) {
    && cfg.serverAddr == node.serverAddr && cfg.serverPort == node.frpsPort && cfg.natHoleStunServer == ""
    && cfg.authMethod == (if node.authMethod == "" then "token" else node.authMethod) && cfg.authToken == node.authToken
    && Listens(cfg, frpc, adminPort)
  }

  predicate Listens(cfg: FrpConfig.ClientConfig, frpc: Frpc, adminPort: int) {
    && cfg.adminAddr == frpc.adminAddr && cfg.adminPort == adminPort
    && cfg.adminUser == frpc.adminUser && cfg.adminPassword == frpc.adminPassword
  }

  /** What the configuration of a node says. */
  ghost predicate SpeaksForNode(d: Data, cfg: FrpConfig.ClientConfig, id: string, adminPort: int) {
    && id in d.nodes && ConnectsTo(cfg, d.nodes[id], d.frpc, adminPort)
    && cfg.visitors == [] && cfg.metadatas == map[]
    && exists rules :: RulesOfNode(d, id, rules) && CarriesAll(cfg.proxies, rules)
  }

  /** The settings a store has after normalising. */
  predicate Filled(frpc: Frpc) { frpc.adminAddr != "" && frpc.adminPort != 0 && frpc.adminUser != "" }

  lemma NodeClientSpeaks(isIP: string -> bool, d: Data, id: string, adminPort: int)
    requires PortRulesKeyed(d.portRules) && id in d.nodes && Filled(d.frpc) && adminPort != 0
    requires forall r | r in ActivePorts(d) :: ValidatePortRule(isIP, d, r) == Pass
    ensures SpeaksForNode(d, Normalize(NodeClient(d, id, ActivePorts(d), adminPort)), id, adminPort)
  {
    OfNodeRules(d, id);
    NodeProxiesCarry(isIP, d, id, ActivePorts(d));
  }

  // ---------- room rules ----------

  function TunnelOf(q: RoomRule): string {
    if Lower(TrimSpace(q.tunnelProtocol)) == "stcp" then "stcp" else "xtcp"
  }

  predicate IsRoomMetas(m: map<string, string>, q: RoomRule) {
    m == map["room_id" := q.roomId, "room_device_id" := q.deviceId, "room_device_token" := q.deviceToken,
             "room_role" := q.role, "room_rule_id" := q.id]
  }

  /** The host of a room offers its service under the room's name. */
  predicate Hosts(p: FrpConfig.Proxy, q: RoomRule) {
    && p.name == q.serverName && p.kind == TunnelOf(q) && p.localIP == q.localIP && p.localPort == q.localPort
    && p.secretKey == q.secretKey && IsRoomMetas(p.metadatas, q)
    && p.remotePort == 0 && p.customDomains == [] && p.hostHeaderRewrite == ""
  }

  /** A visitor reaches the room's service at its own address. */
  predicate Visits(v: FrpConfig.Visitor, q: RoomRule) {
    && v.name == "visitor." + q.id + "." + TunnelOf(q) && v.kind == TunnelOf(q)
    && v.serverName == q.serverName && v.secretKey == q.secretKey && v.bindAddr == q.bindAddr && v.bindPort == q.bindPort
  }

  /** What the configuration of a room says: one proxy for its host, one visitor for a visitor. */
  predicate SpeaksForRoom(d: Data, cfg: FrpConfig.ClientConfig, q: RoomRule, adminPort: int) {
    && cfg.serverAddr == q.serverAddr && cfg.serverPort == q.serverPort && cfg.natHoleStunServer == TrimSpace(q.natHoleStunServer)
    && cfg.authMethod == "token" && cfg.authToken == "" && Listens(cfg, d.frpc, adminPort) && IsRoomMetas(cfg.metadatas, q)
    && (q.role == "host" ==> |cfg.proxies| == 1 && Hosts(cfg.proxies[0], q) && cfg.visitors == [])
    && (q.role == "visitor" ==> cfg.proxies == [] && |cfg.visitors| == 1 && Visits(cfg.visitors[0], q))
  }

  lemma ValidTunnel(isIP: string -> bool, d: Data, q: RoomRule)
    requires ValidateRoomRule(isIP, d, q) == Pass
    ensures TunnelProtocol(q.tunnelProtocol) == TunnelOf(q)
    ensures q.role == "host" ==> q.localPort > 0
    ensures q.role == "visitor" ==> q.bindAddr != ""
    ensures q.role == "host" || q.role == "visitor"
  {
    RoomRuleValidIff(isIP, d, q);
  }

  lemma RoomClientSpeaks(isIP: string -> bool, d: Data, q: RoomRule, adminPort: int)
    requires Filled(d.frpc) && adminPort != 0 && ValidateRoomRule(isIP, d, q) == Pass
    ensures SpeaksForRoom(d, Normalize(RoomClient(d, q, adminPort)), q, adminPort)
  {
    ValidTunnel(isIP, d, q);
    RoomMetasStay(d, q, adminPort);
  }

  lemma RoomMetasStay(d: Data, q: RoomRule, adminPort: int)
    ensures FrpConfig.GlobalMetas(RoomClient(d, q, adminPort)) == RoomMetas(q)
  {
    assert "room_id" in RoomMetas(q);
  }
}
