/** Direct mode: from the stored rules to one frpc configuration per node and per room
    (internal/client/service.go, buildDirectFrpcConfigs and what it calls). */
module DirectRender {
  import opened Wrappers
  import opened Text
  import opened Order
  import opened Lists
  import opened Validate
  import opened Rules
  import FrpConfig
  import Decimal
  import AdminPorts
  import ProcessManager

  /** One configuration before it is turned into text. */
  datatype Rendered = Rendered(
    nodeId: string, configPath: string, logPath: string, restartKey: string, client: FrpConfig.ClientConfig)

  ghost function Runtime(r: Rendered): ProcessManager.RuntimeConfig {
    ProcessManager.RuntimeConfig(r.nodeId, r.configPath, r.logPath, r.restartKey, FrpConfig.Render(r.client))
  }

  // ---------- sorted rules ----------

  predicate PortRuleLe(a: PortRule, b: PortRule) {
    if a.createdAt == b.createdAt then StrLe(a.id, b.id) else a.createdAt <= b.createdAt
  }

  predicate RoomRuleLe(a: RoomRule, b: RoomRule) {
    if a.createdAt == b.createdAt then StrLe(a.id, b.id) else a.createdAt <= b.createdAt
  }

  function ValuesAt<V>(m: map<string, V>, keys: seq<string>): (vs: seq<V>)
    requires forall k | k in keys :: k in m
    ensures |vs| == |keys| && forall i | 0 <= i < |keys| :: vs[i] == m[keys[i]]
  {
    seq(|keys|, i requires 0 <= i < |keys| => m[keys[i]])
  }

  ghost function SortedPortRules(m: map<string, PortRule>): seq<PortRule> {
    Sort(ValuesAt(m, SortedKeys(m)), PortRuleLe)
  }

  ghost function SortedRoomRules(m: map<string, RoomRule>): seq<RoomRule> {
    Sort(ValuesAt(m, SortedKeys(m)), RoomRuleLe)
  }

  predicate PortEnabled(r: PortRule) { r.enabled }

  predicate RoomEnabled(r: RoomRule) { r.enabled }

  // ---------- names and paths ----------

  function SafeFilePart(v: string): (r: string)
    ensures (v != "" && forall i | 0 <= i < |v| :: IsIdChar(v[i])) ==> r == v
    ensures r != "" && forall i | 0 <= i < |r| :: IsIdChar(r[i])
  {
    if v == "" then "node" else seq(|v|, i requires 0 <= i < |v| => if IsIdChar(v[i]) then v[i] else '-')
  }

  function RoomProcessId(ruleId: string): string { "room-" + SafeFilePart(ruleId) }

  function ConfigPath(frpc: Frpc, id: string): string {
    if id == "" || id == DEFAULT_NODE_ID then frpc.workDir + "/" + "frpc.toml"
    else frpc.workDir + "/" + ("frpc." + SafeFilePart(id) + ".toml")
  }

  function LogPath(frpc: Frpc, id: string): string {
    if id == "" || id == DEFAULT_NODE_ID then frpc.workDir + "/" + "frpc.log"
    else frpc.workDir + "/" + ("frpc." + SafeFilePart(id) + ".log")
  }

  /** The fields whose change forces a restart, joined with NUL. */
  function RestartFields(c: FrpConfig.ClientConfig): seq<string> {
    [c.serverAddr, Decimal.PrintInt(c.serverPort), FrpConfig.DefaultString(c.authMethod, "token"), c.authToken,
     FrpConfig.DefaultString(c.adminAddr, "127.0.0.1"), Decimal.PrintInt(FrpConfig.DefaultInt(c.adminPort, 7400)),
     FrpConfig.DefaultString(c.adminUser, "admin"), c.adminPassword]
  }

  const NUL: char := 0 as char

  function RestartKey(c: FrpConfig.ClientConfig): string {
    Join(RestartFields(c), NUL)
  }

  // ---------- proxies and visitors ----------

  function ProxyName(r: PortRule): string {
    if r.protocol == "http" then "web." + r.id else "port." + r.id
  }

  function HostHeader(r: PortRule): string {
    if r.protocol != "http" then ""
    else if r.localIP in {"", "0.0.0.0", "::", "[::]"} then "127.0.0.1"
    else r.localIP
  }

  function ProxyOf(r: PortRule): FrpConfig.Proxy {
    FrpConfig.Proxy(ProxyName(r), r.protocol, r.localIP, r.localPort, r.remotePort, "",
                    if r.protocol == "http" && r.domain != "" then [r.domain] else [], HostHeader(r), map[])
  }

  function RoomMetas(r: RoomRule): map<string, string> {
    map["room_id" := r.roomId, "room_device_id" := r.deviceId, "room_device_token" := r.deviceToken,
        "room_role" := r.role, "room_rule_id" := r.id]
  }

  function RoomProxies(r: RoomRule): seq<FrpConfig.Proxy> {
    if r.role == "host" then
      [FrpConfig.Proxy(r.serverName, TunnelProtocol(r.tunnelProtocol), r.localIP, r.localPort, 0, r.secretKey, [], "",
                       RoomMetas(r))]
    else []
  }

  function RoomVisitors(r: RoomRule): seq<FrpConfig.Visitor> {
    if r.role == "host" then []
    else [FrpConfig.Visitor("visitor." + r.id + "." + TunnelProtocol(r.tunnelProtocol), TunnelProtocol(r.tunnelProtocol),
                            r.serverName, r.secretKey, r.bindAddr, r.bindPort)]
  }

  function OfNode(id: string): PortRule -> bool {
    (r: PortRule) => r.nodeId == id
  }

  /** The proxies of a node's rules, in order. */
  function NodeProxies(rules: seq<PortRule>, id: string): seq<FrpConfig.Proxy> {
    Each(ProxyOf, Filter(OfNode(id), rules))
  }

  function NodeClient(d: Data, id: string, rules: seq<PortRule>, adminPort: int): FrpConfig.ClientConfig
    requires id in d.nodes
  {
    var n := d.nodes[id];
    FrpConfig.ClientConfig(n.serverAddr, n.frpsPort, "", n.authMethod, n.authToken, d.frpc.adminAddr, adminPort,
                           d.frpc.adminUser, d.frpc.adminPassword, "", "", "", map[], NodeProxies(rules, id), [])
  }

  function RoomClient(d: Data, r: RoomRule, adminPort: int): FrpConfig.ClientConfig {
    FrpConfig.ClientConfig(r.serverAddr, r.serverPort, TrimSpace(r.natHoleStunServer), "token", "", d.frpc.adminAddr, adminPort,
                           d.frpc.adminUser, d.frpc.adminPassword, "", "", "", RoomMetas(r), RoomProxies(r), RoomVisitors(r))
  }

  // ---------- the configurations ----------

  predicate DefaultFirst(a: string, b: string) {
    a == DEFAULT_NODE_ID || (b != DEFAULT_NODE_ID && StrLe(a, b))
  }

  function NodeIds(rules: seq<PortRule>): set<string> {
    set r | r in rules :: r.nodeId
  }

  function ProcessIdOf(room: RoomRule): string { RoomProcessId(room.id) }

  function RoomIds(rooms: seq<RoomRule>): seq<string> { Each(ProcessIdOf, rooms) }

  ghost function SortedSet(s: set<string>): seq<string> {
    SortedKeys(map k | k in s :: true)
  }

  /** Without an enabled rule one configuration is still rendered: for the default node, or for some node
      when there is no default one. The source takes the node its map yields first; here it is the first
      in the order of the keys. */
  ghost function FallbackIds(d: Data): seq<string> {
    if DEFAULT_NODE_ID in d.nodes then [d.nodes[DEFAULT_NODE_ID].id]
    else
      var keys := SortedKeys(d.nodes);
      if keys == [] then [DEFAULT_NODE_ID] else [d.nodes[keys[0]].id]
  }

  ghost function ProcessIds(d: Data, rules: seq<PortRule>, rooms: seq<RoomRule>): seq<string> {
    var ids := SortedSet(NodeIds(rules)) + RoomIds(rooms);
    Sort(if ids == [] then FallbackIds(d) else ids, DefaultFirst)
  }

  /** The room whose process has this id; a later room hides an earlier one. */
  function RoomFor(rooms: seq<RoomRule>, id: string): Option<RoomRule> {
    if rooms == [] then None
    else
      var last := rooms[|rooms| - 1];
      if RoomProcessId(last.id) == id then Some(last) else RoomFor(rooms[..|rooms| - 1], id)
  }

  function Configure(d: Data, rules: seq<PortRule>, rooms: seq<RoomRule>, id: string, adminPort: int): Result<Rendered> {
    match RoomFor(rooms, id)
    case Some(room) => Ok(Pack(d, id, RoomClient(d, room, adminPort)))
    case None =>
      if id !in d.nodes then Err(NotFound) else Ok(Pack(d, id, NodeClient(d, id, rules, adminPort)))
  }

  function Pack(d: Data, id: string, client: FrpConfig.ClientConfig): Rendered {
    Rendered(id, ConfigPath(d.frpc, id), LogPath(d.frpc, id), RestartKey(client), client)
  }

  function PortOf(ports: map<string, int>, id: string): int {
    if id in ports then ports[id] else 0
  }

  function Configurer(d: Data, rules: seq<PortRule>, rooms: seq<RoomRule>, ports: map<string, int>): string -> Result<Rendered> {
    id => Configure(d, rules, rooms, id, PortOf(ports, id))
  }

  function ConfigureAll(d: Data, rules: seq<PortRule>, rooms: seq<RoomRule>, ids: seq<string>, ports: map<string, int>): Result<seq<Rendered>> {
    Collect(Configurer(d, rules, rooms, ports), ids)
  }

  function PortCheck(isIP: string -> bool, d: Data): PortRule -> Outcome {
    (r: PortRule) => ValidatePortRule(isIP, d, r)
  }

  function RoomCheck(isIP: string -> bool, d: Data): RoomRule -> Outcome {
    (r: RoomRule) => ValidateRoomRule(isIP, d, r)
  }

  ghost function ActivePorts(d: Data): seq<PortRule> { Filter(PortEnabled, SortedPortRules(d.portRules)) }

  ghost function ActiveRooms(d: Data): seq<RoomRule> { Filter(RoomEnabled, SortedRoomRules(d.roomRules)) }

  ghost function ConfigureAssigned(d: Data, rules: seq<PortRule>, rooms: seq<RoomRule>, ids: seq<string>): Result<seq<Rendered>> {
    match AdminPorts.Assign(AdminPorts.BaseOf(d.frpc.adminPort), ids)
    case NotEnough => Err(BadRequest)
    case BadPort => Err(BadRequest)
    case NeverReturns => Err(Diverges)
    case Assigned(ports, _) => ConfigureAll(d, rules, rooms, ids, ports)
  }

  ghost function RenderActive(isIP: string -> bool, d: Data, rules: seq<PortRule>, rooms: seq<RoomRule>): Result<seq<Rendered>> {
    var portCheck := FirstFailure(PortCheck(isIP, d), rules);
    var roomCheck := FirstFailure(RoomCheck(isIP, d), rooms);
    if portCheck.Fail? then Err(portCheck.error)
    else if roomCheck.Fail? then Err(roomCheck.error)
    else ConfigureAssigned(d, rules, rooms, ProcessIds(d, rules, rooms))
  }

  /** buildDirectFrpcConfigs */
  ghost function Render(isIP: string -> bool, data: Data): Result<seq<Rendered>> {
    var d := Normalized(data);
    RenderActive(isIP, d, ActivePorts(d), ActiveRooms(d))
  }
}
