/** The direct-mode rule store of the local client: its data, the checks on nodes and rules, and the
    changes requests make to a snapshot (internal/client/models.go, internal/client/service.go). */
module Rules {
  import opened Wrappers
  import opened Text
  import opened Validate
  import Decimal
  import PortRanges
  import WebDomain

  const DEFAULT_NODE_ID: string := "default"

  datatype NodeConfig = NodeConfig(
    id: string, name: string, serverAddr: string, frpsPort: int, authMethod: string, authToken: string,
    webBaseDomain: string, webScheme: string, vhostHTTPPort: int, allowPorts: seq<PortRange>,
    createdAt: int, updatedAt: int)

  datatype PortRule = PortRule(
    id: string, nodeId: string, name: string, protocol: string, localIP: string, localPort: int,
    remotePort: int, subdomain: string, domain: string, enabled: bool, createdAt: int, updatedAt: int)

  datatype RoomRule = RoomRule(
    id: string, roomId: string, name: string, role: string, tunnelProtocol: string, natHoleStunServer: string,
    serverName: string, serverAddr: string, serverPort: int, deviceId: string, deviceToken: string,
    secretKey: string, localIP: string, localPort: int, bindAddr: string, bindPort: int,
    enabled: bool, createdAt: int, updatedAt: int)

  datatype Frpc = Frpc(path: string, workDir: string, adminAddr: string, adminPort: int, adminUser: string, adminPassword: string)

  /** `legacy` says that a control server or a group is configured; without rules the client then renders
      its older group configuration. */
  datatype Data = Data(
    legacy: bool, frpc: Frpc, nodes: map<string, NodeConfig>, portRules: map<string, PortRule>,
    roomRules: map<string, RoomRule>)

  function OrElse(v: string, fallback: string): string { if v == "" then fallback else v }

  function Normalized(d: Data): Data {
    d.(frpc := Frpc(OrElse(d.frpc.path, "frpc.exe"), OrElse(d.frpc.workDir, "data/frpc"),
                    OrElse(d.frpc.adminAddr, "127.0.0.1"), if d.frpc.adminPort == 0 then 7400 else d.frpc.adminPort,
                    OrElse(d.frpc.adminUser, "admin"), d.frpc.adminPassword))
  }

  // ---------- nodes ----------

  datatype NodeInput = NodeInput(
    id: string, name: string, serverAddr: string, frpsPort: int, authMethod: string, authToken: string,
    webBaseDomain: string, webScheme: string, vhostHTTPPort: int, allowPorts: seq<PortRange>)

  predicate HostOnly(addr: string) {
    !Contains(addr, "://") && !ContainsAny(addr, " /\\")
  }

  function ValidateNode(n: NodeConfig): Outcome {
    if !IdPattern(n.id, 2) then Fail(BadRequest)
    else if !Name(n.name) then Fail(BadRequest)
    else if TrimSpace(n.serverAddr) == "" then Fail(BadRequest)
    else if !HostOnly(n.serverAddr) then Fail(BadRequest)
    else if !Port(n.frpsPort) then Fail(BadRequest)
    else if n.authMethod != "token" then Fail(BadRequest)
    else if n.webScheme != "" && n.webScheme != "http" && n.webScheme != "https" then Fail(BadRequest)
    else if n.webBaseDomain != "" && (ContainsAny(n.webBaseDomain, " /\\:") || !Port(n.vhostHTTPPort)) then Fail(BadRequest)
    else if !ValidRanges(n.allowPorts) then Fail(BadRequest)
    else Pass
  }

  function WithDefaults(n: NodeConfig): NodeConfig {
    n.(name := OrElse(n.name, n.id),
       frpsPort := if n.frpsPort == 0 then 7000 else n.frpsPort,
       authMethod := OrElse(n.authMethod, "token"),
       webScheme := OrElse(n.webScheme, "https"),
       vhostHTTPPort := if n.vhostHTTPPort == 0 && n.webBaseDomain != "" then 8080 else n.vhostHTTPPort)
  }

  /** The node before it is checked. */
  function NodeDraft(id: string, input: NodeInput, authToken: string, createdAt: int, now: int): NodeConfig {
    WithDefaults(NodeConfig(
      id, TrimSpace(input.name), TrimSpace(input.serverAddr), input.frpsPort, Lower(TrimSpace(input.authMethod)),
      authToken, WebDomain.NormalizeDomain(input.webBaseDomain), Lower(TrimSpace(input.webScheme)),
      input.vhostHTTPPort, PortRanges.NormalizeRanges(input.allowPorts), createdAt, now))
  }

  function NodeFromInput(id: string, input: NodeInput, authToken: string, createdAt: int, now: int): Result<NodeConfig> {
    var n := NodeDraft(id, input, authToken, createdAt, now);
    var valid := ValidateNode(n);
    if valid.Pass? then Ok(n) else Err(valid.error)
  }

  /** buildNodeConfig: the id is the requested one, else one made from the name, else a generated one. */
  function BuildNode(input: NodeInput, generatedId: string, now: int): (r: Result<NodeConfig>)
    ensures r.Ok? ==> IdPattern(r.value.id, 2)
  {
    var asked := TrimSpace(input.id);
    var named := if asked == "" then WebDomain.SanitizeNodeId(input.name) else asked;
    NodeFromInput(if named == "" then generatedId else named, input, TrimSpace(input.authToken), now, now)
  }

  datatype TokenChange = KeepToken | SetToken(token: string) | ClearToken

  function UpdateNode(id: string, input: NodeInput, token: TokenChange, existing: NodeConfig, now: int): (r: Result<NodeConfig>)
    ensures r.Ok? ==> r.value.id == id && IdPattern(id, 2)
  {
    var authToken := match token
      case KeepToken => existing.authToken
      case SetToken(t) => TrimSpace(t)
      case ClearToken => "";
    NodeFromInput(id, input, authToken, existing.createdAt, now)
  }

  // ---------- port rules ----------

  predicate PortClash(rule: PortRule, existing: PortRule) {
    && existing.id != rule.id && existing.nodeId == rule.nodeId
    && (if rule.protocol == "http"
        then existing.protocol == "http" && EqualFold(existing.domain, rule.domain)
        else existing.protocol == rule.protocol && existing.remotePort == rule.remotePort)
  }

  function ValidatePortRule(isIP: string -> bool, d: Data, rule: PortRule): Outcome {
    if rule.id == "" then Fail(BadRequest)
    else if rule.nodeId == "" then Fail(BadRequest)
    else if rule.nodeId !in d.nodes then Fail(NotFound)
    else
      var node := d.nodes[rule.nodeId];
      var authMethod := Lower(TrimSpace(node.authMethod));
      if TrimSpace(node.serverAddr) == "" then Fail(BadRequest)
      else if !Port(node.frpsPort) then Fail(BadRequest)
      else if authMethod != "" && authMethod != "token" then Fail(BadRequest)
      else if TrimSpace(node.authToken) == "" then Fail(BadRequest)
      else if !Name(rule.name) then Fail(BadRequest)
      else if rule.protocol !in {"tcp", "udp", "http"} then Fail(BadRequest)
      else if !LocalIP(isIP, rule.localIP) then Fail(BadRequest)
      else if !Port(rule.localPort) then Fail(BadRequest)
      else if rule.protocol == "http" && WebDomain.ValidateWeb(node.webBaseDomain, WebDomain.Web(rule.subdomain, rule.domain)).Fail?
      then Fail(BadRequest)
      else if rule.protocol != "http" && !UserRemotePort(rule.remotePort) then Fail(BadRequest)
      else if rule.protocol != "http" && !PortRanges.RemotePortAllowed(rule.remotePort, node.allowPorts) then Fail(BadRequest)
      else if exists k | k in d.portRules :: PortClash(rule, d.portRules[k]) then Fail(Conflict)
      else Pass
  }

  datatype PortInput = PortInput(
    nodeId: string, name: string, protocol: string, localIP: string, localPort: int, remotePort: int,
    subdomain: string, domain: string, enabled: bool)

  /** The web fields of a rule: resolved for http rules of a node, and empty for the others. */
  function WebOf(d: Data, id: string, nodeId: string, protocol: string, input: PortInput): Result<WebDomain.Web> {
    if protocol != "http" then Ok(WebDomain.Web("", ""))
    else if nodeId in d.nodes then
      WebDomain.Resolve(d.nodes[nodeId].webBaseDomain, id, TrimSpace(input.name), TrimSpace(input.subdomain), TrimSpace(input.domain))
    else Ok(WebDomain.Web(TrimSpace(input.subdomain), TrimSpace(input.domain)))
  }

  /** The rule before it is checked. */
  function Drafted(id: string, createdAt: int, input: PortInput, web: WebDomain.Web, now: int): PortRule {
    var protocol := Lower(TrimSpace(input.protocol));
    var name := TrimSpace(input.name);
    var shown :=
      if name != "" then name
      else if protocol == "http" then OrElse(web.subdomain, web.domain)
      else protocol + "-" + Decimal.PrintInt(input.remotePort);
    PortRule(id, OrElse(TrimSpace(input.nodeId), DEFAULT_NODE_ID), shown, protocol, OrElse(TrimSpace(input.localIP), "127.0.0.1"),
             input.localPort, if protocol == "http" then 0 else input.remotePort, web.subdomain, web.domain, input.enabled,
             createdAt, now)
  }

  /** buildPortRule, with the id already chosen. */
  function BuildPortRule(isIP: string -> bool, d: Data, id: string, createdAt: int, input: PortInput, now: int): (r: Result<PortRule>)
    ensures r.Ok? ==> r.value.id == id && ValidatePortRule(isIP, d, r.value) == Pass
  {
    var web := WebOf(d, id, OrElse(TrimSpace(input.nodeId), DEFAULT_NODE_ID), Lower(TrimSpace(input.protocol)), input);
    if web.Err? then Err(web.error)
    else
      var rule := Drafted(id, createdAt, input, web.value, now);
      var valid := ValidatePortRule(isIP, d, rule);
      if valid.Pass? then Ok(rule) else Err(valid.error)
  }

  // ---------- room rules ----------

  function TunnelProtocol(v: string): string {
    var t := Lower(TrimSpace(v));
    if t == "" then "xtcp" else t
  }

  predicate BindClash(rule: RoomRule, existing: RoomRule) {
    && existing.id != rule.id && existing.enabled && existing.role == "visitor"
    && existing.bindAddr == rule.bindAddr && existing.bindPort == rule.bindPort && rule.enabled
  }

  function ValidateRoomRule(isIP: string -> bool, d: Data, rule: RoomRule): Outcome {
    if rule.id == "" || rule.roomId == "" then Fail(BadRequest)
    else if !Name(rule.name) then Fail(BadRequest)
    else if rule.role != "host" && rule.role != "visitor" then Fail(BadRequest)
    else if TunnelProtocol(rule.tunnelProtocol) !in {"xtcp", "stcp"} then Fail(BadRequest)
    else if ContainsAny(TrimSpace(rule.natHoleStunServer), " /\\") then Fail(BadRequest)
    else if TrimSpace(rule.serverName) == "" || TrimSpace(rule.serverAddr) == "" then Fail(BadRequest)
    else if !HostOnly(rule.serverAddr) then Fail(BadRequest)
    else if !Port(rule.serverPort) then Fail(BadRequest)
    else if TrimSpace(rule.deviceId) == "" || TrimSpace(rule.deviceToken) == "" then Fail(BadRequest)
    else if TrimSpace(rule.secretKey) == "" then Fail(BadRequest)
    else if rule.role == "host" then
      if !LocalIP(isIP, rule.localIP) || !Port(rule.localPort) then Fail(BadRequest) else Pass
    else if !LocalIP(isIP, rule.bindAddr) || !Port(rule.bindPort) then Fail(BadRequest)
    else if exists k | k in d.roomRules :: BindClash(rule, d.roomRules[k]) then Fail(Conflict)
    else Pass
  }

  // ---------- requests ----------

  /** Requests that work on a snapshot. Ids that the source generates are part of the request. */
  datatype Request =
    | CreatePort(portId: string, input: PortInput)
    | UpdatePort(id: string, input: PortInput)
    | PatchPort(id: string, enable: Option<bool>)
    | DeletePort(id: string)
    | SaveRoom(rule: RoomRule)
    | PatchRoom(id: string, enable: Option<bool>)
    | DeleteRoom(id: string)
    | ChangeNode(id: string, node: NodeInput, token: TokenChange)

  predicate EnabledRuleUsesNode(d: Data, id: string) {
    exists k | k in d.portRules :: d.portRules[k].nodeId == id && d.portRules[k].enabled
  }

  /** What a request will do with the store: replace all of it, or set one node in place. */
  datatype Plan = Replace(newData: Data) | SetNode(nodeId: string, config: NodeConfig)

  function PlanPort(isIP: string -> bool, snap: Data, id: string, createdAt: int, input: PortInput, now: int): Result<Plan> {
    var rule :- BuildPortRule(isIP, snap, id, createdAt, input, now);
    Ok(Replace(snap.(portRules := snap.portRules[id := rule])))
  }

  function PlanPatchPort(isIP: string -> bool, snap: Data, id: string, enable: bool, now: int): Result<Plan>
    requires id in snap.portRules
  {
    var rule := snap.portRules[id].(enabled := enable, updatedAt := now);
    var next := snap.(portRules := snap.portRules[id := rule]);
    var _ :- Checked(ValidatePortRule(isIP, next, rule));
    Ok(Replace(next))
  }

  function PlanSaveRoom(isIP: string -> bool, snap: Data, rule: RoomRule): Result<Plan> {
    var _ :- Checked(ValidateRoomRule(isIP, snap, rule));
    Ok(Replace(snap.(roomRules := snap.roomRules[rule.id := rule])))
  }

  function PlanPatchRoom(isIP: string -> bool, snap: Data, id: string, enable: bool, now: int): Result<Plan>
    requires id in snap.roomRules
  {
    var rule := snap.roomRules[id].(enabled := enable, updatedAt := now);
    var next := snap.(roomRules := snap.roomRules[id := rule]);
    var _ :- Checked(ValidateRoomRule(isIP, next, rule));
    Ok(Replace(next))
  }

  function PlanNode(snap: Data, id: string, input: NodeInput, token: TokenChange, now: int): Result<Plan>
    requires id in snap.nodes
  {
    PlanBuiltNode(snap, id, UpdateNode(id, input, token, snap.nodes[id], now))
  }

  function PlanNamedNode(snap: Data, id: string, input: NodeInput, token: TokenChange, now: int): Result<Plan> {
    if id == "" then Err(BadRequest)
    else if id !in snap.nodes then Err(NotFound)
    else PlanNode(snap, id, input, token, now)
  }

  function PlanBuiltNode(snap: Data, id: string, built: Result<NodeConfig>): Result<Plan> {
    var node :- built;
    if EnabledRuleUsesNode(snap, id) then Ok(Replace(snap.(nodes := snap.nodes[id := node])))
    else Ok(SetNode(id, node))
  }

  function Prepare(isIP: string -> bool, snap: Data, r: Request, now: int): Result<Plan> {
    match r
    case CreatePort(id, input) => PlanPort(isIP, snap, id, now, input, now)
    case UpdatePort(id, input) =>
      if id !in snap.portRules then Err(NotFound)
      else PlanPort(isIP, snap, id, snap.portRules[id].createdAt, input, now)
    case PatchPort(id, enable) =>
      if enable.None? then Err(BadRequest)
      else if id !in snap.portRules then Err(NotFound)
      else PlanPatchPort(isIP, snap, id, enable.value, now)
    case DeletePort(id) =>
      if id !in snap.portRules then Err(NotFound) else Ok(Replace(snap.(portRules := snap.portRules - {id})))
    case SaveRoom(rule) => PlanSaveRoom(isIP, snap, rule)
    case PatchRoom(id, enable) =>
      if enable.None? then Err(BadRequest)
      else if id !in snap.roomRules then Err(NotFound)
      else PlanPatchRoom(isIP, snap, id, enable.value, now)
    case DeleteRoom(id) =>
      if id !in snap.roomRules then Err(NotFound) else Ok(Replace(snap.(roomRules := snap.roomRules - {id})))
    case ChangeNode(id, input, token) => PlanNamedNode(snap, TrimSpace(id), input, token, now)
  }

  /** A node that is set in place was there, keeps its id, and no enabled rule used it. */
  lemma SetNodeFacts(snap: Data, id: string, input: NodeInput, token: TokenChange, now: int)
    requires PlanNamedNode(snap, id, input, token, now).Ok? && PlanNamedNode(snap, id, input, token, now).value.SetNode?
    ensures var p := PlanNamedNode(snap, id, input, token, now).value;
            p.nodeId == id && id in snap.nodes && p.config.id == id && !EnabledRuleUsesNode(snap, id)
  {
  }

  function Checked(o: Outcome): Result<()> {
    if o.Pass? then Ok(()) else Err(o.error)
  }

  /** Requests that change the store in place, in one step. */
  function CreateNodeNow(d: Data, node: NodeConfig): Result<Data> {
    if node.id in d.nodes then Err(Conflict) else Ok(d.(nodes := d.nodes[node.id := node]))
  }

  function DeleteNodeNow(d: Data, id0: string): Result<Data> {
    var id := TrimSpace(id0);
    if id == "" || id == DEFAULT_NODE_ID then Err(BadRequest)
    else if id !in d.nodes then Err(NotFound)
    else if exists k | k in d.portRules :: d.portRules[k].nodeId == id then Err(Conflict)
    else Ok(d.(nodes := d.nodes - {id}))
  }

  function SetNodeNow(d: Data, id: string, node: NodeConfig): Result<Data> {
    if id !in d.nodes then Err(NotFound) else Ok(d.(nodes := d.nodes[id := node]))
  }

  // ---------- the invariant of stored states ----------

  ghost predicate NoPortClash(rules: map<string, PortRule>) {
    forall a, b | a in rules && b in rules && a != b :: !PortClash(rules[a], rules[b])
  }

  ghost predicate NoBindClash(rules: map<string, RoomRule>) {
    forall a, b | a in rules && b in rules && a != b && rules[a].role == "visitor" :: !BindClash(rules[a], rules[b])
  }

  ghost predicate NodesKeyed(nodes: map<string, NodeConfig>) {
    forall k | k in nodes :: nodes[k].id == k && IdPattern(k, 2)
  }

  ghost predicate PortRulesKeyed(rules: map<string, PortRule>) {
    forall k | k in rules :: rules[k].id == k
  }

  ghost predicate RoomRulesKeyed(rules: map<string, RoomRule>) {
    forall k | k in rules :: rules[k].id == k
  }

  ghost predicate NodesPresent(rules: map<string, PortRule>, nodes: map<string, NodeConfig>) {
    forall k | k in rules :: rules[k].nodeId in nodes
  }

  /** Keys are ids, every port rule's node exists, and no two rules claim the same domain, remote port or
      visitor address. */
  ghost predicate Consistent(d: Data) {
    && NodesKeyed(d.nodes) && PortRulesKeyed(d.portRules) && RoomRulesKeyed(d.roomRules)
    && NodesPresent(d.portRules, d.nodes) && NoPortClash(d.portRules) && NoBindClash(d.roomRules)
  }

  /** What validation says about the rest of the store. */
  lemma ValidPortRuleFacts(isIP: string -> bool, d: Data, rule: PortRule)
    requires ValidatePortRule(isIP, d, rule) == Pass
    ensures rule.nodeId in d.nodes
    ensures forall k | k in d.portRules :: !PortClash(rule, d.portRules[k])
  {
  }

  lemma ValidRoomRuleFacts(isIP: string -> bool, d: Data, rule: RoomRule)
    requires ValidateRoomRule(isIP, d, rule) == Pass
    ensures rule.role == "visitor" ==> forall k | k in d.roomRules :: !BindClash(rule, d.roomRules[k])
    ensures rule.role == "host" || rule.role == "visitor"
  {
  }

  lemma PortClashSymmetric(a: PortRule, b: PortRule)
    ensures PortClash(a, b) <==> PortClash(b, a)
  {
  }

  lemma SetPortRule(rules: map<string, PortRule>, rule: PortRule)
    requires PortRulesKeyed(rules) && NoPortClash(rules)
    requires forall k | k in rules && k != rule.id :: !PortClash(rule, rules[k])
    ensures PortRulesKeyed(rules[rule.id := rule]) && NoPortClash(rules[rule.id := rule])
  {
    var next := rules[rule.id := rule];
    forall a, b | a in next && b in next && a != b ensures !PortClash(next[a], next[b]) {
      PortClashSymmetric(next[a], next[b]);
    }
  }

  lemma SetRoomRule(rules: map<string, RoomRule>, rule: RoomRule)
    requires RoomRulesKeyed(rules) && NoBindClash(rules)
    requires rule.role == "visitor" ==> forall k | k in rules && k != rule.id :: !BindClash(rule, rules[k])
    ensures RoomRulesKeyed(rules[rule.id := rule]) && NoBindClash(rules[rule.id := rule])
  {
    var next := rules[rule.id := rule];
    forall a, b | a in next && b in next && a != b && next[a].role == "visitor" ensures !BindClash(next[a], next[b]) {
      assert BindClash(next[a], next[b]) ==> next[b].role == "visitor" && BindClash(next[b], next[a]);
    }
  }

  lemma BuiltPortRuleConsistent(isIP: string -> bool, d: Data, rule: PortRule)
    requires Consistent(d) && ValidatePortRule(isIP, d, rule) == Pass
    ensures Consistent(d.(portRules := d.portRules[rule.id := rule]))
  {
    ValidPortRuleFacts(isIP, d, rule);
    SetPortRule(d.portRules, rule);
  }

  lemma PatchedPortRuleConsistent(isIP: string -> bool, d: Data, rule: PortRule)
    requires Consistent(d)
    requires ValidatePortRule(isIP, d.(portRules := d.portRules[rule.id := rule]), rule) == Pass
    ensures Consistent(d.(portRules := d.portRules[rule.id := rule]))
  {
    var next := d.(portRules := d.portRules[rule.id := rule]);
    ValidPortRuleFacts(isIP, next, rule);
    forall k | k in d.portRules && k != rule.id ensures !PortClash(rule, d.portRules[k]) {
      assert !PortClash(rule, next.portRules[k]);
    }
    SetPortRule(d.portRules, rule);
  }

  lemma SavedRoomRuleConsistent(isIP: string -> bool, d: Data, checked: Data, rule: RoomRule)
    requires Consistent(d) && ValidateRoomRule(isIP, checked, rule) == Pass
    requires checked == d || checked == d.(roomRules := d.roomRules[rule.id := rule])
    ensures Consistent(d.(roomRules := d.roomRules[rule.id := rule]))
  {
    ValidRoomRuleFacts(isIP, checked, rule);
    forall k | k in d.roomRules && k != rule.id && rule.role == "visitor" ensures !BindClash(rule, d.roomRules[k]) {
      assert !BindClash(rule, checked.roomRules[k]);
    }
    SetRoomRule(d.roomRules, rule);
  }

  /** Every plan made from a consistent snapshot leads to a consistent state: a replacement is one, and a
      node to be set in place has a valid id and the right key. */
  ghost predicate PlanConsistent(p: Plan) {
    match p
    case Replace(newData) => Consistent(newData)
    case SetNode(id, node) => node.id == id && IdPattern(id, 2)
  }

  lemma PlannedPortConsistent(isIP: string -> bool, snap: Data, id: string, createdAt: int, input: PortInput, now: int)
    requires Consistent(snap) && PlanPort(isIP, snap, id, createdAt, input, now).Ok?
    ensures PlanConsistent(PlanPort(isIP, snap, id, createdAt, input, now).value)
  {
    BuiltPortRuleConsistent(isIP, snap, BuildPortRule(isIP, snap, id, createdAt, input, now).value);
  }

  lemma PlannedNodeConsistent(snap: Data, id: string, input: NodeInput, token: TokenChange, now: int)
    requires Consistent(snap) && id in snap.nodes && PlanNode(snap, id, input, token, now).Ok?
    ensures PlanConsistent(PlanNode(snap, id, input, token, now).value)
  {
  }

  lemma RemovedRuleConsistent(snap: Data, id: string)
    requires Consistent(snap)
    ensures Consistent(snap.(portRules := snap.portRules - {id}))
    ensures Consistent(snap.(roomRules := snap.roomRules - {id}))
  {
  }

  lemma PreparedConsistent(isIP: string -> bool, snap: Data, r: Request, now: int)
    requires Consistent(snap) && Prepare(isIP, snap, r, now).Ok?
    ensures PlanConsistent(Prepare(isIP, snap, r, now).value)
  {
    match r
    case CreatePort(id, input) =>
      PlannedPortConsistent(isIP, snap, id, now, input, now);
    case UpdatePort(id, input) =>
      PlannedPortConsistent(isIP, snap, id, snap.portRules[id].createdAt, input, now);
    case PatchPort(id, enable) =>
      PatchedPortRuleConsistent(isIP, snap, snap.portRules[id].(enabled := enable.value, updatedAt := now));
    case SaveRoom(rule) =>
      SavedRoomRuleConsistent(isIP, snap, snap, rule);
    case PatchRoom(id, enable) =>
      var rule := snap.roomRules[id].(enabled := enable.value, updatedAt := now);
      SavedRoomRuleConsistent(isIP, snap, snap.(roomRules := snap.roomRules[id := rule]), rule);
    case DeletePort(id) => RemovedRuleConsistent(snap, id);
    case DeleteRoom(id) => RemovedRuleConsistent(snap, id);
    case ChangeNode(id, input, token) => PlannedNodeConsistent(snap, TrimSpace(id), input, token, now);
  }

  // ---------- what a request changes ----------

  /** The rule a request is about; the other rules, the nodes and the settings stay. */
  ghost predicate OnlyPort(snap: Data, d: Data, id: string) {
    d == snap.(portRules := d.portRules) && d.portRules - {id} == snap.portRules - {id}
  }

  ghost predicate OnlyRoom(snap: Data, d: Data, id: string) {
    d == snap.(roomRules := d.roomRules) && d.roomRules - {id} == snap.roomRules - {id}
  }

  /** A planned port request changes nothing but its rule, which is then gone, switched as asked and otherwise
      the same, or one that passed validation under the requested node and protocol. */
  lemma PortRequestEffect(isIP: string -> bool, snap: Data, r: Request, now: int)
    requires Prepare(isIP, snap, r, now).Ok?
    ensures r.DeletePort? ==>
              var d := Prepare(isIP, snap, r, now).value.newData; OnlyPort(snap, d, r.id) && r.id !in d.portRules
    ensures r.PatchPort? ==>
              var d := Prepare(isIP, snap, r, now).value.newData;
              && OnlyPort(snap, d, r.id) && r.enable.Some? && r.id in d.portRules
              && d.portRules[r.id] == snap.portRules[r.id].(enabled := r.enable.value, updatedAt := now)
    ensures r.UpdatePort? ==>
              var d := Prepare(isIP, snap, r, now).value.newData;
              && OnlyPort(snap, d, r.id) && r.id in d.portRules && ValidatePortRule(isIP, snap, d.portRules[r.id]) == Pass
              && Requested(d.portRules[r.id], r.input) && d.portRules[r.id].createdAt == snap.portRules[r.id].createdAt
    ensures r.CreatePort? ==>
              var d := Prepare(isIP, snap, r, now).value.newData;
              && OnlyPort(snap, d, r.portId) && r.portId in d.portRules && ValidatePortRule(isIP, snap, d.portRules[r.portId]) == Pass
              && Requested(d.portRules[r.portId], r.input) && d.portRules[r.portId].createdAt == now
  {
    match r
    case CreatePort(id, input) => PlannedPortEffect(isIP, snap, id, now, input, now);
    case UpdatePort(id, input) => PlannedPortEffect(isIP, snap, id, snap.portRules[id].createdAt, input, now);
    case _ =>
  }

  /** What of a rule is taken from the request as it is. */
  predicate Requested(rule: PortRule, input: PortInput) {
    && rule.nodeId == OrElse(TrimSpace(input.nodeId), DEFAULT_NODE_ID) && rule.protocol == Lower(TrimSpace(input.protocol))
    && rule.localPort == input.localPort && rule.enabled == input.enabled
    && (rule.protocol != "http" ==> rule.remotePort == input.remotePort && rule.domain == "")
    && (rule.protocol == "http" ==> rule.remotePort == 0)
  }

  lemma PlannedPortEffect(isIP: string -> bool, snap: Data, id: string, createdAt: int, input: PortInput, now: int)
    requires PlanPort(isIP, snap, id, createdAt, input, now).Ok?
    ensures var p := PlanPort(isIP, snap, id, createdAt, input, now).value;
            && p.Replace? && OnlyPort(snap, p.newData, id) && id in p.newData.portRules
            && ValidatePortRule(isIP, snap, p.newData.portRules[id]) == Pass
            && Requested(p.newData.portRules[id], input) && p.newData.portRules[id].createdAt == createdAt
  {
    var rule := BuildPortRule(isIP, snap, id, createdAt, input, now).value;
    SetKeepsOthers(snap.portRules, id, rule);
  }

  /** A planned room request changes nothing but its rule. */
  lemma RoomRequestEffect(isIP: string -> bool, snap: Data, r: Request, now: int)
    requires Prepare(isIP, snap, r, now).Ok?
    ensures r.DeleteRoom? ==>
              var d := Prepare(isIP, snap, r, now).value.newData; OnlyRoom(snap, d, r.id) && r.id !in d.roomRules
    ensures r.PatchRoom? ==>
              var d := Prepare(isIP, snap, r, now).value.newData;
              && OnlyRoom(snap, d, r.id) && r.enable.Some? && r.id in d.roomRules
              && d.roomRules[r.id] == snap.roomRules[r.id].(enabled := r.enable.value, updatedAt := now)
    ensures r.SaveRoom? ==>
              var d := Prepare(isIP, snap, r, now).value.newData;
              OnlyRoom(snap, d, r.rule.id) && r.rule.id in d.roomRules && d.roomRules[r.rule.id] == r.rule
  {
    match r
    case SaveRoom(rule) => SavedRoomEffect(isIP, snap, rule);
    case PatchRoom(id, enable) => PatchedRoomEffect(isIP, snap, id, enable.value, now);
    case _ =>
  }

  lemma SetKeepsOthers<V>(m: map<string, V>, id: string, v: V)
    ensures m[id := v] - {id} == m - {id}
  {
  }

  lemma SavedRoomEffect(isIP: string -> bool, snap: Data, rule: RoomRule)
    requires PlanSaveRoom(isIP, snap, rule).Ok?
    ensures var p := PlanSaveRoom(isIP, snap, rule).value;
            && p.Replace? && OnlyRoom(snap, p.newData, rule.id)
            && rule.id in p.newData.roomRules && p.newData.roomRules[rule.id] == rule
  {
    SetKeepsOthers(snap.roomRules, rule.id, rule);
  }

  lemma PatchedRoomEffect(isIP: string -> bool, snap: Data, id: string, enable: bool, now: int)
    requires id in snap.roomRules && PlanPatchRoom(isIP, snap, id, enable, now).Ok?
    ensures var p := PlanPatchRoom(isIP, snap, id, enable, now).value;
            && p.Replace? && OnlyRoom(snap, p.newData, id) && id in p.newData.roomRules
            && p.newData.roomRules[id] == snap.roomRules[id].(enabled := enable, updatedAt := now)
  {
    SetKeepsOthers(snap.roomRules, id, snap.roomRules[id].(enabled := enable, updatedAt := now));
  }

  /** The three in-place changes keep any consistent state consistent. */
  lemma InPlaceConsistent(d: Data, node: NodeConfig, id: string)
    requires Consistent(d) && IdPattern(node.id, 2)
    ensures CreateNodeNow(d, node).Ok? ==> Consistent(CreateNodeNow(d, node).value)
    ensures DeleteNodeNow(d, id).Ok? ==> Consistent(DeleteNodeNow(d, id).value)
    ensures SetNodeNow(d, node.id, node).Ok? ==> Consistent(SetNodeNow(d, node.id, node).value)
  {
  }
}
