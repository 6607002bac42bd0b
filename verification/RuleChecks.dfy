/** What the checks on nodes and rules accept, and what of a request ends up in the store, field by field
    (internal/client/service.go). */
module RuleChecks {
  import opened Wrappers
  import opened Text
  import opened Order
  import opened Validate
  import opened Rules
  import Decimal
  import PortRanges
  import WebDomain

  // ---------- settings ----------

  /** The defaults of the settings; the rest of the store is left alone, and filling them in twice changes nothing. */
  lemma NormalizedIs(d: Data)
    ensures var n := Normalized(d);
            && n == d.(frpc := n.frpc) && Normalized(n) == n
            && n.frpc.path == (if d.frpc.path == "" then "frpc.exe" else d.frpc.path)
            && n.frpc.workDir == (if d.frpc.workDir == "" then "data/frpc" else d.frpc.workDir)
            && n.frpc.adminAddr == (if d.frpc.adminAddr == "" then "127.0.0.1" else d.frpc.adminAddr)
            && n.frpc.adminPort == (if d.frpc.adminPort == 0 then 7400 else d.frpc.adminPort)
            && n.frpc.adminUser == (if d.frpc.adminUser == "" then "admin" else d.frpc.adminUser)
            && n.frpc.adminPassword == d.frpc.adminPassword
  {
  }

  // ---------- port rules ----------

  /** The node can be connected to: it has an address, a port and a token, and authenticates by token. */
  predicate Reachable(node: NodeConfig) {
    && TrimSpace(node.serverAddr) != "" && 1 <= node.frpsPort <= 65535
    && Lower(TrimSpace(node.authMethod)) in {"", "token"} && TrimSpace(node.authToken) != ""
  }

  /** The local end of a rule. */
  predicate LocalEnd(isIP: string -> bool, localIP: string, localPort: int) {
    localIP != "" && (isIP(localIP) || localIP == "localhost") && 1 <= localPort <= 65535
  }

  /** A port outside the system ones, inside one of the node's ranges if it has any. */
  predicate RemoteEnd(node: NodeConfig, remotePort: int) {
    && 1024 <= remotePort <= 65535
    && (node.allowPorts == [] || exists i | 0 <= i < |node.allowPorts| :: node.allowPorts[i].from <= remotePort <= node.allowPorts[i].to)
  }

  /** A domain under the node's base, with a label as subdomain, if there is one. */
  predicate WebEnd(node: NodeConfig, subdomain: string, domain: string) {
    var base := WebDomain.NormalizeDomain(node.webBaseDomain);
    && base != "" && domain != "" && (domain == base || HasSuffix(domain, "." + base))
    && (subdomain == "" || WebDomain.Label(subdomain))
  }

  /** What one rule has that no other of the same node and protocol may have. */
  predicate SameRemoteEnd(a: PortRule, b: PortRule) {
    && a.nodeId == b.nodeId && a.protocol == b.protocol
    && if a.protocol == "http" then Lower(a.domain) == Lower(b.domain) else a.remotePort == b.remotePort
  }

  ghost predicate RemoteEndFree(rules: map<string, PortRule>, rule: PortRule) {
    forall k | k in rules && rules[k].id != rule.id :: !SameRemoteEnd(rule, rules[k])
  }

  predicate FieldsFit(isIP: string -> bool, node: NodeConfig, rule: PortRule) {
    && Reachable(node) && 1 <= |TrimSpace(rule.name)| <= 80 && rule.protocol in {"tcp", "udp", "http"}
    && LocalEnd(isIP, rule.localIP, rule.localPort)
    && (if rule.protocol == "http" then WebEnd(node, rule.subdomain, rule.domain) else RemoteEnd(node, rule.remotePort))
  }

  lemma ClashIsSameEnd(rules: map<string, PortRule>, rule: PortRule)
    ensures (exists k | k in rules :: PortClash(rule, rules[k])) <==> !RemoteEndFree(rules, rule)
  {
    if !RemoteEndFree(rules, rule) {
      var k :| k in rules && rules[k].id != rule.id && SameRemoteEnd(rule, rules[k]);
      assert PortClash(rule, rules[k]);
    }
  }

  lemma WebPasses(node: NodeConfig, subdomain: string, domain: string)
    ensures WebDomain.ValidateWeb(node.webBaseDomain, WebDomain.Web(subdomain, domain)) == Pass <==> WebEnd(node, subdomain, domain)
  {
  }

  lemma RemoteEndIs(node: NodeConfig, port: int)
    ensures RemoteEnd(node, port) <==> UserRemotePort(port) && PortRanges.RemotePortAllowed(port, node.allowPorts)
  {
  }

  lemma FieldsFitIs(isIP: string -> bool, node: NodeConfig, rule: PortRule)
    ensures FieldsFit(isIP, node, rule) <==>
              && Reachable(node) && Name(rule.name) && rule.protocol in {"tcp", "udp", "http"}
              && LocalIP(isIP, rule.localIP) && Port(rule.localPort)
              && (rule.protocol == "http" ==>
                    WebDomain.ValidateWeb(node.webBaseDomain, WebDomain.Web(rule.subdomain, rule.domain)) == Pass)
              && (rule.protocol != "http" ==>
                    UserRemotePort(rule.remotePort) && PortRanges.RemotePortAllowed(rule.remotePort, node.allowPorts))
  {
    WebPasses(node, rule.subdomain, rule.domain);
    RemoteEndIs(node, rule.remotePort);
  }

  /** A port rule passes exactly when it has an id and a node that can be connected to, its fields fit, and no other
      rule has its remote end. A missing node is not found, a taken remote end a conflict, and all else a bad request. */
  lemma PortRuleValidIff(isIP: string -> bool, d: Data, rule: PortRule)
    ensures var named := rule.id != "" && rule.nodeId != "";
            var fits := rule.nodeId in d.nodes && FieldsFit(isIP, d.nodes[rule.nodeId], rule);
            ValidatePortRule(isIP, d, rule) ==
              if !named then Fail(BadRequest)
              else if rule.nodeId !in d.nodes then Fail(NotFound)
              else if !fits then Fail(BadRequest)
              else if !RemoteEndFree(d.portRules, rule) then Fail(Conflict)
              else Pass
  {
    ClashIsSameEnd(d.portRules, rule);
    if rule.id != "" && rule.nodeId != "" && rule.nodeId in d.nodes {
      FieldsFitIs(isIP, d.nodes[rule.nodeId], rule);
    }
  }

  /** In a consistent store two rules of a node never share a domain, whatever its case, or a port of one protocol. */
  lemma StoredEndsDiffer(d: Data, a: string, b: string)
    requires Consistent(d) && a in d.portRules && b in d.portRules && a != b
    ensures !SameRemoteEnd(d.portRules[a], d.portRules[b])
  {
    assert !PortClash(d.portRules[a], d.portRules[b]);
  }

  // ---------- room rules ----------

  predicate ServerEnd(rule: RoomRule) {
    && TrimSpace(rule.serverName) != "" && TrimSpace(rule.serverAddr) != ""
    && !Contains(rule.serverAddr, "://") && (forall i | 0 <= i < |rule.serverAddr| :: rule.serverAddr[i] !in " /\\")
    && 1 <= rule.serverPort <= 65535
    && TrimSpace(rule.deviceId) != "" && TrimSpace(rule.deviceToken) != "" && TrimSpace(rule.secretKey) != ""
  }

  /** Two enabled visitors never listen at one address. */
  predicate SameListener(a: RoomRule, b: RoomRule) {
    && a.role == "visitor" && b.role == "visitor" && a.enabled && b.enabled && a.bindAddr == b.bindAddr && a.bindPort == b.bindPort
  }

  predicate RoomFieldsFit(isIP: string -> bool, rule: RoomRule) {
    && rule.id != "" && rule.roomId != "" && 1 <= |TrimSpace(rule.name)| <= 80 && rule.role in {"host", "visitor"}
    && Lower(TrimSpace(rule.tunnelProtocol)) in {"", "xtcp", "stcp"}
    && (forall i | 0 <= i < |TrimSpace(rule.natHoleStunServer)| :: TrimSpace(rule.natHoleStunServer)[i] !in " /\\")
    && ServerEnd(rule)
    && (if rule.role == "host" then LocalEnd(isIP, rule.localIP, rule.localPort) else LocalEnd(isIP, rule.bindAddr, rule.bindPort))
  }

  ghost predicate ListenerFree(rules: map<string, RoomRule>, rule: RoomRule) {
    forall k | k in rules && rules[k].id != rule.id :: !SameListener(rule, rules[k])
  }

  lemma BindClashIsListener(rules: map<string, RoomRule>, rule: RoomRule)
    requires rule.role == "visitor"
    ensures (exists k | k in rules :: BindClash(rule, rules[k])) <==> !ListenerFree(rules, rule)
  {
    if !ListenerFree(rules, rule) {
      var k :| k in rules && rules[k].id != rule.id && SameListener(rule, rules[k]);
      assert BindClash(rule, rules[k]);
    }
  }

  lemma TunnelFits(v: string)
    ensures TunnelProtocol(v) in {"xtcp", "stcp"} <==> Lower(TrimSpace(v)) in {"", "xtcp", "stcp"}
  {
  }

  lemma ServerEndChecks(rule: RoomRule)
    ensures ServerEnd(rule) <==>
              && TrimSpace(rule.serverName) != "" && TrimSpace(rule.serverAddr) != "" && HostOnly(rule.serverAddr)
              && Port(rule.serverPort) && TrimSpace(rule.deviceId) != "" && TrimSpace(rule.deviceToken) != ""
              && TrimSpace(rule.secretKey) != ""
  {
  }

  lemma StunFits(v: string)
    ensures ContainsAny(v, " /\\") <==> !(forall i | 0 <= i < |v| :: v[i] !in " /\\")
  {
  }

  /** What the checks up to the role's own end ask for. */
  predicate CommonFit(rule: RoomRule) {
    && rule.id != "" && rule.roomId != "" && Name(rule.name) && TunnelProtocol(rule.tunnelProtocol) in {"xtcp", "stcp"}
    && !ContainsAny(TrimSpace(rule.natHoleStunServer), " /\\") && ServerEnd(rule)
  }

  lemma RoomFieldsFitIs(isIP: string -> bool, rule: RoomRule)
    ensures RoomFieldsFit(isIP, rule) <==>
              && rule.role in {"host", "visitor"} && CommonFit(rule)
              && (if rule.role == "host" then LocalIP(isIP, rule.localIP) && Port(rule.localPort)
                  else LocalIP(isIP, rule.bindAddr) && Port(rule.bindPort))
  {
    TunnelFits(rule.tunnelProtocol);
    StunFits(TrimSpace(rule.natHoleStunServer));
  }

  lemma RoomChecks(isIP: string -> bool, d: Data, rule: RoomRule)
    ensures ValidateRoomRule(isIP, d, rule) ==
              if rule.role !in {"host", "visitor"} || !CommonFit(rule) then Fail(BadRequest)
              else if rule.role == "host" then
                if LocalIP(isIP, rule.localIP) && Port(rule.localPort) then Pass else Fail(BadRequest)
              else if !(LocalIP(isIP, rule.bindAddr) && Port(rule.bindPort)) then Fail(BadRequest)
              else if exists k | k in d.roomRules :: BindClash(rule, d.roomRules[k]) then Fail(Conflict)
              else Pass
  {
    ServerEndChecks(rule);
  }

  /** A room rule passes exactly when its fields fit and no other enabled visitor listens at its address. */
  lemma RoomRuleValidIff(isIP: string -> bool, d: Data, rule: RoomRule)
    ensures ValidateRoomRule(isIP, d, rule) ==
              if !RoomFieldsFit(isIP, rule) then Fail(BadRequest)
              else if !ListenerFree(d.roomRules, rule) then Fail(Conflict)
              else Pass
  {
    RoomFieldsFitIs(isIP, rule);
    RoomChecks(isIP, d, rule);
    if rule.role == "visitor" {
      BindClashIsListener(d.roomRules, rule);
    }
  }

  lemma StoredListenersDiffer(d: Data, a: string, b: string)
    requires Consistent(d) && a in d.roomRules && b in d.roomRules && a != b
    ensures !SameListener(d.roomRules[a], d.roomRules[b])
  {
    assert d.roomRules[a].role == "visitor" ==> !BindClash(d.roomRules[a], d.roomRules[b]);
  }

  // ---------- what a port request stores ----------

  predicate NamedAsAsked(rule: PortRule, input: PortInput) {
    rule.name ==
      if TrimSpace(input.name) != "" then TrimSpace(input.name)
      else if rule.protocol != "http" then rule.protocol + "-" + Decimal.PrintInt(input.remotePort)
      else if rule.subdomain != "" then rule.subdomain
      else rule.domain
  }

  /** The remote end of a rule is the one asked for: a port, or a domain of the node. */
  ghost predicate PlacedAsAsked(d: Data, rule: PortRule, input: PortInput) {
    if rule.protocol != "http" then rule.remotePort == input.remotePort && rule.subdomain == "" && rule.domain == ""
    else
      && rule.remotePort == 0 && rule.nodeId in d.nodes
      && var base := WebDomain.NormalizeDomain(d.nodes[rule.nodeId].webBaseDomain);
         WebDomain.Answers(base, rule.id, TrimSpace(input.name), Lower(TrimSpace(input.subdomain)),
                           WebDomain.NormalizeDomain(input.domain), WebDomain.Web(rule.subdomain, rule.domain))
  }

  predicate FieldsAsAsked(rule: PortRule, id: string, createdAt: int, input: PortInput, now: int) {
    && rule.id == id && rule.createdAt == createdAt && rule.updatedAt == now && rule.enabled == input.enabled
    && rule.nodeId == (if TrimSpace(input.nodeId) == "" then "default" else TrimSpace(input.nodeId))
    && rule.protocol == Lower(TrimSpace(input.protocol))
    && rule.localIP == (if TrimSpace(input.localIP) == "" then "127.0.0.1" else TrimSpace(input.localIP))
    && rule.localPort == input.localPort
  }

  /** The rule that a request asks for. */
  ghost predicate AsAsked(d: Data, rule: PortRule, id: string, createdAt: int, input: PortInput, now: int) {
    FieldsAsAsked(rule, id, createdAt, input, now) && NamedAsAsked(rule, input) && PlacedAsAsked(d, rule, input)
  }

  /** What the web domain of a node allows a request to ask for. */
  predicate WebAllows(node: NodeConfig, input: PortInput) {
    var base, subdomain, domain :=
      WebDomain.NormalizeDomain(node.webBaseDomain), Lower(TrimSpace(input.subdomain)), WebDomain.NormalizeDomain(input.domain);
    && base != "" && (subdomain == "" || WebDomain.Label(subdomain))
    && (domain == "" || domain == base || HasSuffix(domain, "." + base))
    && (domain == "" || subdomain == "" || domain == subdomain + "." + base)
  }

  lemma TrimTwice(v: string)
    ensures TrimSpace(TrimSpace(v)) == TrimSpace(v)
  {
  }

  /** Resolving for a rule: accepted exactly when the node's domain allows it, with the answer asked for. */
  lemma ResolvedAsAsked(node: NodeConfig, id: string, input: PortInput, web: WebDomain.Web)
    ensures var base, subdomain, domain :=
              WebDomain.NormalizeDomain(node.webBaseDomain), Lower(TrimSpace(input.subdomain)), WebDomain.NormalizeDomain(input.domain);
            var r := WebDomain.Resolve(node.webBaseDomain, id, TrimSpace(input.name), TrimSpace(input.subdomain), TrimSpace(input.domain));
            && (r.Ok? <==> WebAllows(node, input))
            && (r == Ok(web) <==> WebAllows(node, input) && WebDomain.Answers(base, id, TrimSpace(input.name), subdomain, domain, web))
  {
    TrimTwice(input.subdomain);
    TrimTwice(input.domain);
    WebDomain.ResolveSucceedsIff(node.webBaseDomain, id, TrimSpace(input.name), TrimSpace(input.subdomain), TrimSpace(input.domain));
    WebDomain.ResolveIff(node.webBaseDomain, id, TrimSpace(input.name), TrimSpace(input.subdomain), TrimSpace(input.domain), web);
  }

  lemma ValidHasNode(isIP: string -> bool, d: Data, rule: PortRule)
    requires ValidatePortRule(isIP, d, rule) == Pass
    ensures rule.nodeId in d.nodes
  {
  }

  /** The draft of a rule is the one with the fields asked for. */
  lemma DraftedIff(id: string, createdAt: int, input: PortInput, now: int, rule: PortRule, web: WebDomain.Web)
    ensures rule == Drafted(id, createdAt, input, web, now) <==>
              && FieldsAsAsked(rule, id, createdAt, input, now) && NamedAsAsked(rule, input)
              && rule.remotePort == (if rule.protocol == "http" then 0 else input.remotePort)
              && web == WebDomain.Web(rule.subdomain, rule.domain)
  {
  }

  /** The web fields of a valid rule are those asked for. */
  lemma WebAsAsked(d: Data, id: string, input: PortInput, rule: PortRule)
    requires rule.nodeId in d.nodes && rule.id == id
    requires rule.remotePort == (if rule.protocol == "http" then 0 else input.remotePort)
    ensures WebOf(d, id, rule.nodeId, rule.protocol, input) == Ok(WebDomain.Web(rule.subdomain, rule.domain)) <==>
              PlacedAsAsked(d, rule, input) && (rule.protocol == "http" ==> WebAllows(d.nodes[rule.nodeId], input))
  {
    if rule.protocol == "http" {
      ResolvedAsAsked(d.nodes[rule.nodeId], id, input, WebDomain.Web(rule.subdomain, rule.domain));
    }
  }

  /** A request gives a rule exactly when there is one as asked that is valid and whose domain the node allows. */
  lemma BuiltPortRuleIff(isIP: string -> bool, d: Data, id: string, createdAt: int, input: PortInput, now: int, rule: PortRule)
    ensures BuildPortRule(isIP, d, id, createdAt, input, now) == Ok(rule) <==>
              && AsAsked(d, rule, id, createdAt, input, now) && ValidatePortRule(isIP, d, rule) == Pass
              && (rule.protocol == "http" ==> rule.nodeId in d.nodes && WebAllows(d.nodes[rule.nodeId], input))
  {
    var web := WebDomain.Web(rule.subdomain, rule.domain);
    if ValidatePortRule(isIP, d, rule) == Pass {
      ValidHasNode(isIP, d, rule);
      DraftedIff(id, createdAt, input, now, rule, web);
      if FieldsAsAsked(rule, id, createdAt, input, now) && rule.remotePort == (if rule.protocol == "http" then 0 else input.remotePort) {
        WebAsAsked(d, id, input, rule);
      }
    }
  }

  // ---------- nodes ----------

  /** What a node takes from the form, with the defaults of the source. */
  ghost predicate NodeAsAsked(n: NodeConfig, input: NodeInput) {
    && n.name == (if TrimSpace(input.name) == "" then n.id else TrimSpace(input.name))
    && n.serverAddr == TrimSpace(input.serverAddr)
    && n.frpsPort == (if input.frpsPort == 0 then 7000 else input.frpsPort)
    && n.authMethod == (if TrimSpace(input.authMethod) == "" then "token" else Lower(TrimSpace(input.authMethod)))
    && n.webBaseDomain == WebDomain.NormalizeDomain(input.webBaseDomain)
    && n.webScheme == (if TrimSpace(input.webScheme) == "" then "https" else Lower(TrimSpace(input.webScheme)))
    && n.vhostHTTPPort == (if input.vhostHTTPPort == 0 && n.webBaseDomain != "" then 8080 else input.vhostHTTPPort)
    && multiset(n.allowPorts) == multiset(input.allowPorts) && InOrder(n.allowPorts)
  }

  /** By lower bound, and ranges with one lower bound by the upper. */
  ghost predicate InOrder(rs: seq<PortRange>) {
    forall i, j | 0 <= i < j < |rs| :: rs[i].from < rs[j].from || (rs[i].from == rs[j].from && rs[i].to <= rs[j].to)
  }

  predicate PlainHost(addr: string) {
    addr != "" && !Contains(addr, "://") && forall i | 0 <= i < |addr| :: addr[i] !in " /\\"
  }

  /** What a node must satisfy to be stored. */
  predicate NodeFits(n: NodeConfig) {
    && 2 <= |n.id| <= 64 && IsLetterOrDigit(n.id[0]) && (forall i | 0 <= i < |n.id| :: IsIdChar(n.id[i]))
    && 1 <= |TrimSpace(n.name)| <= 80 && PlainHost(n.serverAddr) && 1 <= n.frpsPort <= 65535
    && n.authMethod == "token" && n.webScheme in {"http", "https"}
    && (n.webBaseDomain != "" ==> (forall i | 0 <= i < |n.webBaseDomain| :: n.webBaseDomain[i] !in " /\\:") && 1 <= n.vhostHTTPPort <= 65535)
    && forall i | 0 <= i < |n.allowPorts| :: 1024 <= n.allowPorts[i].from <= n.allowPorts[i].to <= 65535
  }

  lemma NodeFitsIs(n: NodeConfig)
    requires n.webScheme != "" && TrimSpace(n.serverAddr) == n.serverAddr
    ensures NodeFits(n) <==> ValidateNode(n) == Pass
  {
  }

  lemma RangesSeparate(rs: seq<PortRange>)
    ensures TotalPreorder(PortRanges.RangeLe) && Separates(rs, PortRanges.RangeLe)
  {
  }

  lemma NormalizedRangesIff(rs: seq<PortRange>, ns: seq<PortRange>)
    ensures ns == PortRanges.NormalizeRanges(rs) <==> multiset(ns) == multiset(rs) && InOrder(ns)
  {
    var sorted := PortRanges.NormalizeRanges(rs);
    RangesSeparate(ns);
    SortMultiset(rs, PortRanges.RangeLe);
    SortSorted(rs, PortRanges.RangeLe);
    if multiset(ns) == multiset(rs) && Sorted(ns, PortRanges.RangeLe) {
      SortedUnique(ns, sorted, PortRanges.RangeLe);
    }
  }

  lemma LowerEmpty(v: string)
    ensures Lower(v) == "" <==> v == ""
  {
  }

  /** The draft of a node is the one with the fields asked for. */
  lemma NodeDraftIff(id: string, input: NodeInput, authToken: string, createdAt: int, now: int, n: NodeConfig)
    ensures n == NodeDraft(id, input, authToken, createdAt, now) <==>
              && n.id == id && n.authToken == authToken && n.createdAt == createdAt && n.updatedAt == now && NodeAsAsked(n, input)
  {
    LowerEmpty(TrimSpace(input.authMethod));
    LowerEmpty(TrimSpace(input.webScheme));
    NormalizedRangesIff(input.allowPorts, n.allowPorts);
  }

  /** A form gives a node exactly when the node as asked fits. */
  lemma NodeFromInputIff(id: string, input: NodeInput, authToken: string, createdAt: int, now: int, n: NodeConfig)
    ensures NodeFromInput(id, input, authToken, createdAt, now) == Ok(n) <==>
              && n.id == id && n.authToken == authToken && n.createdAt == createdAt && n.updatedAt == now
              && NodeAsAsked(n, input) && NodeFits(n)
  {
    NodeDraftIff(id, input, authToken, createdAt, now, n);
    LowerEmpty(TrimSpace(input.webScheme));
    if n == NodeDraft(id, input, authToken, createdAt, now) {
      NodeFitsIs(n);
    }
  }

  /** CreateNode: the id asked for, else one made of the words of the name, else a generated one. */
  lemma BuildNodeIff(input: NodeInput, generatedId: string, now: int, n: NodeConfig)
    ensures BuildNode(input, generatedId, now) == Ok(n) <==>
              && n.id == (if TrimSpace(input.id) != "" then TrimSpace(input.id)
                          else if WebDomain.SanitizeNodeId(input.name) != "" then WebDomain.SanitizeNodeId(input.name)
                          else generatedId)
              && n.authToken == TrimSpace(input.authToken) && n.createdAt == now && n.updatedAt == now
              && NodeAsAsked(n, input) && NodeFits(n)
  {
    var asked := TrimSpace(input.id);
    var named := if asked == "" then WebDomain.SanitizeNodeId(input.name) else asked;
    NodeFromInputIff(if named == "" then generatedId else named, input, TrimSpace(input.authToken), now, now, n);
  }

  /** UpdateNode: the id and the time of creation stay, and so does the token unless it is set or cleared. */
  lemma UpdateNodeIff(id: string, input: NodeInput, token: TokenChange, existing: NodeConfig, now: int, n: NodeConfig)
    ensures UpdateNode(id, input, token, existing, now) == Ok(n) <==>
              && n.id == id && n.createdAt == existing.createdAt && n.updatedAt == now
              && (token.KeepToken? ==> n.authToken == existing.authToken)
              && (token.SetToken? ==> n.authToken == TrimSpace(token.token)) && (token.ClearToken? ==> n.authToken == "")
              && NodeAsAsked(n, input) && NodeFits(n)
  {
    var authToken := match token
      case KeepToken => existing.authToken
      case SetToken(t) => TrimSpace(t)
      case ClearToken => "";
    NodeFromInputIff(id, input, authToken, existing.createdAt, now, n);
  }

  // ---------- requests ----------

  /** The enabled rules of a node. */
  function RulesUsing(d: Data, id: string): set<string> {
    set k | k in d.portRules && d.portRules[k].nodeId == id && d.portRules[k].enabled
  }

  lemma UsedIff(d: Data, id: string)
    ensures EnabledRuleUsesNode(d, id) <==> RulesUsing(d, id) != {}
  {
    if EnabledRuleUsesNode(d, id) {
      var k :| k in d.portRules && d.portRules[k].nodeId == id && d.portRules[k].enabled;
      assert k in RulesUsing(d, id);
    }
  }

  /** What a built node leads to: the one node changes, by applying everything if an enabled rule uses it, and in
      place otherwise. */
  lemma BuiltNodePlans(snap: Data, id: string, built: Result<NodeConfig>)
    ensures PlanBuiltNode(snap, id, built)
         == if built.Err? then Err(built.error)
            else if RulesUsing(snap, id) != {} then Ok(Replace(snap.(nodes := snap.nodes[id := built.value])))
            else Ok(SetNode(id, built.value))
  {
    UsedIff(snap, id);
  }

  /** A request on a node plans with the node that UpdateNode builds for it; a blank id or an unknown node is refused. */
  lemma NamedNodePlans(snap: Data, id: string, input: NodeInput, token: TokenChange, now: int, built: Result<NodeConfig>)
    requires id in snap.nodes ==> built == UpdateNode(id, input, token, snap.nodes[id], now)
    ensures PlanNamedNode(snap, id, input, token, now)
         == if id == "" then Err(BadRequest)
            else if id !in snap.nodes then Err(NotFound)
            else PlanBuiltNode(snap, id, built)
  {
  }

  /** Creating and deleting a node in place: an id that is taken is refused, and so is deleting the default node, an
      unknown one, or one with rules, enabled or not. */
  lemma NodesInPlace(d: Data, node: NodeConfig, id: string)
    ensures var created := CreateNodeNow(d, node);
            if node.id in d.nodes then created == Err(Conflict) else created == Ok(d.(nodes := d.nodes[node.id := node]))
    ensures var deleted, key := DeleteNodeNow(d, id), TrimSpace(id);
            && (deleted.Ok? <==>
                 && key != "" && key != "default" && key in d.nodes && forall k | k in d.portRules :: d.portRules[k].nodeId != key)
            && (deleted.Ok? ==> deleted.value == d.(nodes := d.nodes - {key}))
  {
  }

  /** CreatePort and UpdatePort succeed exactly with the rule asked for, valid and allowed by its node; nothing else of
      the store changes. */
  lemma PortRequestIff(isIP: string -> bool, snap: Data, r: Request, now: int, p: Plan)
    requires r.CreatePort? || (r.UpdatePort? && r.id in snap.portRules)
    ensures var id := if r.CreatePort? then r.portId else r.id;
            var createdAt := if r.CreatePort? then now else snap.portRules[r.id].createdAt;
            Prepare(isIP, snap, r, now) == Ok(p) <==>
              && p.Replace? && id in p.newData.portRules
              && var rule := p.newData.portRules[id];
              && p.newData == snap.(portRules := snap.portRules[id := rule])
              && AsAsked(snap, rule, id, createdAt, r.input, now) && ValidatePortRule(isIP, snap, rule) == Pass
              && (rule.protocol == "http" ==> rule.nodeId in snap.nodes && WebAllows(snap.nodes[rule.nodeId], r.input))
  {
    var id := if r.CreatePort? then r.portId else r.id;
    var createdAt := if r.CreatePort? then now else snap.portRules[r.id].createdAt;
    if p.Replace? && id in p.newData.portRules {
      BuiltPortRuleIff(isIP, snap, id, createdAt, r.input, now, p.newData.portRules[id]);
    }
  }

  /** Switching a rule needs it to be valid among the rules with it switched; deleting needs it to be there. */
  lemma PortSwitchSucceedsIff(isIP: string -> bool, snap: Data, r: Request, now: int)
    ensures r.PatchPort? ==>
              (Prepare(isIP, snap, r, now).Ok? <==>
                && r.enable.Some? && r.id in snap.portRules
                && var rule := snap.portRules[r.id].(enabled := r.enable.value, updatedAt := now);
                   ValidatePortRule(isIP, snap.(portRules := snap.portRules[r.id := rule]), rule) == Pass)
    ensures r.DeletePort? ==> (Prepare(isIP, snap, r, now).Ok? <==> r.id in snap.portRules)
    ensures r.DeleteRoom? ==> (Prepare(isIP, snap, r, now).Ok? <==> r.id in snap.roomRules)
  {
  }

  /** Saving a room rule needs its fields to fit and its address to be free among the stored rules; switching one,
      among the rules with it switched. */
  lemma SaveRoomSucceedsIff(isIP: string -> bool, snap: Data, rule: RoomRule, now: int)
    ensures Prepare(isIP, snap, SaveRoom(rule), now).Ok? <==>
              RoomFieldsFit(isIP, rule) && ListenerFree(snap.roomRules, rule)
  {
    RoomRuleValidIff(isIP, snap, rule);
  }

  lemma PatchRoomSucceedsIff(isIP: string -> bool, snap: Data, id: string, enable: Option<bool>, now: int)
    ensures Prepare(isIP, snap, PatchRoom(id, enable), now).Ok? <==>
              && enable.Some? && id in snap.roomRules
              && var rule := snap.roomRules[id].(enabled := enable.value, updatedAt := now);
                 RoomFieldsFit(isIP, rule) && ListenerFree(snap.roomRules[id := rule], rule)
  {
    if enable.Some? && id in snap.roomRules {
      var rule := snap.roomRules[id].(enabled := enable.value, updatedAt := now);
      RoomRuleValidIff(isIP, snap.(roomRules := snap.roomRules[id := rule]), rule);
    }
  }
}
