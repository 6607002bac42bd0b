/** The rule store under concurrency. A request takes a snapshot, plans a new state from it, and later
    commits that state as a whole, provided it renders; when the processes refuse it, the snapshot is put
    back. Node requests change the store in place. Nothing orders the requests: any of them may come between
    another one's snapshot, commit and rollback (internal/client/service.go, internal/storage/json_file.go). */
module RuleStore {
  import opened Wrappers
  import opened Text
  import opened Validate
  import opened Rules
  import PortRanges
  import WebDomain

  /** What a request is about. */
  datatype Target = PortTarget(id: string) | RoomTarget(id: string) | NodeTarget(id: string)

  function TargetOf(r: Request): Target {
    match r
    case CreatePort(id, _) => PortTarget(id)
    case UpdatePort(id, _) => PortTarget(id)
    case PatchPort(id, _) => PortTarget(id)
    case DeletePort(id) => PortTarget(id)
    case SaveRoom(rule) => RoomTarget(rule.id)
    case PatchRoom(id, _) => RoomTarget(id)
    case DeleteRoom(id) => RoomTarget(id)
    case ChangeNode(id, _, _) => NodeTarget(TrimSpace(id))
  }

  datatype Pending = Planned(snapshot: Data, target: Target, plan: Plan) | Committed(snapshot: Data, target: Target)

  datatype System = System(store: Data, pending: map<nat, Pending>)

  datatype Event =
    | Begin(thread: nat, request: Request, now: int)   // snapshot and plan
    | Commit(thread: nat)                              // the store takes the plan
    | Rollback(thread: nat)                            // the store takes the old snapshot back
    | Finish(thread: nat)                              // the request ends, successfully or before its commit
    | CreateNode(input: NodeInput, generatedId: string, now: int)
    | DeleteNode(id: string)

  /** Whether a state renders; applyData commits no other. */
  type Gate = Data -> bool

  function AfterCommit(store: Data, plan: Plan): Data {
    match plan
    case Replace(newData) => Normalized(newData)
    case SetNode(id, node) =>
      var r := SetNodeNow(store, id, node);
      if r.Ok? then r.value else store
  }

  predicate MayCommit(gate: Gate, plan: Plan) {
    plan.Replace? ==> gate(Normalized(plan.newData))
  }

  /** A request that replaced the store can still be rolled back; one that set a node is done. */
  function Committing(gate: Gate, s: System, t: nat): System
    requires t in s.pending && s.pending[t].Planned?
  {
    var p := s.pending[t];
    if !MayCommit(gate, p.plan) then s.(pending := s.pending - {t})
    else
      System(AfterCommit(s.store, p.plan),
             if p.plan.Replace? then s.pending[t := Committed(p.snapshot, p.target)] else s.pending - {t})
  }

  function Next(isIP: string -> bool, gate: Gate, s: System, e: Event): System {
    match e
    case Begin(t, r, now) =>
      var plan := Prepare(isIP, s.store, r, now);
      if t !in s.pending && plan.Ok? then s.(pending := s.pending[t := Planned(s.store, TargetOf(r), plan.value)]) else s
    case Commit(t) => if t in s.pending && s.pending[t].Planned? then Committing(gate, s, t) else s
    case Rollback(t) =>
      if t in s.pending && s.pending[t].Committed? then System(s.pending[t].snapshot, s.pending - {t}) else s
    case Finish(t) => s.(pending := s.pending - {t})
    case CreateNode(input, generatedId, now) =>
      var node := BuildNode(input, generatedId, now);
      var d := if node.Ok? then CreateNodeNow(s.store, node.value) else Err(BadRequest);
      if d.Ok? then s.(store := d.value) else s
    case DeleteNode(id) =>
      var d := DeleteNodeNow(s.store, id);
      if d.Ok? then s.(store := d.value) else s
  }

  function Run(isIP: string -> bool, gate: Gate, s: System, events: seq<Event>): System
    decreases |events|
  {
    if events == [] then s else Run(isIP, gate, Next(isIP, gate, s, events[0]), events[1..])
  }

  // ---------- stored states are consistent ----------

  /** The store, every snapshot still in use and every plan not yet committed are consistent. */
  ghost predicate AllConsistent(s: System) {
    && Consistent(s.store)
    && forall t | t in s.pending ::
         Consistent(s.pending[t].snapshot) && (s.pending[t].Planned? ==> PlanConsistent(s.pending[t].plan))
  }

  lemma CommitConsistent(store: Data, plan: Plan)
    requires Consistent(store) && PlanConsistent(plan)
    ensures Consistent(AfterCommit(store, plan))
  {
    match plan
    case Replace(_) =>
    case SetNode(id, node) => InPlaceConsistent(store, node, "");
  }

  lemma NextConsistent(isIP: string -> bool, gate: Gate, s: System, e: Event)
    requires AllConsistent(s)
    ensures AllConsistent(Next(isIP, gate, s, e))
  {
    match e
    case Begin(t, r, now) =>
      if Prepare(isIP, s.store, r, now).Ok? {
        PreparedConsistent(isIP, s.store, r, now);
      }
    case Commit(t) =>
      if t in s.pending && s.pending[t].Planned? {
        CommitConsistent(s.store, s.pending[t].plan);
      }
    case CreateNode(input, generatedId, now) =>
      var node := BuildNode(input, generatedId, now);
      if node.Ok? {
        InPlaceConsistent(s.store, node.value, "");
      }
    case DeleteNode(id) =>
      DeletedConsistent(s.store, id);
    case _ =>
  }

  lemma DeletedConsistent(d: Data, id: string)
    requires Consistent(d)
    ensures DeleteNodeNow(d, id).Ok? ==> Consistent(DeleteNodeNow(d, id).value)
  {
  }

  lemma {:induction false} RunConsistent(isIP: string -> bool, gate: Gate, s: System, events: seq<Event>)
    requires AllConsistent(s)
    ensures AllConsistent(Run(isIP, gate, s, events))
    decreases |events|
  {
    if events != [] {
      NextConsistent(isIP, gate, s, events[0]);
      RunConsistent(isIP, gate, Next(isIP, gate, s, events[0]), events[1..]);
    }
  }

  /** However requests interleave, whatever renders, and whichever requests roll back to a stale snapshot,
      every stored state keeps key = id, the node of every port rule, and no two rules claiming the same
      domain, remote port or visitor address. */
  lemma StoredStatesConsistent(isIP: string -> bool, gate: Gate, initial: Data, events: seq<Event>)
    requires Consistent(initial)
    ensures Consistent(Run(isIP, gate, System(initial, map[]), events).store)
  {
    RunConsistent(isIP, gate, System(initial, map[]), events);
  }

  // ---------- which steps lose another request's change ----------

  /** The two states agree on everything but the target. */
  ghost predicate SameOff(a: Data, b: Data, t: Target) {
    && a.frpc == b.frpc && a.legacy == b.legacy
    && (if t.PortTarget? then a.portRules - {t.id} == b.portRules - {t.id} else a.portRules == b.portRules)
    && (if t.RoomTarget? then a.roomRules - {t.id} == b.roomRules - {t.id} else a.roomRules == b.roomRules)
    && (if t.NodeTarget? then a.nodes - {t.id} == b.nodes - {t.id} else a.nodes == b.nodes)
  }

  lemma OnlyNode(snap: Data, id: string, node: NodeConfig)
    ensures SameOff(snap.(nodes := snap.nodes[id := node]), snap, NodeTarget(id))
  {
    SetKeepsOthers(snap.nodes, id, node);
  }

  lemma NodePlanOffTarget(snap: Data, id: string, input: NodeInput, token: TokenChange, now: int)
    requires id in snap.nodes && PlanNode(snap, id, input, token, now).Ok?
    ensures match PlanNode(snap, id, input, token, now).value
            case Replace(d) => SameOff(d, snap, NodeTarget(id))
            case SetNode(nodeId, _) => nodeId == id
  {
    OnlyNode(snap, id, UpdateNode(id, input, token, snap.nodes[id], now).value);
  }

  ghost predicate PlanOffTarget(snap: Data, t: Target, p: Plan) {
    match p
    case Replace(d) => SameOff(d, snap, t)
    case SetNode(id, _) => t == NodeTarget(id)
  }

  /** A plan changes nothing of its snapshot but the target. */
  lemma PreparedOffTarget(isIP: string -> bool, snap: Data, r: Request, now: int)
    requires Prepare(isIP, snap, r, now).Ok?
    ensures PlanOffTarget(snap, TargetOf(r), Prepare(isIP, snap, r, now).value)
  {
    if r.ChangeNode? {
      NodePlanOffTarget(snap, TrimSpace(r.id), r.node, r.token, now);
    } else if r.SaveRoom? || r.PatchRoom? || r.DeleteRoom? {
      RoomRequestEffect(isIP, snap, r, now);
    } else {
      PortRequestEffect(isIP, snap, r, now);
    }
  }

  /** Snapshots and the store are normalised, and plans change only their target. */
  ghost predicate Tracked(s: System) {
    && Normalized(s.store) == s.store
    && forall t | t in s.pending ::
         && Normalized(s.pending[t].snapshot) == s.pending[t].snapshot
         && (s.pending[t].Planned? ==> PlanOffTarget(s.pending[t].snapshot, s.pending[t].target, s.pending[t].plan))
  }

  lemma SameSettings(a: Data, b: Data)
    requires a.frpc == b.frpc && Normalized(b) == b
    ensures Normalized(a) == a
  {
  }

  lemma AfterCommitNormalized(store: Data, plan: Plan)
    requires Normalized(store) == store
    ensures Normalized(AfterCommit(store, plan)) == AfterCommit(store, plan)
  {
  }

  lemma InPlaceNormalized(d: Data, node: NodeConfig, id: string)
    requires Normalized(d) == d
    ensures CreateNodeNow(d, node).Ok? ==> Normalized(CreateNodeNow(d, node).value) == CreateNodeNow(d, node).value
    ensures DeleteNodeNow(d, id).Ok? ==> Normalized(DeleteNodeNow(d, id).value) == DeleteNodeNow(d, id).value
  {
  }

  lemma NextTracked(isIP: string -> bool, gate: Gate, s: System, e: Event)
    requires Tracked(s)
    ensures Tracked(Next(isIP, gate, s, e))
  {
    match e
    case Begin(t, r, now) =>
      if Prepare(isIP, s.store, r, now).Ok? {
        PreparedOffTarget(isIP, s.store, r, now);
      }
    case Commit(t) =>
      if t in s.pending && s.pending[t].Planned? {
        AfterCommitNormalized(s.store, s.pending[t].plan);
      }
    case CreateNode(input, generatedId, now) =>
      var node := BuildNode(input, generatedId, now);
      if node.Ok? {
        InPlaceNormalized(s.store, node.value, "");
      }
    case DeleteNode(id) => DeletedNormalized(s.store, id);
    case _ =>
  }

  lemma DeletedNormalized(d: Data, id: string)
    requires Normalized(d) == d
    ensures DeleteNodeNow(d, id).Ok? ==> Normalized(DeleteNodeNow(d, id).value) == DeleteNodeNow(d, id).value
  {
  }

  lemma {:induction false} RunTracked(isIP: string -> bool, gate: Gate, s: System, events: seq<Event>)
    requires Tracked(s)
    ensures Tracked(Run(isIP, gate, s, events))
    decreases |events|
  {
    if events != [] {
      NextTracked(isIP, gate, s, events[0]);
      RunTracked(isIP, gate, Next(isIP, gate, s, events[0]), events[1..]);
    }
  }

  /** What the step is about. */
  function OwnTarget(s: System, e: Event): Target {
    match e
    case Commit(t) => if t in s.pending then s.pending[t].target else NodeTarget("")
    case Rollback(t) => if t in s.pending then s.pending[t].target else NodeTarget("")
    case CreateNode(input, generatedId, now) =>
      var node := BuildNode(input, generatedId, now);
      NodeTarget(if node.Ok? then node.value.id else "")
    case DeleteNode(id) => NodeTarget(TrimSpace(id))
    case _ => NodeTarget("")
  }

  /** The step replaces the store: a commit of a planned state that renders, or a rollback. */
  predicate Replaces(gate: Gate, s: System, e: Event) {
    match e
    case Commit(t) => t in s.pending && s.pending[t].Planned? && s.pending[t].plan.Replace? && MayCommit(gate, s.pending[t].plan)
    case Rollback(t) => t in s.pending && s.pending[t].Committed?
    case _ => false
  }

  /** Its snapshot still agrees with the store on everything it is not about. */
  ghost predicate UpToDate(gate: Gate, s: System, e: Event) {
    Replaces(gate, s, e) ==> SameOff(s.pending[e.thread].snapshot, s.store, s.pending[e.thread].target)
  }

  lemma SameOffShift(a: Data, b: Data, c: Data, t: Target)
    requires SameOff(a, b, t)
    ensures SameOff(a, c, t) <==> SameOff(b, c, t)
  {
  }

  lemma CommitIff(gate: Gate, s: System, t: nat)
    requires Tracked(s) && t in s.pending && s.pending[t].Planned? && MayCommit(gate, s.pending[t].plan)
    ensures s.pending[t].plan.Replace? ==>
              (SameOff(AfterCommit(s.store, s.pending[t].plan), s.store, s.pending[t].target)
               <==> SameOff(s.pending[t].snapshot, s.store, s.pending[t].target))
    ensures s.pending[t].plan.SetNode? ==> SameOff(AfterCommit(s.store, s.pending[t].plan), s.store, s.pending[t].target)
  {
    var p := s.pending[t];
    match p.plan
    case Replace(d) =>
      SameSettings(d, p.snapshot);
      SameOffShift(d, p.snapshot, s.store, p.target);
    case SetNode(id, node) =>
      OnlyNode(s.store, id, node);
  }

  lemma NodeStepOwn(isIP: string -> bool, gate: Gate, s: System, e: Event)
    requires e.CreateNode? || e.DeleteNode?
    ensures SameOff(Next(isIP, gate, s, e).store, s.store, OwnTarget(s, e))
  {
    if e.CreateNode? {
      var node := BuildNode(e.input, e.generatedId, e.now);
      if node.Ok? {
        OnlyNode(s.store, node.value.id, node.value);
      }
    }
  }

  /** One step changes nothing but what it is about if and only if it does not replace the store, or replaces
      it while its snapshot is up to date. */
  lemma StepKeepsOthersIff(isIP: string -> bool, gate: Gate, s: System, e: Event)
    requires Tracked(s)
    ensures SameOff(Next(isIP, gate, s, e).store, s.store, OwnTarget(s, e)) <==> UpToDate(gate, s, e)
  {
    match e
    case Commit(t) =>
      if t in s.pending && s.pending[t].Planned? && MayCommit(gate, s.pending[t].plan) {
        CommitIff(gate, s, t);
      }
    case CreateNode(_, _, _) => NodeStepOwn(isIP, gate, s, e);
    case DeleteNode(_) => NodeStepOwn(isIP, gate, s, e);
    case _ =>
  }

  /** In every reachable state: a step loses or revives another rule, room or node exactly when it replaces the
      store from a snapshot that no longer agrees with the store on them. */
  lemma NoUpdateLostIff(isIP: string -> bool, gate: Gate, initial: Data, events: seq<Event>, e: Event)
    requires Normalized(initial) == initial
    ensures var s := Run(isIP, gate, System(initial, map[]), events);
            SameOff(Next(isIP, gate, s, e).store, s.store, OwnTarget(s, e)) <==> UpToDate(gate, s, e)
  {
    RunTracked(isIP, gate, System(initial, map[]), events);
    StepKeepsOthersIff(isIP, gate, Run(isIP, gate, System(initial, map[]), events), e);
  }

  // ---------- which runs keep the enabled rules valid ----------

  ghost predicate AllValid(isIP: string -> bool, d: Data) {
    && (forall k | k in d.portRules && d.portRules[k].enabled :: ValidatePortRule(isIP, d, d.portRules[k]) == Pass)
    && (forall k | k in d.roomRules && d.roomRules[k].enabled :: ValidateRoomRule(isIP, d, d.roomRules[k]) == Pass)
  }

  /** What a valid rule needs of its node. */
  predicate Accepts(n: NodeConfig, rule: PortRule) {
    var authMethod := Lower(TrimSpace(n.authMethod));
    && TrimSpace(n.serverAddr) != "" && Port(n.frpsPort) && (authMethod == "" || authMethod == "token")
    && TrimSpace(n.authToken) != ""
    && (rule.protocol == "http" ==> WebDomain.ValidateWeb(n.webBaseDomain, WebDomain.Web(rule.subdomain, rule.domain)).Pass?)
    && (rule.protocol != "http" ==> PortRanges.RemotePortAllowed(rule.remotePort, n.allowPorts))
  }

  lemma ValidNeedsNode(isIP: string -> bool, d: Data, rule: PortRule)
    requires ValidatePortRule(isIP, d, rule) == Pass
    ensures rule.nodeId in d.nodes && Accepts(d.nodes[rule.nodeId], rule)
  {
  }

  lemma ValidAgain(isIP: string -> bool, d: Data, d': Data, rule: PortRule)
    requires ValidatePortRule(isIP, d, rule) == Pass && d'.portRules == d.portRules
    requires rule.nodeId in d'.nodes && Accepts(d'.nodes[rule.nodeId], rule)
    ensures ValidatePortRule(isIP, d', rule) == Pass
  {
  }

  lemma RoomsStayValid(isIP: string -> bool, d: Data, d': Data, rule: RoomRule)
    requires d'.roomRules == d.roomRules
    ensures ValidateRoomRule(isIP, d', rule) == ValidateRoomRule(isIP, d, rule)
  {
  }

  /** Every enabled rule of the node could live with the configuration. */
  ghost predicate AcceptsAll(d: Data, id: string, n: NodeConfig) {
    forall k | k in d.portRules && d.portRules[k].enabled && d.portRules[k].nodeId == id :: Accepts(n, d.portRules[k])
  }

  /** Changing nodes: the rules stay valid exactly when each enabled one still has a node that accepts it. */
  lemma NodesChangedValidIff(isIP: string -> bool, d: Data, d': Data)
    requires AllValid(isIP, d) && d' == d.(nodes := d'.nodes)
    ensures AllValid(isIP, d') <==>
              forall k | k in d.portRules && d.portRules[k].enabled ::
                d.portRules[k].nodeId in d'.nodes && Accepts(d'.nodes[d.portRules[k].nodeId], d.portRules[k])
  {
    forall k | k in d.portRules && d.portRules[k].enabled
      ensures ValidatePortRule(isIP, d', d.portRules[k]) == Pass
         <==> d.portRules[k].nodeId in d'.nodes && Accepts(d'.nodes[d.portRules[k].nodeId], d.portRules[k])
    {
      if ValidatePortRule(isIP, d', d.portRules[k]) == Pass {
        ValidNeedsNode(isIP, d', d.portRules[k]);
      } else if d.portRules[k].nodeId in d'.nodes && Accepts(d'.nodes[d.portRules[k].nodeId], d.portRules[k]) {
        ValidAgain(isIP, d, d', d.portRules[k]);
      }
    }
    forall k | k in d.roomRules ensures ValidateRoomRule(isIP, d', d.roomRules[k]) == ValidateRoomRule(isIP, d, d.roomRules[k]) {
      RoomsStayValid(isIP, d, d', d.roomRules[k]);
    }
  }

  lemma AllValidNodes(isIP: string -> bool, d: Data)
    requires AllValid(isIP, d)
    ensures forall k | k in d.portRules && d.portRules[k].enabled ::
              d.portRules[k].nodeId in d.nodes && Accepts(d.nodes[d.portRules[k].nodeId], d.portRules[k])
  {
    forall k | k in d.portRules && d.portRules[k].enabled
      ensures d.portRules[k].nodeId in d.nodes && Accepts(d.nodes[d.portRules[k].nodeId], d.portRules[k])
    {
      ValidNeedsNode(isIP, d, d.portRules[k]);
    }
  }

  lemma SetNodeValidIff(isIP: string -> bool, d: Data, id: string, n: NodeConfig)
    requires AllValid(isIP, d)
    ensures AllValid(isIP, d.(nodes := d.nodes[id := n])) <==> AcceptsAll(d, id, n)
  {
    AllValidNodes(isIP, d);
    NodesChangedValidIff(isIP, d, d.(nodes := d.nodes[id := n]));
  }

  lemma CreateNodeValid(isIP: string -> bool, d: Data, n: NodeConfig)
    requires AllValid(isIP, d) && CreateNodeNow(d, n).Ok?
    ensures AllValid(isIP, CreateNodeNow(d, n).value)
  {
    AllValidNodes(isIP, d);
    NodesChangedValidIff(isIP, d, d.(nodes := d.nodes[n.id := n]));
  }

  lemma DeleteNodeValid(isIP: string -> bool, d: Data, id: string)
    requires AllValid(isIP, d) && DeleteNodeNow(d, id).Ok?
    ensures AllValid(isIP, DeleteNodeNow(d, id).value)
  {
    AllValidNodes(isIP, d);
    NodesChangedValidIff(isIP, d, d.(nodes := d.nodes - {TrimSpace(id)}));
  }

  /** The gate lets no invalid enabled rule pass. */
  ghost predicate Guards(isIP: string -> bool, gate: Gate) {
    forall d | Consistent(d) && gate(d) :: AllValid(isIP, d)
  }

  /** Store and snapshots hold valid enabled rules only. */
  ghost predicate ValidNow(isIP: string -> bool, s: System) {
    AllValid(isIP, s.store) && forall t | t in s.pending :: AllValid(isIP, s.pending[t].snapshot)
  }

  /** The step is no in-place node change, or one that every enabled rule of the node accepts. */
  ghost predicate SetsAccepted(s: System, e: Event) {
    e.Commit? && e.thread in s.pending && s.pending[e.thread].Planned? && s.pending[e.thread].plan.SetNode? ==>
      var p := s.pending[e.thread].plan;
      p.nodeId in s.store.nodes ==> AcceptsAll(s.store, p.nodeId, p.config)
  }

  lemma CommitValidIff(isIP: string -> bool, gate: Gate, s: System, t: nat)
    requires Guards(isIP, gate) && AllConsistent(s) && ValidNow(isIP, s) && t in s.pending && s.pending[t].Planned?
    ensures ValidNow(isIP, Committing(gate, s, t)) <==> SetsAccepted(s, Commit(t))
    ensures AllValid(isIP, Committing(gate, s, t).store) <==> SetsAccepted(s, Commit(t))
  {
    match s.pending[t].plan
    case Replace(d) =>
      if MayCommit(gate, s.pending[t].plan) {
        CommitConsistent(s.store, s.pending[t].plan);
      }
    case SetNode(id, n) =>
      SetNodeValidIff(isIP, s.store, id, n);
  }

  /** From a valid state a step leads to a valid one exactly when it is no node change that an enabled rule of
      the node does not accept. */
  lemma NextValidIff(isIP: string -> bool, gate: Gate, s: System, e: Event)
    requires Guards(isIP, gate) && AllConsistent(s) && ValidNow(isIP, s)
    ensures AllValid(isIP, Next(isIP, gate, s, e).store) <==> SetsAccepted(s, e)
    ensures SetsAccepted(s, e) ==> ValidNow(isIP, Next(isIP, gate, s, e))
  {
    match e
    case Commit(t) =>
      if t in s.pending && s.pending[t].Planned? {
        CommitValidIff(isIP, gate, s, t);
      }
    case CreateNode(input, generatedId, now) =>
      var node := BuildNode(input, generatedId, now);
      if node.Ok? && CreateNodeNow(s.store, node.value).Ok? {
        CreateNodeValid(isIP, s.store, node.value);
      }
    case DeleteNode(id) =>
      if DeleteNodeNow(s.store, id).Ok? {
        DeleteNodeValid(isIP, s.store, id);
      }
    case _ =>
  }

  ghost predicate AlwaysValid(isIP: string -> bool, gate: Gate, s: System, events: seq<Event>)
    decreases |events|
  {
    AllValid(isIP, s.store) && (events != [] ==> AlwaysValid(isIP, gate, Next(isIP, gate, s, events[0]), events[1..]))
  }

  ghost predicate AlwaysAccepted(isIP: string -> bool, gate: Gate, s: System, events: seq<Event>)
    decreases |events|
  {
    events != [] ==> SetsAccepted(s, events[0]) && AlwaysAccepted(isIP, gate, Next(isIP, gate, s, events[0]), events[1..])
  }

  lemma {:induction false} RunValidIff(isIP: string -> bool, gate: Gate, s: System, events: seq<Event>)
    requires Guards(isIP, gate) && AllConsistent(s) && ValidNow(isIP, s)
    ensures AlwaysValid(isIP, gate, s, events) <==> AlwaysAccepted(isIP, gate, s, events)
    decreases |events|
  {
    if events != [] {
      NextValidIff(isIP, gate, s, events[0]);
      NextConsistent(isIP, gate, s, events[0]);
      if SetsAccepted(s, events[0]) {
        RunValidIff(isIP, gate, Next(isIP, gate, s, events[0]), events[1..]);
      } else {
        assert !AlwaysValid(isIP, gate, Next(isIP, gate, s, events[0]), events[1..]);
      }
    }
  }

  /** Whatever interleaves, every enabled rule of every stored state is valid if and only if each node is set in
      place to a configuration that the rules enabled by then on that node accept. */
  lemma StoredRulesValidIff(isIP: string -> bool, gate: Gate, initial: Data, events: seq<Event>)
    requires Guards(isIP, gate) && Consistent(initial) && AllValid(isIP, initial)
    ensures AlwaysValid(isIP, gate, System(initial, map[]), events) <==> AlwaysAccepted(isIP, gate, System(initial, map[]), events)
  {
    RunValidIff(isIP, gate, System(initial, map[]), events);
  }

  /** Nodes are set in place only while no enabled rule uses them. */
  ghost predicate AlwaysUnused(isIP: string -> bool, gate: Gate, s: System, events: seq<Event>)
    decreases |events|
  {
    events != [] ==>
      && (var e := events[0];
          e.Commit? && e.thread in s.pending && s.pending[e.thread].Planned? && s.pending[e.thread].plan.SetNode? ==>
            !EnabledRuleUsesNode(s.store, s.pending[e.thread].plan.nodeId))
      && AlwaysUnused(isIP, gate, Next(isIP, gate, s, events[0]), events[1..])
  }

  lemma {:induction false} UnusedIsAccepted(isIP: string -> bool, gate: Gate, s: System, events: seq<Event>)
    requires AlwaysUnused(isIP, gate, s, events)
    ensures AlwaysAccepted(isIP, gate, s, events)
    decreases |events|
  {
    if events != [] {
      UnusedIsAccepted(isIP, gate, Next(isIP, gate, s, events[0]), events[1..]);
    }
  }

  /** So the guard that UpdateNode checks on its snapshot would be enough if it still held at the commit. */
  lemma StoredRulesValid(isIP: string -> bool, gate: Gate, initial: Data, events: seq<Event>)
    requires Guards(isIP, gate) && Consistent(initial) && AllValid(isIP, initial)
    requires AlwaysUnused(isIP, gate, System(initial, map[]), events)
    ensures AlwaysValid(isIP, gate, System(initial, map[]), events)
  {
    UnusedIsAccepted(isIP, gate, System(initial, map[]), events);
    StoredRulesValidIff(isIP, gate, initial, events);
  }

  // ---------- two overlapping requests ----------

  lemma FourEvents(isIP: string -> bool, gate: Gate, s: System, a: Event, b: Event, c: Event, d: Event)
    ensures Run(isIP, gate, s, [a, b, c, d])
         == Next(isIP, gate, Next(isIP, gate, Next(isIP, gate, Next(isIP, gate, s, a), b), c), d)
  {
    var s1 := Next(isIP, gate, s, a);
    var s2 := Next(isIP, gate, s1, b);
    var s3 := Next(isIP, gate, s2, c);
    assert [a, b, c, d][1..] == [b, c, d];
    assert [b, c, d][1..] == [c, d];
    assert [c, d][1..] == [d];
    assert [d][1..] == [];
    assert Run(isIP, gate, Next(isIP, gate, s3, d), []) == Next(isIP, gate, s3, d);
    assert Run(isIP, gate, s3, [d]) == Next(isIP, gate, s3, d);
    assert Run(isIP, gate, s2, [c, d]) == Run(isIP, gate, s3, [d]);
    assert Run(isIP, gate, s1, [b, c, d]) == Run(isIP, gate, s2, [c, d]);
  }

  /** Two requests planned from the same snapshot: the second commit is made without regard to the first. */
  lemma OverlappingPlans(isIP: string -> bool, gate: Gate, d: Data, q: Request, r: Request, now: int)
    requires Prepare(isIP, d, q, now).Ok? && MayCommit(gate, Prepare(isIP, d, q, now).value)
    requires Prepare(isIP, d, r, now).Ok? && MayCommit(gate, Prepare(isIP, d, r, now).value)
    ensures Run(isIP, gate, System(d, map[]), [Begin(1, q, now), Begin(2, r, now), Commit(1), Commit(2)]).store
         == AfterCommit(AfterCommit(d, Prepare(isIP, d, q, now).value), Prepare(isIP, d, r, now).value)
  {
    var s0 := System(d, map[]);
    var s1 := Next(isIP, gate, s0, Begin(1, q, now));
    var s2 := Next(isIP, gate, s1, Begin(2, r, now));
    var s3 := Next(isIP, gate, s2, Commit(1));
    assert s2.store == d && s2.pending[1].Planned? && s2.pending[2].Planned?;
    assert s3.pending[2] == s2.pending[2];
    FourEvents(isIP, gate, s0, Begin(1, q, now), Begin(2, r, now), Commit(1), Commit(2));
  }

  lemma CreateAddsKey(isIP: string -> bool, d: Data, id: string, input: PortInput, now: int)
    requires Prepare(isIP, d, CreatePort(id, input), now).Ok?
    ensures var plan := Prepare(isIP, d, CreatePort(id, input), now).value;
            plan.Replace? && plan.newData.portRules.Keys == d.portRules.Keys + {id}
  {
  }

  /** Two rules created at the same time, each valid against the same snapshot and each rendering: both commits
      succeed and the store ends without the rule that was committed first. */
  lemma OverlappingCreatesLoseOne(isIP: string -> bool, gate: Gate, d: Data, a: string, b: string, inputA: PortInput, inputB: PortInput, now: int)
    requires a != b && a !in d.portRules
    requires Prepare(isIP, d, CreatePort(a, inputA), now).Ok? && MayCommit(gate, Prepare(isIP, d, CreatePort(a, inputA), now).value)
    requires Prepare(isIP, d, CreatePort(b, inputB), now).Ok? && MayCommit(gate, Prepare(isIP, d, CreatePort(b, inputB), now).value)
    ensures var s := Run(isIP, gate, System(d, map[]),
                         [Begin(1, CreatePort(a, inputA), now), Begin(2, CreatePort(b, inputB), now), Commit(1), Commit(2)]);
            b in s.store.portRules && a !in s.store.portRules
  {
    OverlappingPlans(isIP, gate, d, CreatePort(a, inputA), CreatePort(b, inputB), now);
    CreateAddsKey(isIP, d, b, inputB, now);
  }

  lemma PatchEnables(isIP: string -> bool, d: Data, id: string, now: int)
    requires Prepare(isIP, d, PatchPort(id, Some(true)), now).Ok?
    ensures var plan := Prepare(isIP, d, PatchPort(id, Some(true)), now).value;
            && plan.Replace? && plan.newData.nodes == d.nodes && id in d.portRules && id in plan.newData.portRules
            && plan.newData.portRules[id] == d.portRules[id].(enabled := true, updatedAt := now)
  {
  }

  lemma NodePlanKeepsKey(isIP: string -> bool, d: Data, r: Request, now: int)
    requires r.ChangeNode? && Prepare(isIP, d, r, now).Ok?
    ensures var plan := Prepare(isIP, d, r, now).value;
            plan.SetNode? ==> plan.nodeId in d.nodes
  {
    if Prepare(isIP, d, r, now).value.SetNode? {
      SetNodeFacts(d, TrimSpace(r.id), r.node, r.token, now);
    }
  }

  /** A port its node does not allow fails validation. */
  lemma DisallowedPortFails(isIP: string -> bool, d: Data, rule: PortRule)
    requires rule.nodeId in d.nodes && rule.protocol != "http"
    requires !PortRanges.RemotePortAllowed(rule.remotePort, d.nodes[rule.nodeId].allowPorts)
    ensures ValidatePortRule(isIP, d, rule).Fail?
  {
  }

  /** Overlapping requests can store an enabled rule that fails validation. One request enables a rule;
      another, planned while no enabled rule used the node, narrows the node's ports and sets the node in
      place without rendering. */
  lemma OverlappingNodeChangeEscapesValidation(isIP: string -> bool, gate: Gate, d: Data, nodeId: string, input: NodeInput,
                                               token: TokenChange, ruleId: string, now: int)
    requires Prepare(isIP, d, ChangeNode(nodeId, input, token), now).Ok?
    requires Prepare(isIP, d, PatchPort(ruleId, Some(true)), now).Ok? && ruleId in d.portRules
    requires MayCommit(gate, Prepare(isIP, d, PatchPort(ruleId, Some(true)), now).value)
    requires var plan := Prepare(isIP, d, ChangeNode(nodeId, input, token), now).value;
             && plan.SetNode? && d.portRules[ruleId].nodeId == plan.nodeId && d.portRules[ruleId].protocol != "http"
             && !PortRanges.RemotePortAllowed(d.portRules[ruleId].remotePort, plan.config.allowPorts)
    ensures var s := Run(isIP, gate, System(d, map[]),
                         [Begin(1, PatchPort(ruleId, Some(true)), now), Begin(2, ChangeNode(nodeId, input, token), now), Commit(1), Commit(2)]);
            && ruleId in s.store.portRules && s.store.portRules[ruleId].enabled
            && ValidatePortRule(isIP, s.store, s.store.portRules[ruleId]).Fail?
  {
    OverlappingPlans(isIP, gate, d, PatchPort(ruleId, Some(true)), ChangeNode(nodeId, input, token), now);
    PatchEnables(isIP, d, ruleId, now);
    NodePlanKeepsKey(isIP, d, ChangeNode(nodeId, input, token), now);
    var s := Run(isIP, gate, System(d, map[]),
                 [Begin(1, PatchPort(ruleId, Some(true)), now), Begin(2, ChangeNode(nodeId, input, token), now), Commit(1), Commit(2)]);
    DisallowedPortFails(isIP, s.store, s.store.portRules[ruleId]);
  }
}
