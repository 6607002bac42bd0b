/** The rule store with the gate of the source, which commits only what renders; and concrete stores on which
    overlapping requests, or a node named like a room's process, go wrong although everything renders
    (internal/client/service.go). */
module RuleOverlaps {
  import opened Wrappers
  import opened Text
  import opened Order
  import opened Lists
  import opened Validate
  import opened Rules
  import opened RuleStore
  import opened DirectRender
  import opened DirectPartition
  import opened DirectApart
  import opened Rendering
  import AdminPorts
  import PortRanges
  import WebDomain

  /** A state that applyData can render. */
  ghost predicate Renders(isIP: string -> bool, d: Data) {
    UsesDirectMode(d) ==> Render(isIP, d).Ok?
  }

  ghost function RendersIn(isIP: string -> bool): Gate {
    d => Renders(isIP, d)
  }

  lemma SameWithoutFrpc(isIP: string -> bool, d: Data, d': Data)
    requires d' == d.(frpc := d'.frpc)
    ensures AllValid(isIP, d') <==> AllValid(isIP, d)
  {
    forall k | k in d.portRules ensures ValidatePortRule(isIP, d', d.portRules[k]) == ValidatePortRule(isIP, d, d.portRules[k]) {
      SamePortCheck(isIP, d, d', d.portRules[k]);
    }
    forall k | k in d.roomRules ensures ValidateRoomRule(isIP, d', d.roomRules[k]) == ValidateRoomRule(isIP, d, d.roomRules[k]) {
      SameRoomCheck(isIP, d, d', d.roomRules[k]);
    }
  }

  lemma RenderedIsChecked(isIP: string -> bool, d: Data, rules: seq<PortRule>, rooms: seq<RoomRule>)
    requires RenderActive(isIP, d, rules, rooms).Ok?
    ensures forall r | r in rules :: ValidatePortRule(isIP, d, r) == Pass
    ensures forall q | q in rooms :: ValidateRoomRule(isIP, d, q) == Pass
  {
    ChecksMean(isIP, d, rules, rooms);
  }

  lemma ActivePortsCover(d: Data, ok: PortRule -> bool)
    requires PortRulesKeyed(d.portRules) && forall r | r in ActivePorts(d) :: ok(r)
    ensures forall k | k in d.portRules && d.portRules[k].enabled :: ok(d.portRules[k])
  {
    ActivePortsFacts(d);
    forall k | k in d.portRules && d.portRules[k].enabled ensures ok(d.portRules[k]) {
      assert d.portRules[k].id == k;
      assert d.portRules[k] in ActivePorts(d);
    }
  }

  lemma ActiveRoomsCover(d: Data, ok: RoomRule -> bool)
    requires RoomRulesKeyed(d.roomRules) && forall q | q in ActiveRooms(d) :: ok(q)
    ensures forall k | k in d.roomRules && d.roomRules[k].enabled :: ok(d.roomRules[k])
  {
    ActiveRoomsFacts(d);
    forall k | k in d.roomRules && d.roomRules[k].enabled ensures ok(d.roomRules[k]) {
      assert d.roomRules[k].id == k;
      assert d.roomRules[k] in ActiveRooms(d);
    }
  }

  lemma ActiveValid(isIP: string -> bool, d: Data)
    requires PortRulesKeyed(d.portRules) && RoomRulesKeyed(d.roomRules)
    requires forall r | r in ActivePorts(d) :: ValidatePortRule(isIP, d, r) == Pass
    requires forall q | q in ActiveRooms(d) :: ValidateRoomRule(isIP, d, q) == Pass
    ensures AllValid(isIP, d)
  {
    ActivePortsCover(d, r => ValidatePortRule(isIP, d, r) == Pass);
    ActiveRoomsCover(d, q => ValidateRoomRule(isIP, d, q) == Pass);
  }

  lemma RenderedIsValid(isIP: string -> bool, d: Data)
    requires Consistent(d) && Renders(isIP, d)
    ensures AllValid(isIP, d)
  {
    if UsesDirectMode(d) {
      var n := Normalized(d);
      RenderedIsChecked(isIP, n, ActivePorts(n), ActiveRooms(n));
      ActiveValid(isIP, n);
      SameWithoutFrpc(isIP, d, n);
    }
  }

  /** The source's gate lets no invalid enabled rule pass. */
  lemma RenderingGuards(isIP: string -> bool)
    ensures Guards(isIP, RendersIn(isIP))
  {
    forall d | Consistent(d) && RendersIn(isIP)(d) ensures AllValid(isIP, d) {
      RenderedIsValid(isIP, d);
    }
  }

  /** With the source's gate: every enabled rule of every stored state is valid if and only if each node is set
      in place to a configuration that the rules enabled by then on that node accept. */
  lemma StoredRulesRender(isIP: string -> bool, initial: Data, events: seq<Event>)
    requires Consistent(initial) && AllValid(isIP, initial)
    ensures AlwaysValid(isIP, RendersIn(isIP), System(initial, map[]), events)
       <==> AlwaysAccepted(isIP, RendersIn(isIP), System(initial, map[]), events)
  {
    RenderingGuards(isIP);
    StoredRulesValidIff(isIP, RendersIn(isIP), initial, events);
  }

  // ---------- a store with one node ----------

  const FRPC: Frpc := Frpc("f", "w", "a", 7400, "u", "p")

  function PlainNode(allowPorts: seq<PortRange>): NodeConfig {
    NodeConfig(DEFAULT_NODE_ID, "n", "s", 7000, "token", "t", "", "https", 0, allowPorts, 0, 0)
  }

  function PlainRule(id: string, port: int, enabled: bool): PortRule {
    PortRule(id, DEFAULT_NODE_ID, "n", "tcp", "localhost", 80, port, "", "", enabled, 0, 0)
  }

  function PlainStore(rules: map<string, PortRule>): Data {
    Data(false, FRPC, map[DEFAULT_NODE_ID := PlainNode([])], rules, map[])
  }

  function PlainInput(port: int): PortInput {
    PortInput(DEFAULT_NODE_ID, "n", "tcp", "localhost", 80, port, "", "", true)
  }

  lemma PlainTexts()
    ensures TrimSpace(DEFAULT_NODE_ID) == DEFAULT_NODE_ID && TrimSpace("n") == "n" && TrimSpace("s") == "s" && TrimSpace("t") == "t"
    ensures TrimSpace("token") == "token" && Lower("token") == "token" && TrimSpace("tcp") == "tcp" && Lower("tcp") == "tcp"
    ensures TrimSpace("localhost") == "localhost" && TrimSpace("") == ""
    ensures IdPattern(DEFAULT_NODE_ID, 2)
  {
  }

  lemma PlainStoreConsistent(rules: map<string, PortRule>)
    requires PortRulesKeyed(rules) && NoPortClash(rules) && forall k | k in rules :: rules[k].nodeId == DEFAULT_NODE_ID
    ensures Consistent(PlainStore(rules)) && Normalized(PlainStore(rules)) == PlainStore(rules)
  {
    PlainTexts();
  }

  lemma PlainRuleValid(isIP: string -> bool, d: Data, id: string, port: int)
    requires id != "" && UserRemotePort(port) && d.nodes == map[DEFAULT_NODE_ID := PlainNode([])]
    requires forall k | k in d.portRules :: !PortClash(PlainRule(id, port, true), d.portRules[k])
    ensures ValidatePortRule(isIP, d, PlainRule(id, port, true)) == Pass
  {
    PlainTexts();
  }

  lemma PlainIdsAssignable(d: Data)
    requires ActivePorts(d) != [] && ActiveRooms(d) == [] && forall r | r in ActivePorts(d) :: r.nodeId == DEFAULT_NODE_ID
    ensures AdminPorts.Assignable(7400, RenderedIds(d))
  {
    SameProcessIds(d, d, ActivePorts(d), ActiveRooms(d));
    forall id | id in RenderedIds(d) ensures id == DEFAULT_NODE_ID {
      assert id !in RoomIds(ActiveRooms(d));
    }
    assert AdminPorts.OtherIds(RenderedIds(d)) == {};
    AdminPorts.AssignSucceeds(7400, RenderedIds(d));
    AdminPorts.AssignSucceedsIff(7400, RenderedIds(d));
  }

  lemma NoRoomsActive(d: Data)
    requires d.roomRules == map[]
    ensures ActiveRooms(d) == []
  {
    var keys := SortedKeys(d.roomRules);
    assert |multiset(keys)| == |keys| && multiset(keys) == multiset(d.roomRules.Keys);
    assert ValuesAt(d.roomRules, keys) == [];
  }

  /** One valid enabled rule on the one node renders. */
  lemma PlainRenders(isIP: string -> bool, id: string, port: int)
    requires id != "" && UserRemotePort(port)
    ensures Renders(isIP, PlainStore(map[id := PlainRule(id, port, true)]))
  {
    var d := PlainStore(map[id := PlainRule(id, port, true)]);
    PlainStoreConsistent(d.portRules);
    PlainRuleValid(isIP, d, id, port);
    ActivePortsFacts(d);
    assert d.portRules[id].enabled;
    EnabledIsActive(d);
    NoRoomsActive(d);
    PlainIdsAssignable(d);
    RenderSucceedsIff(isIP, d);
  }

  // ---------- a lost update ----------

  lemma PlainCreate(isIP: string -> bool, id: string, port: int)
    requires id != "" && UserRemotePort(port)
    ensures Prepare(isIP, PlainStore(map[]), CreatePort(id, PlainInput(port)), 0)
         == Ok(Replace(PlainStore(map[id := PlainRule(id, port, true)])))
  {
    PlainTexts();
    PlainRuleValid(isIP, PlainStore(map[]), id, port);
    assert map[][id := PlainRule(id, port, true)] == map[id := PlainRule(id, port, true)];
  }

  lemma PlainCommits(isIP: string -> bool, id: string, port: int)
    requires id != "" && UserRemotePort(port)
    ensures MayCommit(RendersIn(isIP), Replace(PlainStore(map[id := PlainRule(id, port, true)])))
  {
    PlainRenders(isIP, id, port);
    assert Normalized(PlainStore(map[id := PlainRule(id, port, true)])) == PlainStore(map[id := PlainRule(id, port, true)]);
  }

  /** For any two ids and ports: two requests create a rule each in a store without rules. Both are planned
      before either commits; both new states render; both commits succeed; and only the second rule is stored. */
  lemma LostUpdateHappens(isIP: string -> bool, a: string, portA: int, b: string, portB: int)
    requires a != b && a != "" && b != "" && UserRemotePort(portA) && UserRemotePort(portB)
    ensures Consistent(PlainStore(map[])) && AllValid(isIP, PlainStore(map[]))
    ensures var s := Run(isIP, RendersIn(isIP), System(PlainStore(map[]), map[]),
                         [Begin(1, CreatePort(a, PlainInput(portA)), 0), Begin(2, CreatePort(b, PlainInput(portB)), 0),
                          Commit(1), Commit(2)]);
            b in s.store.portRules && a !in s.store.portRules
  {
    PlainStoreConsistent(map[]);
    PlainCreate(isIP, a, portA);
    PlainCreate(isIP, b, portB);
    PlainCommits(isIP, a, portA);
    PlainCommits(isIP, b, portB);
    OverlappingCreatesLoseOne(isIP, RendersIn(isIP), PlainStore(map[]), a, b, PlainInput(portA), PlainInput(portB), 0);
  }

  // ---------- an invalid enabled rule ----------

  const NARROW: seq<PortRange> := [PortRange(3000, 3001)]

  function NarrowInput(): NodeInput {
    NodeInput(DEFAULT_NODE_ID, "n", "s", 7000, "token", "", "", "https", 0, NARROW)
  }

  lemma NarrowTexts()
    ensures TrimSpace("https") == "https" && Lower("https") == "https" && WebDomain.NormalizeDomain("") == ""
    ensures HostOnly("s") && PortRanges.NormalizeRanges(NARROW) == NARROW
  {
    assert NARROW[1..] == [];
    assert Sort(NARROW[1..], PortRanges.RangeLe) == [];
  }

  lemma NarrowNode(now: int)
    ensures UpdateNode(DEFAULT_NODE_ID, NarrowInput(), KeepToken, PlainNode([]), now) == Ok(PlainNode(NARROW).(updatedAt := now))
  {
    PlainTexts();
    NarrowTexts();
  }

  function Disabled(id: string, port: int): Data {
    PlainStore(map[id := PlainRule(id, port, false)])
  }

  lemma NarrowPlan(isIP: string -> bool, id: string, port: int)
    ensures Prepare(isIP, Disabled(id, port), ChangeNode(DEFAULT_NODE_ID, NarrowInput(), KeepToken), 0)
         == Ok(SetNode(DEFAULT_NODE_ID, PlainNode(NARROW)))
  {
    PlainTexts();
    NarrowNode(0);
    NodeUnused(Disabled(id, port));
  }

  lemma NodeUnused(d: Data)
    requires forall k | k in d.portRules :: !d.portRules[k].enabled
    ensures !EnabledRuleUsesNode(d, DEFAULT_NODE_ID)
  {
  }

  lemma EnablePlan(isIP: string -> bool, id: string, port: int)
    requires id != "" && UserRemotePort(port)
    ensures Prepare(isIP, Disabled(id, port), PatchPort(id, Some(true)), 0)
         == Ok(Replace(PlainStore(map[id := PlainRule(id, port, true)])))
  {
    var next := PlainStore(map[id := PlainRule(id, port, true)]);
    assert Disabled(id, port).portRules[id := PlainRule(id, port, true)] == next.portRules;
    PlainRuleValid(isIP, next, id, port);
  }

  lemma DisabledGood(isIP: string -> bool, id: string, port: int)
    ensures Consistent(Disabled(id, port)) && AllValid(isIP, Disabled(id, port))
  {
    PlainStoreConsistent(Disabled(id, port).portRules);
  }

  lemma NarrowRefuses(port: int)
    requires port < 3000
    ensures !PortRanges.RemotePortAllowed(port, NARROW)
  {
  }

  /** For every rule on a port below 3000: one request enables it while another narrows the ports of its node to
      3000 and 3001. Both are planned while the rule is disabled; the enabled rule renders; and the narrowed
      node, set in place, leaves it stored, enabled and invalid. */
  lemma InvalidRuleHappens(isIP: string -> bool, id: string, port: int)
    requires id != "" && 1024 <= port < 3000
    ensures Consistent(Disabled(id, port)) && AllValid(isIP, Disabled(id, port))
    ensures var s := Run(isIP, RendersIn(isIP), System(Disabled(id, port), map[]),
                         [Begin(1, PatchPort(id, Some(true)), 0),
                          Begin(2, ChangeNode(DEFAULT_NODE_ID, NarrowInput(), KeepToken), 0), Commit(1), Commit(2)]);
            && id in s.store.portRules && s.store.portRules[id].enabled
            && ValidatePortRule(isIP, s.store, s.store.portRules[id]).Fail?
  {
    DisabledGood(isIP, id, port);
    NarrowPlan(isIP, id, port);
    EnablePlan(isIP, id, port);
    PlainCommits(isIP, id, port);
    NarrowRefuses(port);
    OverlappingNodeChangeEscapesValidation(isIP, RendersIn(isIP), Disabled(id, port), DEFAULT_NODE_ID, NarrowInput(), KeepToken, id, 0);
  }

  // ---------- a rule that is rendered nowhere ----------

  /** A node named like the process of the room rule "x". */
  const NAMED: string := "room-x"

  function NamedRule(id: string, port: int): PortRule {
    PlainRule(id, port, true).(nodeId := NAMED)
  }

  function HostRoom(): RoomRule {
    RoomRule("x", "r", "n", "host", "xtcp", "", "v", "s", 7000, "d", "t", "k", "localhost", 80, "", 0, true, 0, 0)
  }

  function NamedStore(id: string, port: int): Data {
    Data(false, FRPC, map[NAMED := PlainNode([]).(id := NAMED)], map[id := NamedRule(id, port)], map["x" := HostRoom()])
  }

  lemma NamedTexts()
    ensures RoomProcessId("x") == NAMED && IdPattern(NAMED, 2)
    ensures TunnelProtocol("xtcp") == "xtcp" && TrimSpace("v") == "v" && TrimSpace("d") == "d" && TrimSpace("k") == "k"
    ensures HostOnly("s")
  {
    assert SafeFilePart("x") == "x";
    assert TrimSpace("xtcp") == "xtcp" && Lower("xtcp") == "xtcp";
  }

  lemma NamedRuleValid(isIP: string -> bool, id: string, port: int)
    requires id != "" && UserRemotePort(port)
    ensures ValidatePortRule(isIP, NamedStore(id, port), NamedRule(id, port)) == Pass
  {
    PlainTexts();
  }

  lemma HostRoomValid(isIP: string -> bool, d: Data)
    ensures ValidateRoomRule(isIP, d, HostRoom()) == Pass
  {
    PlainTexts();
    NamedTexts();
  }

  lemma NamedStoreConsistent(id: string, port: int)
    ensures Consistent(NamedStore(id, port)) && Normalized(NamedStore(id, port)) == NamedStore(id, port)
  {
    NamedTexts();
  }

  lemma NamedActive(id: string, port: int)
    ensures var d := NamedStore(id, port);
            && (forall r :: r in ActivePorts(d) <==> r == NamedRule(id, port))
            && (forall q :: q in ActiveRooms(d) <==> q == HostRoom())
  {
    NamedStoreConsistent(id, port);
    ActivePortsFacts(NamedStore(id, port));
    ActiveRoomsFacts(NamedStore(id, port));
  }

  lemma NamedIds(id: string, port: int)
    ensures AdminPorts.Assignable(7400, RenderedIds(NamedStore(id, port)))
  {
    var d := NamedStore(id, port);
    var rules, rooms := ActivePorts(d), ActiveRooms(d);
    NamedActive(id, port);
    NamedTexts();
    assert NamedRule(id, port) in rules;
    SameProcessIds(d, d, rules, rooms);
    forall i | i in RenderedIds(d) ensures i == NAMED {
      if i in RoomIds(rooms) {
        var j :| 0 <= j < |rooms| && RoomIds(rooms)[j] == i;
        assert rooms[j] in rooms;
      }
    }
    assert AdminPorts.OtherIds(RenderedIds(d)) <= {NAMED};
    AdminPorts.Subset(AdminPorts.OtherIds(RenderedIds(d)), {NAMED});
    AdminPorts.AssignSucceeds(7400, RenderedIds(d));
    AdminPorts.AssignSucceedsIff(7400, RenderedIds(d));
  }

  lemma NamedRenders(isIP: string -> bool, id: string, port: int)
    requires id != "" && UserRemotePort(port)
    ensures Render(isIP, NamedStore(id, port)).Ok?
  {
    NamedStoreConsistent(id, port);
    NamedActive(id, port);
    NamedRuleValid(isIP, id, port);
    HostRoomValid(isIP, NamedStore(id, port));
    NamedIds(id, port);
    assert NamedRule(id, port) in ActivePorts(NamedStore(id, port));
    RenderSucceedsIff(isIP, NamedStore(id, port));
  }

  /** For any rule id and port: a consistent store that renders, and whose one enabled port rule is in none of the
      configurations. */
  lemma LostRuleHappens(isIP: string -> bool, id: string, port: int)
    requires id != "" && UserRemotePort(port)
    ensures Consistent(NamedStore(id, port)) && NamedRule(id, port) in ActivePorts(NamedStore(id, port))
    ensures Render(isIP, NamedStore(id, port)).Ok?
    ensures ProxyOf(NamedRule(id, port)) !in AllProxies(Render(isIP, NamedStore(id, port)).value)
  {
    var d := NamedStore(id, port);
    NamedStoreConsistent(id, port);
    NamedActive(id, port);
    NamedTexts();
    NamedRenders(isIP, id, port);
    ActivePortsFacts(d);
    RenderIsFlat(isIP, d);
    ClashLosesRule(ActivePorts(d), ActiveRooms(d), RenderedIds(d), NamedRule(id, port), HostRoom());
  }
}
