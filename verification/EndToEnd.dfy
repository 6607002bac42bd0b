/** From the rule to the file: after a successful applyData every enabled rule can be read back from the
    configuration file of its node or room. */
module EndToEnd {
  import opened Wrappers
  import opened Order
  import opened Lists
  import opened Rules
  import opened DirectRender
  import opened DirectPartition
  import opened DirectApart
  import opened Transaction
  import opened Rendering
  import opened Agreement
  import opened Served
  import opened FrpConfigDecode
  import opened FrpConfigToml
  import opened FrpConfigLines
  import opened Quoting
  import FrpConfig
  import AdminPorts
  import PM = ProcessManager

  lemma RoomKeysAreBare(r: RoomRule)
    ensures BareKeys(RoomMetas(r))
  {
    assert Bare("room_id") && Bare("room_device_id") && Bare("room_device_token") && Bare("room_role") && Bare("room_rule_id");
  }

  lemma RoomClientRenderable(d: Data, r: RoomRule, port: int)
    ensures Renderable(RoomClient(d, r, port))
  {
    RoomKeysAreBare(r);
  }

  lemma NodeProxiesPlain(rules: seq<PortRule>, id: string)
    ensures forall p | p in NodeProxies(rules, id) :: p.metadatas == map[]
  {
  }

  lemma NodeClientRenderable(d: Data, id: string, rules: seq<PortRule>, port: int)
    requires id in d.nodes
    ensures Renderable(NodeClient(d, id, rules, port))
  {
    NodeProxiesPlain(rules, id);
  }

  /** A reader of TOML needs strings that TOML can write. */
  predicate ReadableIn(syntax: Syntax, cfg: FrpConfig.ClientConfig) {
    syntax.TomlSyntax? ==> ConfigWritable(cfg)
  }

  lemma DecodeReadable(syntax: Syntax, cfg: FrpConfig.ClientConfig)
    requires Renderable(cfg) && ReadableIn(syntax, cfg)
    ensures Decode(syntax, FrpConfig.Render(cfg)) == Some(Normalize(cfg))
  {
    match syntax
    case GoSyntax => DecodeRender(cfg);
    case TomlSyntax => ConfigIsTomlIff(cfg);
  }

  /** Every configuration of direct mode can be decoded from its text. */
  lemma ConfiguredText(syntax: Syntax, d: Data, rules: seq<PortRule>, rooms: seq<RoomRule>, id: string, port: int)
    requires Configure(d, rules, rooms, id, port).Ok? && ReadableIn(syntax, Configure(d, rules, rooms, id, port).value.client)
    ensures var c := Configure(d, rules, rooms, id, port).value; Decode(syntax, Runtime(c).raw) == Some(Normalize(c.client))
  {
    match RoomFor(rooms, id)
    case Some(room) =>
      RoomClientRenderable(d, room, port);
      DecodeReadable(syntax, RoomClient(d, room, port));
    case None =>
      NodeClientRenderable(d, id, rules, port);
      DecodeReadable(syntax, NodeClient(d, id, rules, port));
  }

  /** What a file with the text of a configuration says. */
  lemma TextInFile(syntax: Syntax, files: map<string, string>, configs: seq<Rendered>, i: nat, d: Data, rules: seq<PortRule>,
                   rooms: seq<RoomRule>, id: string, port: int)
    requires i < |configs| && Texts(files, Each(Runtime, configs)) && Configure(d, rules, rooms, id, port) == Ok(configs[i])
    requires ReadableIn(syntax, configs[i].client)
    ensures ConfigPath(d.frpc, id) in files && Decode(syntax, files[ConfigPath(d.frpc, id)]) == Some(Normalize(configs[i].client))
  {
    ConfiguredText(syntax, d, rules, rooms, id, port);
    ConfigureContents(d, rules, rooms, id, port);
    assert Each(Runtime, configs)[i] in Each(Runtime, configs);
  }

  lemma ProcessIdListed(d: Data, rules: seq<PortRule>, rooms: seq<RoomRule>, id: string)
    requires id in NodeIds(rules) || id in RoomIds(rooms)
    ensures id in ProcessIds(d, rules, rooms)
  {
    var ids := SortedSet(NodeIds(rules)) + RoomIds(rooms);
    SortedSetFacts(NodeIds(rules));
    assert id in ids;
    SortMembers(ids, DefaultFirst);
  }

  /** The files hold the rendering of the data. */
  ghost predicate FilesHold(isIP: string -> bool, d: Data, files: map<string, string>) {
    Normalized(d) == d && Render(isIP, d).Ok? && Texts(files, Each(Runtime, Render(isIP, d).value))
  }

  /** Every configuration of the rendering can be read. */
  ghost predicate AllReadable(syntax: Syntax, isIP: string -> bool, d: Data) {
    Render(isIP, d).Ok? ==> forall i | 0 <= i < |Render(isIP, d).value| :: ReadableIn(syntax, Render(isIP, d).value[i].client)
  }

  /** The admin port that the rendering gives to a process id. */
  ghost function AdminPortOf(d: Data, id: string): int {
    var r := AdminPorts.Assign(AdminPorts.BaseOf(d.frpc.adminPort), RenderedIds(d));
    if r.Assigned? && id in r.ports then r.ports[id] else 0
  }

  lemma RenderedAt(isIP: string -> bool, d: Data, id: string) returns (i: nat)
    requires Normalized(d) == d && Render(isIP, d).Ok?
    requires id in NodeIds(ActivePorts(d)) || id in RoomIds(ActiveRooms(d))
    ensures i < |Render(isIP, d).value|
    ensures Configure(d, ActivePorts(d), ActiveRooms(d), id, AdminPortOf(d, id)) == Ok(Render(isIP, d).value[i])
  {
    RenderShape(isIP, d);
    var ids := RenderedIds(d);
    var ports := AdminPorts.Assign(AdminPorts.BaseOf(d.frpc.adminPort), ids).ports;
    ProcessIdListed(d, ActivePorts(d), ActiveRooms(d), id);
    var k :| 0 <= k < |ids| && ids[k] == id;
    ConfiguredAt(d, ActivePorts(d), ActiveRooms(d), ids, ports, k);
    i := k;
  }

  /** It is a valid port. */
  lemma AdminPortValid(isIP: string -> bool, d: Data, id: string)
    requires Normalized(d) == d && Render(isIP, d).Ok?
    requires id in NodeIds(ActivePorts(d)) || id in RoomIds(ActiveRooms(d))
    ensures 1 <= AdminPortOf(d, id) <= 65535
  {
    RenderShape(isIP, d);
    ProcessIdListed(d, ActivePorts(d), ActiveRooms(d), id);
    AdminPorts.AssignedApart(AdminPorts.BaseOf(d.frpc.adminPort), RenderedIds(d));
  }

  /** The file of one process id. */
  lemma FileOf(syntax: Syntax, isIP: string -> bool, d: Data, files: map<string, string>, id: string) returns (c: Rendered)
    requires FilesHold(isIP, d, files) && AllReadable(syntax, isIP, d)
    requires id in NodeIds(ActivePorts(d)) || id in RoomIds(ActiveRooms(d))
    ensures Configure(d, ActivePorts(d), ActiveRooms(d), id, AdminPortOf(d, id)) == Ok(c)
    ensures ConfigPath(d.frpc, id) in files && Decode(syntax, files[ConfigPath(d.frpc, id)]) == Some(Normalize(c.client))
  {
    var i := RenderedAt(isIP, d, id);
    c := Render(isIP, d).value[i];
    TextInFile(syntax, files, Render(isIP, d).value, i, d, ActivePorts(d), ActiveRooms(d), id, AdminPortOf(d, id));
  }

  /** Decoded, the file of the rule's node connects to the node and holds one proxy for each enabled rule of the node,
      with all that the rule says, and no more. */
  ghost predicate Serves(syntax: Syntax, d: Data, files: map<string, string>, r: PortRule) {
    var path := FilePath(d.frpc.workDir, r.nodeId);
    && path in files && Decode(syntax, files[path]).Some?
    && SpeaksForNode(d, Decode(syntax, files[path]).value, r.nodeId, AdminPortOf(d, r.nodeId))
  }

  /** Decoded, the file of the room's process connects to the room's server and holds the room's proxy or visitor, with
      all that the rule says, and no more. */
  ghost predicate ServesRoom(syntax: Syntax, d: Data, files: map<string, string>, q: RoomRule) {
    var path := FilePath(d.frpc.workDir, "room-" + q.id);
    && path in files && Decode(syntax, files[path]).Some?
    && SpeaksForRoom(d, Decode(syntax, files[path]).value, q, AdminPortOf(d, "room-" + q.id))
  }

  /** What rendering has checked. */
  lemma RenderedRulesValid(isIP: string -> bool, d: Data)
    requires Normalized(d) == d && Render(isIP, d).Ok?
    ensures forall r | r in ActivePorts(d) :: ValidatePortRule(isIP, d, r) == Pass
    ensures forall q | q in ActiveRooms(d) :: ValidateRoomRule(isIP, d, q) == Pass
  {
    ChecksMean(isIP, d, ActivePorts(d), ActiveRooms(d));
  }

  lemma NormalizedFilled(d: Data)
    requires Normalized(d) == d
    ensures Filled(d.frpc)
  {
    assert d.frpc == Normalized(d).frpc;
  }

  lemma NodeIdSafe(d: Data, id: string)
    requires NodesKeyed(d.nodes) && id in d.nodes
    ensures SafeId(id)
  {
  }

  lemma ConfigureNode(d: Data, rules: seq<PortRule>, rooms: seq<RoomRule>, r: PortRule, port: int, c: Rendered)
    requires NoClash(rules, rooms) && r in rules && Configure(d, rules, rooms, r.nodeId, port) == Ok(c)
    ensures r.nodeId in d.nodes && c.client == NodeClient(d, r.nodeId, rules, port)
  {
    NodeHasNoRoom(rules, rooms, r.nodeId);
  }

  lemma RuleInFiles(syntax: Syntax, isIP: string -> bool, d: Data, files: map<string, string>, r: PortRule)
    requires FilesHold(isIP, d, files) && AllReadable(syntax, isIP, d) && Consistent(d)
    requires NoClash(ActivePorts(d), ActiveRooms(d)) && r in ActivePorts(d)
    ensures Serves(syntax, d, files, r)
  {
    assert r.nodeId in NodeIds(ActivePorts(d));
    var c := FileOf(syntax, isIP, d, files, r.nodeId);
    ConfigureNode(d, ActivePorts(d), ActiveRooms(d), r, AdminPortOf(d, r.nodeId), c);
    AdminPortValid(isIP, d, r.nodeId);
    RenderedRulesValid(isIP, d);
    NormalizedFilled(d);
    NodeClientSpeaks(isIP, d, r.nodeId, AdminPortOf(d, r.nodeId));
    NodeIdSafe(d, r.nodeId);
    ConfigPathIs(d.frpc, r.nodeId);
  }

  lemma ConfigureRoom(d: Data, rules: seq<PortRule>, rooms: seq<RoomRule>, q: RoomRule, port: int, c: Rendered)
    requires DistinctProcesses(rooms) && q in rooms && Configure(d, rules, rooms, RoomProcessId(q.id), port) == Ok(c)
    ensures c.client == RoomClient(d, q, port)
  {
    var i :| 0 <= i < |rooms| && rooms[i] == q;
    RoomForFinds(rooms, i);
  }

  lemma RoomIdListed(rooms: seq<RoomRule>, q: RoomRule)
    requires q in rooms
    ensures RoomProcessId(q.id) in RoomIds(rooms)
  {
    var i :| 0 <= i < |rooms| && rooms[i] == q;
    assert RoomIds(rooms)[i] == RoomProcessId(q.id);
  }

  lemma RoomInFiles(syntax: Syntax, isIP: string -> bool, d: Data, files: map<string, string>, q: RoomRule)
    requires FilesHold(isIP, d, files) && AllReadable(syntax, isIP, d)
    requires DistinctProcesses(ActiveRooms(d)) && q in ActiveRooms(d) && SafeId(q.id)
    ensures ServesRoom(syntax, d, files, q)
  {
    var id := RoomProcessId(q.id);
    SafeIdIsKey(q.id);
    RoomProcessIdFacts(q.id, q.id);
    RoomIdListed(ActiveRooms(d), q);
    var c := FileOf(syntax, isIP, d, files, id);
    ConfigureRoom(d, ActivePorts(d), ActiveRooms(d), q, AdminPortOf(d, id), c);
    AdminPortValid(isIP, d, id);
    RenderedRulesValid(isIP, d);
    NormalizedFilled(d);
    RoomClientSpeaks(isIP, d, q, AdminPortOf(d, id));
    ConfigPathIs(d.frpc, id);
  }

  /** Every enabled rule of the store is served. */
  ghost predicate AllServed(syntax: Syntax, d: Data, files: map<string, string>) {
    && (forall k | k in d.portRules && d.portRules[k].enabled :: Serves(syntax, d, files, d.portRules[k]))
    && (forall k | k in d.roomRules && d.roomRules[k].enabled :: ServesRoom(syntax, d, files, d.roomRules[k]))
  }

  lemma CommittedFilesHold(env: Env, w: World, oldData: Data, data: Data, fate: Fate)
    requires Consistent(Normalized(data)) && UsesDirectMode(Normalized(data))
    requires ApplyData(RendererOf(env), w, oldData, data, fate).result.Ok?
    ensures FilesHold(env.isIP, Normalized(data), ApplyData(RendererOf(env), w, oldData, data, fate).world.files)
  {
    var d := Normalized(data);
    var next := RendererOf(env)(d).value;
    RenderedMergeable(env, d);
    AcceptedCases(RendererOf(env), w, oldData, data, fate, next, PM.Applied(w.procs, d.frpc.path, next, fate.apply));
    WriteAllEffect(w.files, next);
  }

  /** After a successful applyData in direct mode every enabled port rule is served by the file of its node,
      and every enabled room rule by the file of its process. Read as TOML, this holds if the strings of the
      configurations are ones that TOML can write. */
  lemma EnabledRulesAreServed(syntax: Syntax, env: Env, w: World, oldData: Data, data: Data, fate: Fate)
    requires WellNamed(Normalized(data)) && UsesDirectMode(Normalized(data)) && AllReadable(syntax, env.isIP, Normalized(data))
    requires ApplyData(RendererOf(env), w, oldData, data, fate).result.Ok?
    ensures var d := Normalized(data);
            var files := ApplyData(RendererOf(env), w, oldData, data, fate).world.files;
            AllServed(syntax, d, files)
  {
    CommittedFilesHold(env, w, oldData, data, fate);
    var d := Normalized(data);
    var files := ApplyData(RendererOf(env), w, oldData, data, fate).world.files;
    FilesServe(syntax, env.isIP, d, files);
  }

  lemma FilesServe(syntax: Syntax, isIP: string -> bool, d: Data, files: map<string, string>)
    requires FilesHold(isIP, d, files) && WellNamed(d) && AllReadable(syntax, isIP, d)
    ensures AllServed(syntax, d, files)
  {
    ActivePortsFacts(d);
    ActiveRoomsFacts(d);
    RoomProcessesDiffer(ActiveRooms(d));
    forall k | k in d.portRules && d.portRules[k].enabled ensures Serves(syntax, d, files, d.portRules[k]) {
      assert d.portRules[k].id == k;
      RuleInFiles(syntax, isIP, d, files, d.portRules[k]);
    }
    forall k | k in d.roomRules && d.roomRules[k].enabled ensures ServesRoom(syntax, d, files, d.roomRules[k]) {
      assert d.roomRules[k].id == k;
      RoomInFiles(syntax, isIP, d, files, d.roomRules[k]);
    }
  }

  lemma AgreementServes(syntax: Syntax, env: Env, w: World)
    requires Agree(RendererOf(env), w) && WellNamed(w.store) && Normalized(w.store) == w.store && AllReadable(syntax, env.isIP, w.store)
    ensures AllServed(syntax, w.store, w.files)
  {
    if SomeEnabled(w.store) {
      EnabledIsActive(w.store);
      InStepFilesHold(env, w);
      FilesServe(syntax, env.isIP, w.store, w.files);
    }
  }

  lemma InStepFilesHold(env: Env, w: World)
    requires InStep(w, RenderClient(env, w.store)) && UsesDirectMode(w.store) && Normalized(w.store) == w.store
    ensures FilesHold(env.isIP, w.store, w.files)
  {
  }

  /** Once an apply has succeeded, after every sequential run that ends with no active node named like an active
      room's process, and with strings the reader knows, each enabled rule of the store is served by the file of
      its node or process. */
  lemma RunsServe(syntax: Syntax, env: Env, start: World, fate: Fate, events: seq<Event>)
    requires Consistent(start.store) && Normalized(start.store) == start.store && PM.Coherent(start.procs)
    requires ApplyData(RendererOf(env), start, start.store, start.store, fate).result.Ok?
    requires Orderly(env.isIP, RendererOf(env), ApplyData(RendererOf(env), start, start.store, start.store, fate).world, events)
    ensures var end := Run(env.isIP, RendererOf(env), ApplyData(RendererOf(env), start, start.store, start.store, fate).world, events);
            WellNamed(end.store) && AllReadable(syntax, env.isIP, end.store) ==>
              AllServed(syntax, end.store, end.files)
  {
    RunsAgree(env, start, fate, events);
    RunServes(syntax, env, Run(env.isIP, RendererOf(env), ApplyData(RendererOf(env), start, start.store, start.store, fate).world, events));
  }

  lemma RunServes(syntax: Syntax, env: Env, w: World)
    requires Agree(RendererOf(env), w) && Normalized(w.store) == w.store
    ensures WellNamed(w.store) && AllReadable(syntax, env.isIP, w.store) ==>
              AllServed(syntax, w.store, w.files)
  {
    if WellNamed(w.store) && AllReadable(syntax, env.isIP, w.store) {
      AgreementServes(syntax, env, w);
    }
  }
}
