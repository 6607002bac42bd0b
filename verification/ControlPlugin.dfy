/** The decisions of the frps plugin (internal/control/plugin.go) and what the server's invariant makes of
    them. Decoding the JSON request is not part of the model. */
module ControlPlugin {
  import opened Wrappers
  import opened Text
  import opened Validate
  import opened ControlModel
  import opened ControlInvariant
  import opened ControlSteps
  import opened ControlAuth
  import opened ControlOwners

  /** A decoded request, with both spellings of each field. */
  datatype Content = Content(
    userMetas: map<string, string>, proxyName: string, proxyNameAlt: string, proxyType: string, proxyTypeAlt: string,
    remotePort: int, remotePortAlt: int, customDomains: seq<string>, customDomainsAlt: seq<string>,
    metas: map<string, string>, metadatas: map<string, string>)

  /** The main spelling of a field wins over the other. */
  function Spelled(c: Content): Content {
    c.(proxyName := if c.proxyName == "" then c.proxyNameAlt else c.proxyName,
       proxyType := if c.proxyType == "" then c.proxyTypeAlt else c.proxyType,
       remotePort := if c.remotePort == 0 then c.remotePortAlt else c.remotePort,
       customDomains := if |c.customDomains| == 0 then c.customDomainsAlt else c.customDomains,
       metadatas := if |c.metadatas| == 0 then c.metas else c.metadatas)
  }

  /** What normalize leaves: the proxy's metadata wins over the user's, key by key. */
  function NormalContent(c: Content): Content {
    var spelled := Spelled(c);
    spelled.(metadatas := c.userMetas + spelled.metadatas)
  }

  class PluginContent {
    var userMetas: map<string, string>
    var proxyName: string
    var proxyNameAlt: string
    var proxyType: string
    var proxyTypeAlt: string
    var remotePort: int
    var remotePortAlt: int
    var customDomains: seq<string>
    var customDomainsAlt: seq<string>
    var metas: map<string, string>
    var metadatas: map<string, string>

    function View(): Content
      reads this
    {
      Content(userMetas, proxyName, proxyNameAlt, proxyType, proxyTypeAlt, remotePort, remotePortAlt, customDomains,
              customDomainsAlt, metas, metadatas)
    }

    constructor (c: Content)
      ensures View() == c
    {
      userMetas, proxyName, proxyNameAlt, proxyType, proxyTypeAlt := c.userMetas, c.proxyName, c.proxyNameAlt, c.proxyType, c.proxyTypeAlt;
      remotePort, remotePortAlt, customDomains, customDomainsAlt := c.remotePort, c.remotePortAlt, c.customDomains, c.customDomainsAlt;
      metas, metadatas := c.metas, c.metadatas;
    }

    /** Fills in the keys of the user's metadata that the proxy's does not have. */
    method FillMetadatas()
      modifies this`metadatas
      ensures metadatas == userMetas + old(metadatas)
    {
      var left := userMetas.Keys;
      while left != {}
        invariant left <= userMetas.Keys
        invariant forall k :: k in metadatas <==> k in old(metadatas) || (k in userMetas && k !in left)
        invariant forall k | k in metadatas :: metadatas[k] == if k in old(metadatas) then old(metadatas)[k] else userMetas[k]
        decreases left
      {
        var k :| k in left;
        if k !in metadatas {
          metadatas := metadatas[k := userMetas[k]];
        }
        left := left - {k};
      }
    }

    method Spell()
      modifies this
      ensures View() == Spelled(old(View()))
    {
      if proxyName == "" {
        proxyName := proxyNameAlt;
      }
      if proxyType == "" {
        proxyType := proxyTypeAlt;
      }
      if remotePort == 0 {
        remotePort := remotePortAlt;
      }
      if |customDomains| == 0 {
        customDomains := customDomainsAlt;
      }
      if |metadatas| == 0 {
        metadatas := metas;
      }
    }

    method Normalize()
      modifies this
      ensures View() == NormalContent(old(View()))
    {
      Spell();
      FillMetadatas();
    }
  }

  /** Field by field: the main spelling counts unless it is empty. For metadata too, and then each key of the proxy's
      own counts before the user's. */
  lemma NormalContentMeans(c: Content, key: string)
    ensures var n := NormalContent(c);
            var own := if c.metadatas == map[] then c.metas else c.metadatas;
            && (c.proxyName != "" ==> n.proxyName == c.proxyName) && (c.proxyName == "" ==> n.proxyName == c.proxyNameAlt)
            && (c.proxyType != "" ==> n.proxyType == c.proxyType) && (c.proxyType == "" ==> n.proxyType == c.proxyTypeAlt)
            && (c.remotePort != 0 ==> n.remotePort == c.remotePort) && (c.remotePort == 0 ==> n.remotePort == c.remotePortAlt)
            && (c.customDomains != [] ==> n.customDomains == c.customDomains)
            && (c.customDomains == [] ==> n.customDomains == c.customDomainsAlt)
            && Meta(n, key) == if key in own then own[key] else if key in c.userMetas then c.userMetas[key] else ""
  {
    assert |c.metadatas| == 0 <==> c.metadatas == map[];
  }

  // ---------- decisions ----------

  function Meta(c: Content, key: string): string {
    if key in c.metadatas then c.metadatas[key] else ""
  }

  predicate ForRoom(c: Content) { Meta(c, "room_id") != "" }

  function RoomAuthOf(c: Content): RoomAuth {
    RoomAuth(Meta(c, "room_id"), Meta(c, "room_device_id"), Meta(c, "room_device_token"))
  }

  /** pluginLogin for a device of a group. */
  predicate DeviceMayLogIn(env: Env, d: Data, c: Content) {
    var groupId, deviceId, token := Meta(c, "group_id"), Meta(c, "device_id"), Meta(c, "device_token");
    && groupId != "" && deviceId != "" && token != ""
    && deviceId in d.devices && d.devices[deviceId].groupId == groupId && TokenFits(env, token, d.devices[deviceId].tokenHash)
  }

  predicate HasDomain(domains: seq<string>, want: string) {
    exists i | 0 <= i < |domains| :: EqualFold(domains[i], want)
  }

  /** pluginNewProxy for an exposure. */
  predicate ExposureMayOpen(d: Data, c: Content) {
    var exposureId, groupId, deviceId := Meta(c, "exposure_id"), Meta(c, "group_id"), Meta(c, "device_id");
    && exposureId != "" && groupId != "" && deviceId != ""
    && exposureId in d.exposures
    && var e := d.exposures[exposureId];
       && e.enabled && e.groupId == groupId && e.deviceId == deviceId
       && (e.mode == "public" ==>
            && e.protocol == c.proxyType
            && (e.remotePort != 0 ==> e.remotePort == c.remotePort)
            && (e.domain != "" ==> HasDomain(c.customDomains, e.domain)))
  }

  /** pluginNewUserConn for an exposure, or for a proxy that belongs to none. */
  predicate ExposureMayConnect(d: Data, c: Content) {
    var exposureId := Meta(c, "exposure_id");
    exposureId == "" || (exposureId in d.exposures && d.exposures[exposureId].enabled)
  }

  /** The second half of pluginRoomNewProxy, on a later snapshot. */
  predicate RoomMayOpen(d: Data, c: Content) {
    var roomId := RoomAuthOf(c).roomId;
    && roomId in d.rooms && d.rooms[roomId].enabled && d.rooms[roomId].serverName == c.proxyName
    && c.proxyType in {"xtcp", "stcp"}
  }

  /** pluginLogin */
  function LoginDecision(env: Env, d: Data, c: Content, now: int): Reply<()> {
    if ForRoom(c) then CheckRoomDevice(env, d, RoomAuthOf(c), "", now)
    else Reply(d, if DeviceMayLogIn(env, d, c) then Ok(()) else Err(Unauthorized))
  }

  /** pluginNewProxy: for a room only the authentication; RoomMayOpen decides the rest on a later snapshot. */
  function NewProxyDecision(env: Env, d: Data, c: Content, now: int): Reply<()> {
    if ForRoom(c) then CheckRoomDevice(env, d, RoomAuthOf(c), "host", now)
    else Reply(d, if ExposureMayOpen(d, c) then Ok(()) else Err(Unauthorized))
  }

  /** pluginNewUserConn */
  function NewUserConnDecision(env: Env, d: Data, c: Content, now: int): Reply<()> {
    if ForRoom(c) then CheckRoomDevice(env, d, RoomAuthOf(c), "", now)
    else Reply(d, if ExposureMayConnect(d, c) then Ok(()) else Err(Unauthorized))
  }

  // ---------- what is decided ----------

  /** What Login, NewProxy and NewUserConn accept for a room: a device of the room with its own token; for a new proxy,
      the host. */
  lemma RoomDecisionsIff(env: Env, d: Data, c: Content, now: int)
    requires ForRoom(c)
    ensures var auth := RoomAuth(Meta(c, "room_id"), Meta(c, "room_device_id"), Meta(c, "room_device_token"));
            && (LoginDecision(env, d, c, now).result.Ok? <==> KnowsRoomDevice(env, d, auth, ""))
            && (NewUserConnDecision(env, d, c, now).result.Ok? <==> KnowsRoomDevice(env, d, auth, ""))
            && (NewProxyDecision(env, d, c, now).result.Ok? <==> KnowsRoomDevice(env, d, auth, "host"))
  {
    RoomAuthIff(env, d, RoomAuthOf(c), "", now);
    RoomAuthIff(env, d, RoomAuthOf(c), "host", now);
  }

  /** Login accepts a device of a group exactly when the server knows it by its token. */
  lemma LoginIff(env: Env, d: Data, c: Content, now: int)
    requires !ForRoom(c)
    ensures var r := LoginDecision(env, d, c, now);
            && r == Reply(d, if r.result.Ok? then Ok(()) else Err(Unauthorized))
            && (r.result.Ok? <==>
                 KnowsDevice(env, d, DeviceAuth(Meta(c, "group_id"), Meta(c, "device_id"), Meta(c, "device_token"))))
  {
  }

  /** The proxy that an exposure stands for: of its type, at its port, and with its domain among those asked for. */
  predicate ProxyFits(x: Exposure, c: Content) {
    && c.proxyType == x.protocol && (x.remotePort == 0 || c.remotePort == x.remotePort)
    && (x.domain == "" || exists i | 0 <= i < |c.customDomains| :: Lower(c.customDomains[i]) == Lower(x.domain))
  }

  /** NewProxy accepts an exposure exactly from the device that owns it, while it is enabled, and a public one only as what
      it is. */
  lemma NewProxyIff(env: Env, d: Data, c: Content, now: int)
    requires !ForRoom(c)
    ensures var r, k := NewProxyDecision(env, d, c, now), Meta(c, "exposure_id");
            && r == Reply(d, if r.result.Ok? then Ok(()) else Err(Unauthorized))
            && (r.result.Ok? <==>
                 && k != "" && Meta(c, "group_id") != "" && Meta(c, "device_id") != "" && k in d.exposures && d.exposures[k].enabled
                 && Meta(c, "group_id") == d.exposures[k].groupId && Meta(c, "device_id") == d.exposures[k].deviceId
                 && (d.exposures[k].mode == "public" ==> ProxyFits(d.exposures[k], c)))
  {
  }

  lemma NewUserConnIff(env: Env, d: Data, c: Content, now: int)
    requires !ForRoom(c)
    ensures var r, k := NewUserConnDecision(env, d, c, now), Meta(c, "exposure_id");
            && r == Reply(d, if r.result.Ok? then Ok(()) else Err(Unauthorized))
            && (r.result.Ok? <==> k == "" || (k in d.exposures && d.exposures[k].enabled))
  {
  }

  /** Whatever happens after a device has made an exposure, NewProxy is accepted for it exactly in the name of that device
      and as what was asked for then, while the exposure is there and enabled. */
  lemma OnlyMakerOpensProxy(env: Env, s: System, e: Event, after: seq<Event>, c: Content, later: int)
    requires Sound(s) && PendingKnown(env, s) && Fresh(s, e) && FreshRun(env, Next(env, s, e), after)
    requires !ForRoom(c) && Meta(c, "exposure_id") != ""
    requires Meta(c, "exposure_id") !in s.data.exposures && Meta(c, "exposure_id") in Next(env, s, e).data.exposures
    ensures e.Finish? && e.thread in s.pending && s.pending[e.thread].DevicePending?
    ensures var k, auth, act := Meta(c, "exposure_id"), s.pending[e.thread].auth, s.pending[e.thread].act;
            var d := Run(env, Next(env, s, e), after).data;
            NewProxyDecision(env, d, c, later).result.Ok? <==>
              && k in d.exposures && d.exposures[k].enabled
              && Meta(c, "group_id") == auth.groupId && Meta(c, "device_id") == auth.deviceId
              && (act.NewPublic? ==>
                   && c.proxyType == act.publicReq.protocol
                   && (act.publicReq.remotePort == 0 || c.remotePort == act.publicReq.remotePort)
                   && (act.publicReq.domain == ""
                       || exists i | 0 <= i < |c.customDomains| :: Lower(c.customDomains[i]) == Lower(act.publicReq.domain)))
  {
    var k, made := Meta(c, "exposure_id"), Next(env, s, e);
    NewExposureIsOwned(env, s, e, k);
    NextSound(env, s, e);
    NextPendingKnown(env, s, e);
    NewProxyIff(env, Run(env, made, after).data, c, later);
    if k in Run(env, made, after).data.exposures {
      ExposureThroughTime(env, made, after, k);
    }
  }

  // ---------- devices ----------

  /** Whoever could log in for a group can do so ever after, whatever happens. */
  lemma DeviceLoginLasts(env: Env, s: System, events: seq<Event>, c: Content, now: int, later: int)
    requires Sound(s) && FreshRun(env, s, events) && !ForRoom(c)
    requires LoginDecision(env, s.data, c, now).result.Ok?
    ensures LoginDecision(env, Run(env, s, events).data, c, later).result.Ok?
  {
    DevicesThroughTime(env, s, events);
  }

  // ---------- deleted and disabled exposures ----------

  /** Neither NewProxy nor NewUserConn is accepted for the exposure of the request. */
  predicate ExposureRefused(env: Env, d: Data, c: Content, now: int) {
    NewProxyDecision(env, d, c, now).result.Err? && NewUserConnDecision(env, d, c, now).result.Err?
  }

  lemma DeleteExposureRemoves(env: Env, s: System, t: nat, id: string, now: int)
    requires Sound(s) && t in s.pending && s.pending[t].DevicePending? && s.pending[t].act.DropExposure?
    requires Section(env, s, Finish(t, id, now)).result.Ok?
    ensures var exposureId := s.pending[t].act.exposureId;
            var s' := Next(env, s, Finish(t, id, now));
            exposureId in s'.used && exposureId !in s'.data.exposures
  {
  }

  /** After DeleteExposure, whatever happens later, neither NewProxy nor NewUserConn is accepted for it. */
  lemma DeletedExposureStaysOut(env: Env, s: System, t: nat, id: string, now: int, after: seq<Event>, c: Content, later: int)
    requires Sound(s) && t in s.pending && s.pending[t].DevicePending? && s.pending[t].act.DropExposure?
    requires Fresh(s, Finish(t, id, now)) && Section(env, s, Finish(t, id, now)).result.Ok?
    requires FreshRun(env, Next(env, s, Finish(t, id, now)), after)
    requires !ForRoom(c) && Meta(c, "exposure_id") == s.pending[t].act.exposureId && Meta(c, "exposure_id") != ""
    ensures ExposureRefused(env, Run(env, Next(env, s, Finish(t, id, now)), after).data, c, later)
  {
    NextSound(env, s, Finish(t, id, now));
    DeleteExposureRemoves(env, s, t, id, now);
    ExposuresThroughTime(env, Next(env, s, Finish(t, id, now)), after, s.pending[t].act.exposureId);
  }

  /** From an exposure that is disabled on, neither is accepted for it, whatever happens, until its owner enables
      it. */
  lemma DisabledExposureStaysOut(env: Env, s: System, events: seq<Event>, c: Content, later: int)
    requires Sound(s) && FreshRun(env, s, events) && !ForRoom(c)
    requires Meta(c, "exposure_id") in s.data.exposures && !s.data.exposures[Meta(c, "exposure_id")].enabled
    requires Meta(c, "exposure_id") != "" && ExposureStaysOff(env, s, events, Meta(c, "exposure_id"))
    ensures ExposureRefused(env, Run(env, s, events).data, c, later)
  {
    ExposureOffThroughTime(env, s, events, Meta(c, "exposure_id"));
  }

  // ---------- public exposures ----------

  /** Two accepted proxies of one node with the same tcp or udp port belong to the same exposure. */
  lemma PublicProxyUnique(d: Data, a: Content, b: Content)
    requires Inv(d) && ExposureMayOpen(d, a) && ExposureMayOpen(d, b)
    requires IsPortProtocol(a.proxyType) && a.proxyType == b.proxyType && a.remotePort == b.remotePort
    requires d.exposures[Meta(a, "exposure_id")].mode == "public" && d.exposures[Meta(b, "exposure_id")].mode == "public"
    requires d.exposures[Meta(a, "exposure_id")].nodeId == d.exposures[Meta(b, "exposure_id")].nodeId
    ensures Meta(a, "exposure_id") == Meta(b, "exposure_id")
  {
    var x, y := Meta(a, "exposure_id"), Meta(b, "exposure_id");
    assert x != y ==> Apart(d.exposures[x], d.exposures[y]);
    assert Placed(d.exposures[x], d.nodes) && Placed(d.exposures[y], d.nodes);
  }

  /** ... in every state the server can reach. */
  lemma ReachablePublicProxyUnique(env: Env, config: ServerConfig, events: seq<Event>, a: Content, b: Content)
    requires FreshRun(env, Start(config), events)
    requires var d := Run(env, Start(config), events).data;
             && ExposureMayOpen(d, a) && ExposureMayOpen(d, b)
             && IsPortProtocol(a.proxyType) && a.proxyType == b.proxyType && a.remotePort == b.remotePort
             && d.exposures[Meta(a, "exposure_id")].mode == "public" && d.exposures[Meta(b, "exposure_id")].mode == "public"
             && d.exposures[Meta(a, "exposure_id")].nodeId == d.exposures[Meta(b, "exposure_id")].nodeId
    ensures Meta(a, "exposure_id") == Meta(b, "exposure_id")
  {
    ReachableStates(env, config, events);
    PublicProxyUnique(Run(env, Start(config), events).data, a, b);
  }

  /** The exposures of a node that claim a port of the protocol. */
  function PortExposures(exposures: map<string, Exposure>, nodeId: string, protocol: string): set<string> {
    set k | k in exposures && exposures[k].mode == "public" && exposures[k].nodeId == nodeId && exposures[k].protocol == protocol
  }

  function Covered(ranges: seq<PortRange>): set<int> {
    set p | 1024 <= p <= 65535 && PortAllowed(p, ranges)
  }

  lemma {:induction false} Pigeonhole(keys: set<string>, exposures: map<string, Exposure>, ports: set<int>)
    requires forall k | k in keys :: k in exposures && exposures[k].remotePort in ports
    requires forall a, b | a in keys && b in keys && a != b :: exposures[a].remotePort != exposures[b].remotePort
    ensures |keys| <= |ports|
  {
    if keys != {} {
      var k :| k in keys;
      Pigeonhole(keys - {k}, exposures, ports - {exposures[k].remotePort});
    }
  }

  lemma PortExposureFacts(d: Data, nodeId: string, protocol: string, a: string, b: string)
    requires Inv(d) && nodeId in d.nodes && IsPortProtocol(protocol)
    requires a in PortExposures(d.exposures, nodeId, protocol) && b in PortExposures(d.exposures, nodeId, protocol)
    ensures d.exposures[a].remotePort in Covered(d.nodes[nodeId].allowPorts)
    ensures a != b ==> d.exposures[a].remotePort != d.exposures[b].remotePort
  {
    assert Placed(d.exposures[a], d.nodes);
    assert a != b ==> Apart(d.exposures[a], d.exposures[b]);
  }

  /** A node never has more tcp (or udp) exposures than ports it allows. */
  lemma NoMoreExposuresThanPorts(d: Data, nodeId: string, protocol: string)
    requires Inv(d) && nodeId in d.nodes && IsPortProtocol(protocol)
    ensures |PortExposures(d.exposures, nodeId, protocol)| <= |Covered(d.nodes[nodeId].allowPorts)|
  {
    var keys := PortExposures(d.exposures, nodeId, protocol);
    forall a, b | a in keys && b in keys
      ensures d.exposures[a].remotePort in Covered(d.nodes[nodeId].allowPorts)
      ensures a != b ==> d.exposures[a].remotePort != d.exposures[b].remotePort
    {
      PortExposureFacts(d, nodeId, protocol, a, b);
    }
    Pigeonhole(keys, d.exposures, Covered(d.nodes[nodeId].allowPorts));
  }

  // ---------- rooms ----------

  lemma ServerNameInjective(a: string, b: string)
    requires ServerName(a) == ServerName(b)
    ensures a == b
  {
    assert |a| == |b|;
    assert ServerName(a)[5..5 + |a|] == a && ServerName(b)[5..5 + |b|] == b;
  }

  /** A host that authenticates is the room's host device. */
  lemma HostIsHostDevice(env: Env, d: Data, auth: RoomAuth, now: int)
    requires RoomsGood(d.rooms, d.roomDevices) && CheckRoomDevice(env, d, auth, "host", now).result.Ok?
    ensures auth.roomId in d.rooms && d.rooms[auth.roomId].hostDeviceId == auth.deviceId
  {
  }

  /** A room proxy is authenticated first and judged on a later snapshot. If it is accepted, whatever
      happened in between, its name is the room's and the device is the room's host device. */
  lemma RoomProxyOnlyFromHost(env: Env, s: System, c: Content, now: int, between: seq<Event>)
    requires Sound(s) && ForRoom(c) && NewProxyDecision(env, s.data, c, now).result.Ok?
    requires FreshRun(env, Next(env, s, Seen(RoomAuthOf(c), "host", now)), between)
    requires RoomMayOpen(Run(env, Next(env, s, Seen(RoomAuthOf(c), "host", now)), between).data, c)
    ensures var d := Run(env, Next(env, s, Seen(RoomAuthOf(c), "host", now)), between).data;
            var roomId := RoomAuthOf(c).roomId;
            && c.proxyName == "room." + roomId + ".xtcp" && c.proxyType in {"xtcp", "stcp"}
            && d.rooms[roomId].hostDeviceId == RoomAuthOf(c).deviceId && d.rooms[roomId].enabled
  {
    var seen := Seen(RoomAuthOf(c), "host", now);
    var roomId := RoomAuthOf(c).roomId;
    NextSound(env, s, seen);
    RunSound(env, Next(env, s, seen), between);
    HostIsHostDevice(env, s.data, RoomAuthOf(c), now);
    assert roomId in Next(env, s, seen).used;
    RoomsThroughTime(env, Next(env, s, seen), between, roomId);
  }

  /** So one room proxy name is never accepted from two devices. */
  lemma OneDevicePerRoomProxy(d: Data, a: Content, b: Content)
    requires Inv(d) && RoomMayOpen(d, a) && RoomMayOpen(d, b) && a.proxyName == b.proxyName
    requires d.rooms[RoomAuthOf(a).roomId].hostDeviceId == RoomAuthOf(a).deviceId
    requires d.rooms[RoomAuthOf(b).roomId].hostDeviceId == RoomAuthOf(b).deviceId
    ensures RoomAuthOf(a).roomId == RoomAuthOf(b).roomId && RoomAuthOf(a).deviceId == RoomAuthOf(b).deviceId
  {
    assert d.rooms[RoomAuthOf(a).roomId].serverName == ServerName(RoomAuthOf(a).roomId);
    assert d.rooms[RoomAuthOf(b).roomId].serverName == ServerName(RoomAuthOf(b).roomId);
    ServerNameInjective(RoomAuthOf(a).roomId, RoomAuthOf(b).roomId);
  }

  /** No decision on a request for the room lets it pass: not Login, not NewUserConn, and not NewProxy, whenever
      its device authenticated. */
  predicate Refused(env: Env, d: Data, c: Content, now: int) {
    && LoginDecision(env, d, c, now).result.Err? && NewUserConnDecision(env, d, c, now).result.Err?
    && !RoomMayOpen(d, c)
  }

  lemma DeleteRoomRemoves(env: Env, s: System, t: nat, id: string, now: int)
    requires Sound(s) && t in s.pending && s.pending[t].RoomPending? && s.pending[t].roomAct.DropRoom?
    requires Section(env, s, Finish(t, id, now)).result.Ok?
    ensures var roomId := s.pending[t].roomAct.roomId;
            roomId in Next(env, s, Finish(t, id, now)).used && roomId !in Next(env, s, Finish(t, id, now)).data.rooms
  {
  }

  /** After DeleteRoom, whatever happens later, neither Login, NewProxy nor NewUserConn is accepted for the
      room: its id is never drawn again. */
  lemma DeletedRoomStaysOut(env: Env, s: System, t: nat, id: string, now: int, after: seq<Event>, c: Content, later: int)
    requires Sound(s) && t in s.pending && s.pending[t].RoomPending? && s.pending[t].roomAct.DropRoom?
    requires Fresh(s, Finish(t, id, now)) && Section(env, s, Finish(t, id, now)).result.Ok?
    requires FreshRun(env, Next(env, s, Finish(t, id, now)), after)
    requires ForRoom(c) && RoomAuthOf(c).roomId == s.pending[t].roomAct.roomId
    ensures Refused(env, Run(env, Next(env, s, Finish(t, id, now)), after).data, c, later)
  {
    var s' := Next(env, s, Finish(t, id, now));
    var roomId := s.pending[t].roomAct.roomId;
    NextSound(env, s, Finish(t, id, now));
    DeleteRoomRemoves(env, s, t, id, now);
    if roomId in Run(env, s', after).data.rooms {
      RoomsThroughTime(env, s', after, roomId);
      assert false;
    }
  }

  /** From a room that is disabled on, nothing is accepted for it, whatever happens, until its host enables it. */
  lemma DisabledRoomStaysOut(env: Env, s: System, events: seq<Event>, c: Content, later: int)
    requires Sound(s) && FreshRun(env, s, events) && ForRoom(c)
    requires RoomAuthOf(c).roomId in s.data.rooms && !s.data.rooms[RoomAuthOf(c).roomId].enabled
    requires RoomStaysOff(env, s, events, RoomAuthOf(c).roomId)
    ensures Refused(env, Run(env, s, events).data, c, later)
  {
    RoomOffThroughTime(env, s, events, RoomAuthOf(c).roomId);
  }
}
