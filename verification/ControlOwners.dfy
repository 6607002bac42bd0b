/** What each section of the control server does to exposures, routes and rooms, and who can make it do so: every change
    goes back to a device that authenticated with its own token (internal/control/service.go). */
module ControlOwners {
  import opened Wrappers
  import opened Text
  import opened Validate
  import opened ControlModel
  import opened ControlInvariant
  import opened ControlSteps
  import opened ControlAuth

  // ---------- what an authenticated device can do ----------

  /** A new exposure says what was asked for, in the name of the device. */
  predicate PrivateAsAsked(e: Exposure, auth: DeviceAuth, req: PrivateRequest, id: string, now: int) {
    && e.id == id && e.groupId == auth.groupId && e.deviceId == auth.deviceId && e.mode == "private" && e.protocol == "xtcp"
    && e.name == TrimSpace(req.name) && e.localIP == req.localIP && e.localPort == req.localPort
    && e.nodeId == "" && e.remotePort == 0 && e.domain == "" && e.enabled && e.createdAt == now && e.updatedAt == now
  }

  predicate PublicAsAsked(e: Exposure, auth: DeviceAuth, req: PublicRequest, id: string, now: int) {
    && e.id == id && e.groupId == auth.groupId && e.deviceId == auth.deviceId && e.mode == "public" && e.protocol == req.protocol
    && e.name == TrimSpace(req.name) && e.localIP == req.localIP && e.localPort == req.localPort
    && e.nodeId == req.nodeId && e.remotePort == req.remotePort && e.domain == req.domain
    && e.enabled && e.createdAt == now && e.updatedAt == now
  }

  predicate LocalService(env: Env, name: string, localIP: string, localPort: int) {
    && 1 <= |TrimSpace(name)| <= 80 && localIP != "" && (env.isIP(localIP) || localIP == "localhost") && 1 <= localPort <= 65535
  }

  lemma PrivateIff(env: Env, d: Data, auth: DeviceAuth, req: PrivateRequest, id: string, now: int)
    ensures var r := AddPrivate(env, d, auth, req, id, now);
            && (r.result.Ok? <==> LocalService(env, req.name, req.localIP, req.localPort))
            && (r.result.Err? ==> r == Reply(d, Err(BadRequest)))
            && (r.result.Ok? ==>
                 PrivateAsAsked(r.result.value, auth, req, id, now) && r.data == d.(exposures := d.exposures[id := r.result.value]))
  {
  }

  /** A suffix as the node lists it, without spaces at its ends, its case, or a leading dot. */
  function BareSuffix(suffix: string): string {
    var s := Lower(TrimSpace(suffix));
    if s != "" && s[0] == '.' then s[1..] else s
  }

  /** The domain is a host name under one of the suffixes, if there are any. */
  predicate DomainFits(domain: string, suffixes: seq<string>) {
    && domain != "" && (forall i | 0 <= i < |domain| :: domain[i] !in " /\\:")
    && (suffixes == [] || exists i | 0 <= i < |suffixes| ::
          Lower(domain) == BareSuffix(suffixes[i]) || HasSuffix(Lower(domain), "." + BareSuffix(suffixes[i])))
  }

  lemma DomainIff(domain: string, suffixes: seq<string>)
    ensures Domain(domain, suffixes) <==> DomainFits(domain, suffixes)
  {
    forall i | 0 <= i < |suffixes|
      ensures UnderSuffix(domain, suffixes[i]) <==>
                Lower(domain) == BareSuffix(suffixes[i]) || HasSuffix(Lower(domain), "." + BareSuffix(suffixes[i]))
    {
    }
  }

  /** Where the node lets the exposure appear: at a port it allows, or under a domain of its own. */
  predicate NodeAllows(node: Node, req: PublicRequest) {
    if req.protocol == "tcp" || req.protocol == "udp" then
      && 1024 <= req.remotePort <= 65535
      && (node.allowPorts == []
          || exists i | 0 <= i < |node.allowPorts| :: node.allowPorts[i].from <= req.remotePort <= node.allowPorts[i].to)
    else DomainFits(req.domain, node.domainSuffixes)
  }

  /** No exposure of the node has the port for the protocol, or the domain, whatever its case. */
  ghost predicate PlaceFree(exposures: map<string, Exposure>, req: PublicRequest) {
    forall k | k in exposures && exposures[k].nodeId == req.nodeId ::
      if req.protocol == "tcp" || req.protocol == "udp" then
        !(exposures[k].protocol == req.protocol && exposures[k].remotePort == req.remotePort)
      else Lower(exposures[k].domain) != Lower(req.domain)
  }

  lemma CheckPublicIs(d: Data, node: Node, req: PublicRequest)
    ensures CheckPublic(d, node, req)
         == if !NodeAllows(node, req) then Fail(BadRequest) else if !PlaceFree(d.exposures, req) then Fail(Conflict) else Pass
  {
    DomainIff(req.domain, node.domainSuffixes);
  }

  /** Which public exposures are accepted, as what, and which error the others get. */
  lemma PublicIff(env: Env, d: Data, auth: DeviceAuth, req: PublicRequest, id: string, now: int)
    ensures var r := AddPublic(env, d, auth, req, id, now);
            var fits := LocalService(env, req.name, req.localIP, req.localPort) && req.protocol in {"tcp", "udp", "http", "https"};
            && (r.result.Ok? <==>
                 fits && req.nodeId in d.nodes && NodeAllows(d.nodes[req.nodeId], req) && PlaceFree(d.exposures, req))
            && (r.result.Err? ==>
                 r == Reply(d, Err(if !fits then BadRequest
                                   else if req.nodeId !in d.nodes then NotFound
                                   else if !NodeAllows(d.nodes[req.nodeId], req) then BadRequest
                                   else Conflict)))
            && (r.result.Ok? ==>
                 PublicAsAsked(r.result.value, auth, req, id, now) && r.data == d.(exposures := d.exposures[id := r.result.value]))
  {
    if req.nodeId in d.nodes {
      CheckPublicIs(d, d.nodes[req.nodeId], req);
    }
  }

  predicate OwnExposure(d: Data, id: string, auth: DeviceAuth) {
    id in d.exposures && d.exposures[id].groupId == auth.groupId && d.exposures[id].deviceId == auth.deviceId
  }

  /** Switching an exposure: by its own device alone. */
  lemma SetExposureIff(d: Data, id: string, auth: DeviceAuth, enable: Option<bool>, now: int)
    ensures var r := SetExposure(d, id, auth, enable, now);
            if OwnExposure(d, id, auth) then
              && r.result == Ok(d.exposures[id].(enabled := if enable.Some? then enable.value else d.exposures[id].enabled, updatedAt := now))
              && r.data == d.(exposures := d.exposures[id := r.result.value])
            else r == Reply(d, Err(if id in d.exposures then Unauthorized else NotFound))
  {
  }

  /** Deleting an exposure: by its own device alone. Its routes go with it, and no others. */
  lemma RemoveExposureIff(d: Data, id: string, auth: DeviceAuth)
    ensures var r := RemoveExposure(d, id, auth);
            if OwnExposure(d, id, auth) then
              && r.result == Ok(()) && r.data == d.(exposures := d.exposures - {id}, accessRoutes := r.data.accessRoutes)
              && (forall k :: k in r.data.accessRoutes <==> k in d.accessRoutes && d.accessRoutes[k].exposureId != id)
              && (forall k | k in r.data.accessRoutes :: r.data.accessRoutes[k] == d.accessRoutes[k])
            else r == Reply(d, Err(if id in d.exposures then Unauthorized else NotFound))
  {
  }

  /** A route is for the devices of the exposure's group. */
  lemma RouteIff(d: Data, auth: DeviceAuth, req: RouteRequest, id: string, now: int)
    ensures var r := AddRoute(d, auth, req, id, now);
            var ports := 1 <= req.bindPort <= 65535
                         && (req.fallbackBindPort == 0 || (1 <= req.fallbackBindPort <= 65535 && req.fallbackBindPort != req.bindPort));
            && (r.result.Ok? <==> ports && req.exposureId in d.exposures && d.exposures[req.exposureId].groupId == auth.groupId)
            && (r.result.Err? ==>
                 r == Reply(d, Err(if !ports then BadRequest else if req.exposureId !in d.exposures then NotFound else Unauthorized)))
            && (r.result.Ok? ==>
                 && r.result.value == AccessRoute(id, auth.groupId, auth.deviceId, req.exposureId,
                                                  if req.bindAddr == "" then "127.0.0.1" else req.bindAddr,
                                                  req.bindPort, req.fallbackBindPort, now)
                 && r.data == d.(accessRoutes := d.accessRoutes[id := r.result.value]))
  {
  }

  /** Switching a room, once its host has authenticated: only the room it authenticated for. */
  lemma SetRoomIff(d: Data, roomId: string, auth: RoomAuth, enable: bool, now: int)
    requires RoomsKeyed(d.rooms)
    ensures var r := SetRoom(d, roomId, auth, enable, now);
            if roomId in d.rooms && auth.roomId == roomId then
              && r.result == Ok(d.rooms[roomId].(enabled := enable, updatedAt := now))
              && r.data == d.(rooms := d.rooms[roomId := r.result.value])
            else r == Reply(d, Err(if roomId in d.rooms then Unauthorized else NotFound))
  {
  }

  /** Deleting a room likewise; its devices go with it, and no others. */
  lemma RemoveRoomIff(d: Data, roomId: string, auth: RoomAuth)
    requires RoomsKeyed(d.rooms)
    ensures var r := RemoveRoom(d, roomId, auth);
            if roomId in d.rooms && auth.roomId == roomId then
              && r.result == Ok(()) && r.data == d.(rooms := d.rooms - {roomId}, roomDevices := r.data.roomDevices)
              && (forall k :: k in r.data.roomDevices <==> k in d.roomDevices && d.roomDevices[k].roomId != roomId)
              && (forall k | k in r.data.roomDevices :: r.data.roomDevices[k] == d.roomDevices[k])
            else r == Reply(d, Err(if roomId in d.rooms then Unauthorized else NotFound))
  {
  }

  // ---------- what anyone can do ----------

  lemma CreateGroupIff(d: Data, groupId: string, password: string, record: string, now: int)
    ensures var r := CreateGroup(d, groupId, password, record, now);
            var fits := 3 <= |groupId| <= 64 && IsLetterOrDigit(groupId[0]) && (forall i | 0 <= i < |groupId| :: IsIdChar(groupId[i]))
                        && |password| >= 8;
            && (r.result.Ok? <==> fits && groupId !in d.groups)
            && (r.result.Err? ==> r == Reply(d, Err(if fits then Conflict else BadRequest)))
            && (r.result.Ok? ==>
                 && r.result.value == Group(groupId, record, now) && r.data == d.(groups := d.groups[groupId := r.result.value]))
  {
  }

  lemma NodesIff(d: Data, req: NodeRequest, id: string, now: int, nodeId: string)
    ensures var r := CreateNode(d, req, id, now);
            && (r.result.Ok? <==>
                 && 1 <= |TrimSpace(req.name)| <= 80 && TrimSpace(req.serverAddr) != "" && 1 <= req.frpsPort <= 65535
                 && forall i | 0 <= i < |req.allowPorts| :: 1024 <= req.allowPorts[i].from <= req.allowPorts[i].to <= 65535)
            && (r.result.Err? ==> r == Reply(d, Err(BadRequest)))
            && (r.result.Ok? ==>
                 && r.result.value == Node(id, TrimSpace(req.name), TrimSpace(req.serverAddr), req.frpsPort, req.allowPorts,
                                           req.domainSuffixes, now)
                 && r.data == d.(nodes := d.nodes[id := r.result.value]))
    ensures var r := DeleteNode(d, nodeId);
            var used := exists k | k in d.exposures :: d.exposures[k].nodeId == nodeId;
            r == if nodeId !in d.nodes then Reply(d, Err(NotFound))
                 else if used then Reply(d, Err(Conflict))
                 else Reply(d.(nodes := d.nodes - {nodeId}), Ok(()))
  {
  }

  lemma CreateRoomIff(env: Env, d: Data, req: RoomRequest, draw: RoomDraw, now: int)
    ensures var r := CreateRoom(env, d, req, draw, now);
            var port := if d.config.frpsPort == 0 then 7000 else d.config.frpsPort;
            && (r.result.Ok? <==>
                 && 1 <= |TrimSpace(req.name)| <= 80 && 1 <= |TrimSpace(req.deviceName)| <= 80
                 && TrimSpace(d.config.frpsAddr) != "" && 1 <= port <= 65535)
            && (r.result.Err? ==> r == Reply(d, Err(BadRequest)))
            && (r.result.Ok? ==>
                 && r.result.value == Room(draw.roomId, TrimSpace(req.name), "room." + draw.roomId + ".xtcp",
                                           env.hash(draw.roomId + "." + draw.secret), draw.deviceId,
                                           TrimSpace(d.config.frpsAddr), port, true, now, now)
                 && r.data == d.(rooms := d.rooms[draw.roomId := r.result.value], roomDevices := r.data.roomDevices)
                 && r.data.roomDevices == d.roomDevices[draw.deviceId := RoomDevice(draw.deviceId, draw.roomId, TrimSpace(req.deviceName),
                                                                                   "host", env.hash(draw.token), now, now)])
  {
  }

  // ---------- who stands behind a change ----------

  /** The server knows the device by its token; a host, if its room is there. */
  ghost predicate Known(env: Env, s: System, p: Pending) {
    match p
    case DevicePending(auth, _) => KnowsDevice(env, s.data, auth)
    case RoomPending(auth, _) => auth.roomId in s.used && (auth.roomId in s.data.rooms ==> KnowsRoomDevice(env, s.data, auth, "host"))
  }

  /** Whoever has authenticated and not yet acted is still known by its token; a host, as long as its room is there. */
  ghost predicate PendingKnown(env: Env, s: System) {
    forall t | t in s.pending :: Known(env, s, s.pending[t])
  }

  lemma StillKnown(env: Env, d: Data, d': Data, auth: DeviceAuth)
    requires KnowsDevice(env, d, auth) && DevicesStay(d.devices, d'.devices)
    ensures KnowsDevice(env, d', auth)
  {
  }

  lemma HostStillKnown(env: Env, d: Data, d': Data, auth: RoomAuth)
    requires KnowsRoomDevice(env, d, auth, "host") && MembersStay(d, d') && auth.roomId in d'.rooms
    ensures KnowsRoomDevice(env, d', auth, "host")
  {
  }

  /** Whoever is pending after a step was so before, or has just authenticated. */
  lemma PendingWasKnown(env: Env, s: System, e: Event, t: nat)
    requires Sound(s) && PendingKnown(env, s) && t in PendingAfter(s, e, Section(env, s, e).result.Ok?)
    ensures Known(env, s, PendingAfter(s, e, Section(env, s, e).result.Ok?)[t])
  {
    match e
    case Begin(_, auth, _, now) => DeviceAuthIff(env, s.data, auth, now);
    case BeginRoom(_, auth, _, now) => RoomAuthIff(env, s.data, auth, "host", now);
    case _ =>
  }

  lemma StaysKnown(env: Env, s: System, s': System, p: Pending, drawn: set<string>)
    requires Known(env, s, p) && s'.used == s.used + drawn && drawn !! s.used
    requires DevicesStay(s.data.devices, s'.data.devices) && MembersStay(s.data, s'.data)
    requires RoomsLast(s.data.rooms, s'.data.rooms, drawn)
    ensures Known(env, s', p)
  {
    match p
    case DevicePending(auth, _) => StillKnown(env, s.data, s'.data, auth);
    case RoomPending(auth, _) =>
      if auth.roomId in s'.data.rooms {
        HostStillKnown(env, s.data, s'.data, auth);
      }
  }

  lemma NextPendingKnown(env: Env, s: System, e: Event)
    requires Sound(s) && Fresh(s, e) && PendingKnown(env, s)
    ensures PendingKnown(env, Next(env, s, e))
  {
    var s' := Next(env, s, e);
    RoomsAreKeyed(s.data);
    SectionKeepsDevices(env, s, e);
    SectionKeepsMembers(env, s, e);
    SectionRooms(env, s, e);
    forall t | t in s'.pending ensures Known(env, s', s'.pending[t]) {
      PendingWasKnown(env, s, e, t);
      StaysKnown(env, s, s', s'.pending[t], Drawn(e));
    }
  }

  lemma {:induction false} RunPendingKnown(env: Env, s: System, events: seq<Event>)
    requires Sound(s) && PendingKnown(env, s) && FreshRun(env, s, events)
    ensures PendingKnown(env, Run(env, s, events))
    decreases |events|
  {
    if events != [] {
      NextSound(env, s, events[0]);
      NextPendingKnown(env, s, events[0]);
      RunPendingKnown(env, Next(env, s, events[0]), events[1..]);
    }
  }

  /** The step acts for a device that the server knows by its token. */
  predicate ActsFor(env: Env, s: System, e: Event, groupId: string, deviceId: string, act: Act) {
    && e.Finish? && e.thread in s.pending && s.pending[e.thread].DevicePending? && s.pending[e.thread].act == act
    && s.pending[e.thread].auth.groupId == groupId && s.pending[e.thread].auth.deviceId == deviceId
    && KnowsDevice(env, s.data, s.pending[e.thread].auth)
  }

  lemma PerformExposures(env: Env, d: Data, auth: DeviceAuth, act: Act, id: string, now: int, k: string)
    requires k in d.exposures && k != id
    ensures var d' := PerformDevice(env, d, auth, act, id, now).data;
            && (k !in d'.exposures ==>
                 act == DropExposure(k) && d.exposures[k].groupId == auth.groupId && d.exposures[k].deviceId == auth.deviceId)
            && (k in d'.exposures && d'.exposures[k] != d.exposures[k] ==>
                 && act.ChangeExposure? && act.exposureId == k
                 && d.exposures[k].groupId == auth.groupId && d.exposures[k].deviceId == auth.deviceId
                 && d'.exposures[k] == d.exposures[k].(enabled := if act.enable.Some? then act.enable.value else d.exposures[k].enabled,
                                                       updatedAt := now))
  {
    match act
    case NewPrivate(req) => PrivateIff(env, d, auth, req, id, now);
    case NewPublic(req) => PublicIff(env, d, auth, req, id, now);
    case ChangeExposure(exposureId, enable) => SetExposureIff(d, exposureId, auth, enable, now);
    case DropExposure(exposureId) => RemoveExposureIff(d, exposureId, auth);
    case NewRoute(req) => RouteIff(d, auth, req, id, now);
  }

  lemma PerformRoomExposures(d: Data, auth: RoomAuth, act: RoomAct, now: int)
    ensures PerformRoom(d, auth, act, now).data.exposures == d.exposures
  {
  }

  /** An exposure is deleted or changed only by the device that made it, which has authenticated with its own token; and
      a change is only to whether it is enabled. */
  lemma OnlyOwnerChangesExposure(env: Env, s: System, e: Event, k: string)
    requires Sound(s) && Fresh(s, e) && PendingKnown(env, s) && k in s.data.exposures
    ensures var x, d' := s.data.exposures[k], Next(env, s, e).data;
            && (k !in d'.exposures ==> ActsFor(env, s, e, x.groupId, x.deviceId, DropExposure(k)))
            && (k in d'.exposures && d'.exposures[k] != x ==>
                 exists enable ::
                   && ActsFor(env, s, e, x.groupId, x.deviceId, ChangeExposure(k, enable))
                   && d'.exposures[k] == x.(enabled := if enable.Some? then enable.value else x.enabled, updatedAt := e.now))
  {
    if e.Finish? && e.thread in s.pending {
      match s.pending[e.thread] {
        case DevicePending(auth, act) =>
          PerformExposures(env, s.data, auth, act, e.id, e.now, k);
          if act.ChangeExposure? {
            assert act == ChangeExposure(act.exposureId, act.enable);
          }
        case RoomPending(auth, act) => PerformRoomExposures(s.data, auth, act, e.now);
      }
    } else if !e.Finish? {
      OtherSectionsExposures(env, s, e);
    }
  }

  /** The step acts for the host of the room, which the server knows by its token. */
  predicate HostActs(env: Env, s: System, e: Event, roomId: string, act: RoomAct) {
    && e.Finish? && e.thread in s.pending && s.pending[e.thread].RoomPending? && s.pending[e.thread].roomAct == act
    && roomId in s.data.rooms && s.pending[e.thread].roomAuth.roomId == roomId
    && s.pending[e.thread].roomAuth.deviceId == s.data.rooms[roomId].hostDeviceId
    && KnowsRoomDevice(env, s.data, s.pending[e.thread].roomAuth, "host")
  }

  lemma PerformRooms(d: Data, auth: RoomAuth, act: RoomAct, now: int, r: string)
    requires RoomsKeyed(d.rooms) && r in d.rooms
    ensures var d' := PerformRoom(d, auth, act, now).data;
            && (r !in d'.rooms ==> act == DropRoom(r) && auth.roomId == r)
            && (r in d'.rooms && d'.rooms[r] != d.rooms[r] ==>
                 && act.EnableRoom? && act.roomId == r && auth.roomId == r
                 && d'.rooms[r] == d.rooms[r].(enabled := act.enable, updatedAt := now))
  {
    match act
    case EnableRoom(roomId, enable) => SetRoomIff(d, roomId, auth, enable, now);
    case DropRoom(roomId) => RemoveRoomIff(d, roomId, auth);
  }

  lemma HostOf(env: Env, d: Data, auth: RoomAuth)
    requires RoomsGood(d.rooms, d.roomDevices) && KnowsRoomDevice(env, d, auth, "host")
    ensures auth.deviceId == d.rooms[auth.roomId].hostDeviceId
  {
  }

  lemma CreateRoomKeepsRooms(env: Env, d: Data, req: RoomRequest, draw: RoomDraw, now: int, r: string)
    requires r in d.rooms && r != draw.roomId
    ensures r in CreateRoom(env, d, req, draw, now).data.rooms && CreateRoom(env, d, req, draw, now).data.rooms[r] == d.rooms[r]
  {
  }

  lemma FinishRooms(env: Env, s: System, e: Event, r: string)
    requires Sound(s) && PendingKnown(env, s) && r in s.data.rooms && e.Finish? && e.thread in s.pending
    ensures var x, d' := s.data.rooms[r], Section(env, s, e).data;
            && (r !in d'.rooms ==> HostActs(env, s, e, r, DropRoom(r)))
            && (r in d'.rooms && d'.rooms[r] != x ==>
                 exists enable ::
                   HostActs(env, s, e, r, EnableRoom(r, enable)) && d'.rooms[r] == x.(enabled := enable, updatedAt := e.now))
  {
    RoomsAreKeyed(s.data);
    match s.pending[e.thread] {
      case DevicePending(auth, act) => PerformDeviceRooms(env, s.data, auth, act, e.id, e.now);
      case RoomPending(auth, act) =>
        PerformRooms(s.data, auth, act, e.now, r);
        if auth.roomId == r {
          assert Known(env, s, s.pending[e.thread]);
          HostOf(env, s.data, auth);
        }
        if act.EnableRoom? {
          assert act == EnableRoom(act.roomId, act.enable);
        }
    }
  }

  lemma OthersKeepRoom(env: Env, s: System, e: Event, r: string)
    requires r in s.data.rooms && r in s.used && Fresh(s, e) && !(e.Finish? && e.thread in s.pending)
    ensures r in Section(env, s, e).data.rooms && Section(env, s, e).data.rooms[r] == s.data.rooms[r]
  {
    match e
    case MakeRoom(req, draw, now) => CreateRoomKeepsRooms(env, s.data, req, draw, now, r);
    case Finish(_, _, _) =>
    case _ => OtherSections(env, s, e);
  }

  /** A room is deleted or changed only by its host, which has authenticated with its own token; and a change is only to
      whether it is enabled. */
  lemma OnlyHostChangesRoom(env: Env, s: System, e: Event, r: string)
    requires Sound(s) && Fresh(s, e) && PendingKnown(env, s) && r in s.data.rooms
    ensures var x, d' := s.data.rooms[r], Next(env, s, e).data;
            && (r !in d'.rooms ==> HostActs(env, s, e, r, DropRoom(r)))
            && (r in d'.rooms && d'.rooms[r] != x ==>
                 exists enable ::
                   HostActs(env, s, e, r, EnableRoom(r, enable)) && d'.rooms[r] == x.(enabled := enable, updatedAt := e.now))
  {
    if e.Finish? && e.thread in s.pending {
      FinishRooms(env, s, e, r);
    } else {
      OthersKeepRoom(env, s, e, r);
    }
  }

  lemma PerformNewExposure(env: Env, d: Data, auth: DeviceAuth, act: Act, id: string, now: int, k: string)
    requires k !in d.exposures && k in PerformDevice(env, d, auth, act, id, now).data.exposures
    ensures var x := PerformDevice(env, d, auth, act, id, now).data.exposures[k];
            && k == id
            && ((act.NewPrivate? && PrivateAsAsked(x, auth, act.privateReq, id, now))
                || (act.NewPublic? && PublicAsAsked(x, auth, act.publicReq, id, now)))
  {
    match act
    case NewPrivate(req) => PrivateIff(env, d, auth, req, id, now);
    case NewPublic(req) => PublicIff(env, d, auth, req, id, now);
    case ChangeExposure(exposureId, enable) => SetExposureIff(d, exposureId, auth, enable, now);
    case DropExposure(exposureId) => RemoveExposureIff(d, exposureId, auth);
    case NewRoute(req) => RouteIff(d, auth, req, id, now);
  }

  /** A new exposure belongs to a device that has authenticated with its own token, and is as that device asked. */
  lemma NewExposureIsOwned(env: Env, s: System, e: Event, k: string)
    requires PendingKnown(env, s) && k !in s.data.exposures && k in Next(env, s, e).data.exposures
    ensures e.Finish? && e.thread in s.pending && s.pending[e.thread].DevicePending?
    ensures var auth, act, x := s.pending[e.thread].auth, s.pending[e.thread].act, Next(env, s, e).data.exposures[k];
            && KnowsDevice(env, s.data, auth)
            && ((act.NewPrivate? && PrivateAsAsked(x, auth, act.privateReq, k, e.now))
                || (act.NewPublic? && PublicAsAsked(x, auth, act.publicReq, k, e.now)))
  {
    if !e.Finish? {
      OtherSectionsExposures(env, s, e);
    } else if e.thread in s.pending {
      assert Known(env, s, s.pending[e.thread]);
      match s.pending[e.thread] {
        case DevicePending(auth, act) => PerformNewExposure(env, s.data, auth, act, e.id, e.now, k);
        case RoomPending(auth, act) => PerformRoomExposures(s.data, auth, act, e.now);
      }
    }
  }

  /** In every state the server can reach, whoever is about to act is known by its token: so no exposure or room ever
      changes but by its owner. */
  lemma ReachableOwners(env: Env, config: ServerConfig, events: seq<Event>, e: Event)
    requires FreshRun(env, Start(config), events) && Fresh(Run(env, Start(config), events), e)
    ensures var s := Run(env, Start(config), events);
            var d' := Next(env, s, e).data;
            && (forall k | k in s.data.exposures && k !in d'.exposures ::
                  ActsFor(env, s, e, s.data.exposures[k].groupId, s.data.exposures[k].deviceId, DropExposure(k)))
            && (forall k | k in s.data.exposures && k in d'.exposures && d'.exposures[k] != s.data.exposures[k] ::
                  exists enable :: ActsFor(env, s, e, s.data.exposures[k].groupId, s.data.exposures[k].deviceId, ChangeExposure(k, enable)))
            && (forall r | r in s.data.rooms && r !in d'.rooms :: HostActs(env, s, e, r, DropRoom(r)))
            && (forall r | r in s.data.rooms && r in d'.rooms && d'.rooms[r] != s.data.rooms[r] ::
                  exists enable :: HostActs(env, s, e, r, EnableRoom(r, enable)))
  {
    var s := Run(env, Start(config), events);
    RunSound(env, Start(config), events);
    RunPendingKnown(env, Start(config), events);
    forall k | k in s.data.exposures
      ensures k !in Next(env, s, e).data.exposures ==>
                ActsFor(env, s, e, s.data.exposures[k].groupId, s.data.exposures[k].deviceId, DropExposure(k))
      ensures k in Next(env, s, e).data.exposures && Next(env, s, e).data.exposures[k] != s.data.exposures[k] ==>
                exists enable :: ActsFor(env, s, e, s.data.exposures[k].groupId, s.data.exposures[k].deviceId, ChangeExposure(k, enable))
    {
      OnlyOwnerChangesExposure(env, s, e, k);
    }
    forall r | r in s.data.rooms
      ensures r !in Next(env, s, e).data.rooms ==> HostActs(env, s, e, r, DropRoom(r))
      ensures r in Next(env, s, e).data.rooms && Next(env, s, e).data.rooms[r] != s.data.rooms[r] ==>
                exists enable :: HostActs(env, s, e, r, EnableRoom(r, enable))
    {
      OnlyHostChangesRoom(env, s, e, r);
    }
  }

  /** Two exposures of one node at the same port of one protocol, or with the same domain, whatever its case. */
  predicate SamePlace(a: Exposure, b: Exposure) {
    && a.nodeId == b.nodeId
    && if a.protocol in {"tcp", "udp"} then b.protocol == a.protocol && a.remotePort == b.remotePort
       else b.protocol !in {"tcp", "udp"} && Lower(a.domain) == Lower(b.domain)
  }

  /** In every state the server can reach, each public exposure is where its node allows it, no two are in one place, and
      each exposure belongs to a device of its group. */
  lemma ReachableExposures(env: Env, config: ServerConfig, events: seq<Event>)
    requires FreshRun(env, Start(config), events)
    ensures var d := Run(env, Start(config), events).data;
            && (forall k | k in d.exposures && d.exposures[k].mode == "public" ::
                  && d.exposures[k].nodeId in d.nodes
                  && (d.exposures[k].protocol in {"tcp", "udp"} ==>
                       && 1024 <= d.exposures[k].remotePort <= 65535
                       && PortAllowed(d.exposures[k].remotePort, d.nodes[d.exposures[k].nodeId].allowPorts))
                  && (d.exposures[k].protocol !in {"tcp", "udp"} ==>
                       DomainFits(d.exposures[k].domain, d.nodes[d.exposures[k].nodeId].domainSuffixes)))
            && (forall a, b | a in d.exposures && b in d.exposures && a != b && d.exposures[a].mode == "public" && d.exposures[b].mode == "public" ::
                  !SamePlace(d.exposures[a], d.exposures[b]))
            && (forall k | k in d.exposures ::
                  d.exposures[k].deviceId in d.devices && d.devices[d.exposures[k].deviceId].groupId == d.exposures[k].groupId)
  {
    ReachableStates(env, config, events);
    var d := Run(env, Start(config), events).data;
    forall k | k in d.exposures && d.exposures[k].mode == "public"
      ensures d.exposures[k].protocol !in {"tcp", "udp"} ==>
                DomainFits(d.exposures[k].domain, d.nodes[d.exposures[k].nodeId].domainSuffixes)
    {
      assert Placed(d.exposures[k], d.nodes);
      DomainIff(d.exposures[k].domain, d.nodes[d.exposures[k].nodeId].domainSuffixes);
    }
    forall a, b | a in d.exposures && b in d.exposures && a != b && d.exposures[a].mode == "public" && d.exposures[b].mode == "public"
      ensures !SamePlace(d.exposures[a], d.exposures[b])
    {
      assert Apart(d.exposures[a], d.exposures[b]);
    }
  }

  // ---------- an exposure through time ----------

  /** The same but for whether it is enabled. */
  ghost predicate SameExposure(a: Exposure, b: Exposure) {
    b == a.(enabled := b.enabled, updatedAt := b.updatedAt)
  }

  /** An exposure that is there in the end was there all along, and has stayed the same but for whether it is enabled. */
  lemma {:induction false} ExposureThroughTime(env: Env, s: System, events: seq<Event>, k: string)
    requires Sound(s) && PendingKnown(env, s) && FreshRun(env, s, events) && k in s.used
    requires k in Run(env, s, events).data.exposures
    ensures k in s.data.exposures && SameExposure(s.data.exposures[k], Run(env, s, events).data.exposures[k])
    decreases |events|
  {
    if events != [] {
      var s' := Next(env, s, events[0]);
      NextSound(env, s, events[0]);
      NextPendingKnown(env, s, events[0]);
      ExposureThroughTime(env, s', events[1..], k);
      if k in s.data.exposures {
        OnlyOwnerChangesExposure(env, s, events[0], k);
      } else {
        RoomsAreKeyed(s.data);
        SectionGrows(env, s, events[0]);
        assert false;
      }
    }
  }
}
