/** The control service as an object: maps updated in place, scans and cascading deletes as loops over them
    (internal/control/service.go). Each method is proved to be the sections of ControlModel, in order. */
module ControlService {
  import opened Wrappers
  import opened Text
  import opened Validate
  import opened ControlModel

  // ---------- scans ----------

  method RangeAllows(port: int, ranges: seq<PortRange>) returns (ok: bool)
    ensures ok == PortAllowed(port, ranges)
  {
    if |ranges| == 0 {
      return 1024 <= port <= 65535;
    }
    for i := 0 to |ranges|
      invariant forall j | 0 <= j < i :: !(ranges[j].from <= port <= ranges[j].to)
    {
      if ranges[i].from <= port <= ranges[i].to {
        return true;
      }
    }
    ok := false;
  }

  method RangesValid(ranges: seq<PortRange>) returns (ok: bool)
    ensures ok == ValidRanges(ranges)
  {
    for i := 0 to |ranges|
      invariant forall j | 0 <= j < i :: ValidRange(ranges[j])
    {
      if ranges[i].from > ranges[i].to || !UserRemotePort(ranges[i].from) || !UserRemotePort(ranges[i].to) {
        return false;
      }
    }
    ok := true;
  }

  method IsPortInUse(exposures: map<string, Exposure>, nodeId: string, protocol: string, port: int) returns (found: bool)
    ensures found == PortInUse(exposures, nodeId, protocol, port)
  {
    var left := exposures.Keys;
    while left != {}
      invariant left <= exposures.Keys
      invariant forall k | k in exposures && k !in left ::
        !(exposures[k].nodeId == nodeId && exposures[k].protocol == protocol && exposures[k].remotePort == port)
      decreases left
    {
      var k :| k in left;
      if exposures[k].nodeId == nodeId && exposures[k].protocol == protocol && exposures[k].remotePort == port {
        return true;
      }
      left := left - {k};
    }
    found := false;
  }

  method IsDomainInUse(exposures: map<string, Exposure>, nodeId: string, domain: string) returns (found: bool)
    ensures found == DomainInUse(exposures, nodeId, domain)
  {
    var left := exposures.Keys;
    while left != {}
      invariant left <= exposures.Keys
      invariant forall k | k in exposures && k !in left ::
        !(exposures[k].nodeId == nodeId && EqualFold(exposures[k].domain, domain))
      decreases left
    {
      var k :| k in left;
      if exposures[k].nodeId == nodeId && EqualFold(exposures[k].domain, domain) {
        return true;
      }
      left := left - {k};
    }
    found := false;
  }

  method IsNodeInUse(exposures: map<string, Exposure>, nodeId: string) returns (found: bool)
    ensures found == NodeInUse(exposures, nodeId)
  {
    var left := exposures.Keys;
    while left != {}
      invariant left <= exposures.Keys
      invariant forall k | k in exposures && k !in left :: exposures[k].nodeId != nodeId
      decreases left
    {
      var k :| k in left;
      if exposures[k].nodeId == nodeId {
        return true;
      }
      left := left - {k};
    }
    found := false;
  }

  /** roomMemberCount */
  method MemberCount(roomId: string, devices: map<string, RoomDevice>) returns (count: nat)
    ensures count == |Members(devices, roomId)|
  {
    count := 0;
    var left := devices.Keys;
    ghost var counted: set<string> := {};
    while left != {}
      invariant left <= devices.Keys && count == |counted|
      invariant counted == set k | k in devices && k !in left && devices[k].roomId == roomId
      decreases left
    {
      var k :| k in left;
      if devices[k].roomId == roomId {
        count := count + 1;
        counted := counted + {k};
      }
      left := left - {k};
    }
    assert counted == Members(devices, roomId);
  }

  class Service {
    const env: Env
    const config: ServerConfig
    var groups: map<string, Group>
    var devices: map<string, Device>
    var nodes: map<string, Node>
    var exposures: map<string, Exposure>
    var accessRoutes: map<string, AccessRoute>
    var rooms: map<string, Room>
    var roomDevices: map<string, RoomDevice>

    function View(): Data
      reads this
    {
      Data(config, groups, devices, nodes, exposures, accessRoutes, rooms, roomDevices)
    }

    constructor (env: Env, config: ServerConfig)
      ensures this.env == env
      ensures View() == Data(config, map[], map[], map[], map[], map[], map[], map[])
    {
      this.env, this.config := env, config;
      groups, devices, nodes, exposures, accessRoutes, rooms, roomDevices := map[], map[], map[], map[], map[], map[], map[];
    }

    method CreateGroup(groupId: string, password: string, record: string, now: int) returns (r: Result<Group>)
      modifies this`groups
      ensures Reply(View(), r) == ControlModel.CreateGroup(old(View()), groupId, password, record, now)
    {
      if !IdPattern(groupId, 3) || |password| < 8 {
        return Err(BadRequest);
      }
      if groupId in groups {
        return Err(Conflict);
      }
      var group := Group(groupId, record, now);
      groups := groups[groupId := group];
      r := Ok(group);
    }

    method JoinGroup(groupId: string, password: string, deviceName: string, id: string, token: string, now: int)
      returns (r: Result<Device>)
      modifies this`devices
      ensures Reply(View(), r) == ControlModel.JoinGroup(env, old(View()), groupId, password, deviceName, id, token, now)
    {
      if !IdPattern(groupId, 3) || !Name(deviceName) {
        return Err(BadRequest);
      }
      if groupId !in groups {
        return Err(NotFound);
      }
      if !env.verify(groups[groupId].passwordHash, password) {
        return Err(Unauthorized);
      }
      var device := Device(id, groupId, TrimSpace(deviceName), env.hash(token), now, now);
      devices := devices[id := device];
      r := Ok(device);
    }

    method CreateNode(req: NodeRequest, id: string, now: int) returns (r: Result<Node>)
      modifies this`nodes
      ensures Reply(View(), r) == ControlModel.CreateNode(old(View()), req, id, now)
    {
      if !Name(req.name) || TrimSpace(req.serverAddr) == "" || !Port(req.frpsPort) {
        return Err(BadRequest);
      }
      var valid := RangesValid(req.allowPorts);
      if !valid {
        return Err(BadRequest);
      }
      var node := Node(id, TrimSpace(req.name), TrimSpace(req.serverAddr), req.frpsPort, req.allowPorts, req.domainSuffixes, now);
      nodes := nodes[id := node];
      r := Ok(node);
    }

    method DeleteNode(nodeId: string) returns (r: Result<()>)
      modifies this`nodes
      ensures Reply(View(), r) == ControlModel.DeleteNode(old(View()), nodeId)
    {
      if nodeId !in nodes {
        return Err(NotFound);
      }
      var used := IsNodeInUse(exposures, nodeId);
      if used {
        return Err(Conflict);
      }
      nodes := nodes - {nodeId};
      r := Ok(());
    }

    method ValidateDevice(auth: DeviceAuth, now: int) returns (r: Result<()>)
      modifies this`devices
      ensures Reply(View(), r) == CheckDevice(env, old(View()), auth, now)
    {
      if auth.groupId == "" || auth.deviceId == "" || auth.deviceToken == "" {
        return Err(Unauthorized);
      }
      if auth.deviceId !in devices || devices[auth.deviceId].groupId != auth.groupId {
        return Err(Unauthorized);
      }
      var device := devices[auth.deviceId];
      if !TokenFits(env, auth.deviceToken, device.tokenHash) {
        return Err(Unauthorized);
      }
      devices := devices[auth.deviceId := device.(lastSeenAt := now)];
      r := Ok(());
    }

    method StorePrivate(auth: DeviceAuth, req: PrivateRequest, id: string, now: int) returns (r: Result<Exposure>)
      modifies this`exposures
      ensures Reply(View(), r) == AddPrivate(env, old(View()), auth, req, id, now)
    {
      if !Name(req.name) || !LocalIP(env.isIP, req.localIP) || !Port(req.localPort) {
        return Err(BadRequest);
      }
      var e := Exposure(id, auth.groupId, auth.deviceId, "", TrimSpace(req.name), "private", "xtcp", req.localIP, req.localPort,
                        0, "", true, now, now);
      exposures := exposures[id := e];
      r := Ok(e);
    }

    method CreatePrivateExposure(auth: DeviceAuth, req: PrivateRequest, id: string, seen: int, now: int) returns (r: Result<Exposure>)
      modifies this`devices, this`exposures
      ensures var checked := CheckDevice(env, old(View()), auth, seen);
              Reply(View(), r) == InOrder(checked, AddPrivate(env, checked.data, auth, req, id, now))
    {
      var checked := ValidateDevice(auth, seen);
      if checked.Err? {
        return Err(checked.error);
      }
      r := StorePrivate(auth, req, id, now);
    }

    /** The node's say, with its scans of the other exposures. */
    method AskNode(node: Node, req: PublicRequest) returns (o: Outcome)
      ensures o == CheckPublic(View(), node, req)
    {
      if IsPortProtocol(req.protocol) {
        if !UserRemotePort(req.remotePort) {
          return Fail(BadRequest);
        }
        var allowed := RangeAllows(req.remotePort, node.allowPorts);
        if !allowed {
          return Fail(BadRequest);
        }
        var used := IsPortInUse(exposures, req.nodeId, req.protocol, req.remotePort);
        return if used then Fail(Conflict) else Pass;
      }
      if !Domain(req.domain, node.domainSuffixes) {
        return Fail(BadRequest);
      }
      var used := IsDomainInUse(exposures, req.nodeId, req.domain);
      o := if used then Fail(Conflict) else Pass;
    }

    method StorePublic(auth: DeviceAuth, req: PublicRequest, id: string, now: int) returns (r: Result<Exposure>)
      modifies this`exposures
      ensures Reply(View(), r) == AddPublic(env, old(View()), auth, req, id, now)
    {
      if !Name(req.name) || !Protocol(req.protocol) || !LocalIP(env.isIP, req.localIP) || !Port(req.localPort) {
        return Err(BadRequest);
      }
      if req.nodeId !in nodes {
        return Err(NotFound);
      }
      var check := AskNode(nodes[req.nodeId], req);
      if check.Fail? {
        return Err(check.error);
      }
      var e := Exposure(id, auth.groupId, auth.deviceId, req.nodeId, TrimSpace(req.name), "public", req.protocol, req.localIP,
                        req.localPort, req.remotePort, req.domain, true, now, now);
      exposures := exposures[id := e];
      r := Ok(e);
    }

    method CreatePublicExposure(auth: DeviceAuth, req: PublicRequest, id: string, seen: int, now: int) returns (r: Result<Exposure>)
      modifies this`devices, this`exposures
      ensures var checked := CheckDevice(env, old(View()), auth, seen);
              Reply(View(), r) == InOrder(checked, AddPublic(env, checked.data, auth, req, id, now))
    {
      var checked := ValidateDevice(auth, seen);
      if checked.Err? {
        return Err(checked.error);
      }
      r := StorePublic(auth, req, id, now);
    }

    method UpdateExposure(id: string, auth: DeviceAuth, enable: Option<bool>, seen: int, now: int) returns (r: Result<Exposure>)
      modifies this`devices, this`exposures
      ensures var checked := CheckDevice(env, old(View()), auth, seen);
              Reply(View(), r) == InOrder(checked, SetExposure(checked.data, id, auth, enable, now))
    {
      var checked := ValidateDevice(auth, seen);
      if checked.Err? {
        return Err(checked.error);
      }
      if id !in exposures {
        return Err(NotFound);
      }
      var e := exposures[id];
      if e.groupId != auth.groupId || e.deviceId != auth.deviceId {
        return Err(Unauthorized);
      }
      if enable.Some? {
        e := e.(enabled := enable.value);
      }
      e := e.(updatedAt := now);
      exposures := exposures[id := e];
      r := Ok(e);
    }

    /** Deletes every route to the exposure. */
    method DropRoutes(exposureId: string)
      modifies this`accessRoutes
      ensures accessRoutes == RoutesWithout(old(accessRoutes), exposureId)
    {
      var left := accessRoutes.Keys;
      while left != {}
        invariant left <= old(accessRoutes).Keys
        invariant forall k :: k in accessRoutes <==> k in old(accessRoutes) && (k in left || old(accessRoutes)[k].exposureId != exposureId)
        invariant forall k | k in accessRoutes :: accessRoutes[k] == old(accessRoutes)[k]
        decreases left
      {
        var k :| k in left;
        if accessRoutes[k].exposureId == exposureId {
          accessRoutes := accessRoutes - {k};
        }
        left := left - {k};
      }
    }

    method DeleteExposure(id: string, auth: DeviceAuth, seen: int) returns (r: Result<()>)
      modifies this`devices, this`exposures, this`accessRoutes
      ensures var checked := CheckDevice(env, old(View()), auth, seen);
              Reply(View(), r) == InOrder(checked, RemoveExposure(checked.data, id, auth))
    {
      var checked := ValidateDevice(auth, seen);
      if checked.Err? {
        return Err(checked.error);
      }
      if id !in exposures {
        return Err(NotFound);
      }
      if exposures[id].groupId != auth.groupId || exposures[id].deviceId != auth.deviceId {
        return Err(Unauthorized);
      }
      exposures := exposures - {id};
      DropRoutes(id);
      r := Ok(());
    }

    method StoreRoute(auth: DeviceAuth, req: RouteRequest, id: string, now: int) returns (r: Result<AccessRoute>)
      modifies this`accessRoutes
      ensures Reply(View(), r) == AddRoute(old(View()), auth, req, id, now)
    {
      if !Port(req.bindPort) {
        return Err(BadRequest);
      }
      if req.fallbackBindPort != 0 {
        if !Port(req.fallbackBindPort) || req.fallbackBindPort == req.bindPort {
          return Err(BadRequest);
        }
      }
      var bindAddr := req.bindAddr;
      if bindAddr == "" {
        bindAddr := "127.0.0.1";
      }
      if req.exposureId !in exposures {
        return Err(NotFound);
      }
      if exposures[req.exposureId].groupId != auth.groupId {
        return Err(Unauthorized);
      }
      var route := AccessRoute(id, auth.groupId, auth.deviceId, req.exposureId, bindAddr, req.bindPort, req.fallbackBindPort, now);
      accessRoutes := accessRoutes[id := route];
      r := Ok(route);
    }

    method CreateAccessRoute(auth: DeviceAuth, req: RouteRequest, id: string, seen: int, now: int) returns (r: Result<AccessRoute>)
      modifies this`devices, this`accessRoutes
      ensures var checked := CheckDevice(env, old(View()), auth, seen);
              Reply(View(), r) == InOrder(checked, AddRoute(checked.data, auth, req, id, now))
    {
      var checked := ValidateDevice(auth, seen);
      if checked.Err? {
        return Err(checked.error);
      }
      r := StoreRoute(auth, req, id, now);
    }

    method CreateRoom(req: RoomRequest, draw: RoomDraw, now: int) returns (r: Result<Room>)
      modifies this`rooms, this`roomDevices
      ensures Reply(View(), r) == ControlModel.CreateRoom(env, old(View()), req, draw, now)
    {
      if !Name(req.name) || !Name(req.deviceName) {
        return Err(BadRequest);
      }
      var device := RoomDevice(draw.deviceId, draw.roomId, TrimSpace(req.deviceName), "host", env.hash(draw.token), now, now);
      var frpsAddr := TrimSpace(config.frpsAddr);
      if frpsAddr == "" {
        return Err(BadRequest);
      }
      var frpsPort := config.frpsPort;
      if frpsPort == 0 {
        frpsPort := 7000;
      }
      if !Port(frpsPort) {
        return Err(BadRequest);
      }
      var room := Room(draw.roomId, TrimSpace(req.name), ServerName(draw.roomId), env.hash(RoomCode(draw.roomId, draw.secret)),
                       draw.deviceId, frpsAddr, frpsPort, true, now, now);
      rooms := rooms[room.id := room];
      roomDevices := roomDevices[device.id := device];
      r := Ok(room);
    }

    method JoinRoom(req: JoinRequest, id: string, token: string, now: int) returns (r: Result<nat>)
      modifies this`roomDevices
      ensures Reply(View(), r) == ControlModel.JoinRoom(env, old(View()), req, id, token, now)
    {
      var roomId := RoomOfCode(req.roomCode);
      if roomId.None? || !Name(req.deviceName) {
        return Err(BadRequest);
      }
      if roomId.value !in rooms {
        return Err(NotFound);
      }
      var room := rooms[roomId.value];
      if !room.enabled {
        return Err(BadRequest);
      }
      if env.hash(TrimSpace(req.roomCode)) != room.codeHash {
        return Err(Unauthorized);
      }
      roomDevices := roomDevices[id := RoomDevice(id, roomId.value, TrimSpace(req.deviceName), "visitor", env.hash(token), now, now)];
      var count := MemberCount(room.id, roomDevices);
      r := Ok(count);
    }

    method ValidateRoomDevice(auth: RoomAuth, requiredRole: string, now: int) returns (r: Result<()>)
      modifies this`roomDevices
      ensures Reply(View(), r) == CheckRoomDevice(env, old(View()), auth, requiredRole, now)
    {
      if auth.roomId == "" || auth.deviceId == "" || auth.deviceToken == "" {
        return Err(Unauthorized);
      }
      if auth.roomId !in rooms || (!rooms[auth.roomId].enabled && requiredRole != "host") {
        return Err(Unauthorized);
      }
      if auth.deviceId !in roomDevices || roomDevices[auth.deviceId].roomId != auth.roomId {
        return Err(Unauthorized);
      }
      var device := roomDevices[auth.deviceId];
      if requiredRole != "" && device.role != requiredRole {
        return Err(Unauthorized);
      }
      if !TokenFits(env, auth.deviceToken, device.tokenHash) {
        return Err(Unauthorized);
      }
      roomDevices := roomDevices[auth.deviceId := device.(lastSeenAt := now)];
      r := Ok(());
    }

    method UpdateRoom(roomId: string, auth: RoomAuth, enable: Option<bool>, seen: int, now: int) returns (r: Result<Room>)
      modifies this`rooms, this`roomDevices
      ensures var checked := CheckRoomDevice(env, old(View()), auth, "host", seen);
              if enable.None? then Reply(View(), r) == Reply(old(View()), Err(BadRequest))
              else Reply(View(), r) == InOrder(checked, SetRoom(checked.data, roomId, auth, enable.value, now))
    {
      if enable.None? {
        return Err(BadRequest);
      }
      var checked := ValidateRoomDevice(auth, "host", seen);
      if checked.Err? {
        return Err(checked.error);
      }
      if roomId !in rooms {
        return Err(NotFound);
      }
      var room := rooms[roomId];
      if room.id != auth.roomId {
        return Err(Unauthorized);
      }
      room := room.(enabled := enable.value, updatedAt := now);
      rooms := rooms[room.id := room];
      r := Ok(room);
    }

    /** Deletes every device of the room. */
    method DropDevices(roomId: string)
      modifies this`roomDevices
      ensures roomDevices == DevicesWithout(old(roomDevices), roomId)
    {
      var left := roomDevices.Keys;
      while left != {}
        invariant left <= old(roomDevices).Keys
        invariant forall k :: k in roomDevices <==> k in old(roomDevices) && (k in left || old(roomDevices)[k].roomId != roomId)
        invariant forall k | k in roomDevices :: roomDevices[k] == old(roomDevices)[k]
        decreases left
      {
        var k :| k in left;
        if roomDevices[k].roomId == roomId {
          roomDevices := roomDevices - {k};
        }
        left := left - {k};
      }
    }

    method DeleteRoom(roomId: string, auth: RoomAuth, seen: int) returns (r: Result<()>)
      modifies this`rooms, this`roomDevices
      ensures var checked := CheckRoomDevice(env, old(View()), auth, "host", seen);
              Reply(View(), r) == InOrder(checked, RemoveRoom(checked.data, roomId, auth))
    {
      var checked := ValidateRoomDevice(auth, "host", seen);
      if checked.Err? {
        return Err(checked.error);
      }
      if roomId !in rooms {
        return Err(NotFound);
      }
      if rooms[roomId].id != auth.roomId {
        return Err(Unauthorized);
      }
      rooms := rooms - {roomId};
      DropDevices(roomId);
      r := Ok(());
    }
  }
}
