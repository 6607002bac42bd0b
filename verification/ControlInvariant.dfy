/** What every stored state of the control server satisfies, section by section. */
module ControlInvariant {
  import opened Wrappers
  import opened Text
  import opened Validate
  import opened ControlModel

  // ---------- exposures and routes ----------

  ghost predicate WellFormed(e: Exposure) {
    || (e.mode == "private" && e.protocol == "xtcp" && e.nodeId == "")
    || (e.mode == "public" && Protocol(e.protocol))
  }

  /** A public exposure's node exists and allows its remote port or its domain. */
  ghost predicate Placed(e: Exposure, nodes: map<string, Node>) {
    e.mode == "public" ==>
      && e.nodeId in nodes
      && (IsPortProtocol(e.protocol) ==> UserRemotePort(e.remotePort) && PortAllowed(e.remotePort, nodes[e.nodeId].allowPorts))
      && (!IsPortProtocol(e.protocol) ==> Domain(e.domain, nodes[e.nodeId].domainSuffixes))
  }

  /** An exposure's device exists, in the same group. */
  ghost predicate Owned(e: Exposure, devices: map<string, Device>) {
    e.deviceId in devices && devices[e.deviceId].groupId == e.groupId
  }

  /** Two public exposures of one node claim neither the same port of the same protocol nor the same domain. */
  ghost predicate Apart(a: Exposure, b: Exposure) {
    a.mode == "public" && b.mode == "public" && a.nodeId == b.nodeId ==>
      && (IsPortProtocol(a.protocol) && a.protocol == b.protocol ==> a.remotePort != b.remotePort)
      && (!IsPortProtocol(a.protocol) && !IsPortProtocol(b.protocol) ==> !EqualFold(a.domain, b.domain))
  }

  ghost predicate ExposuresGood(exposures: map<string, Exposure>, nodes: map<string, Node>, devices: map<string, Device>) {
    forall k | k in exposures ::
      exposures[k].id == k && WellFormed(exposures[k]) && Placed(exposures[k], nodes) && Owned(exposures[k], devices)
  }

  ghost predicate ExposuresApart(exposures: map<string, Exposure>) {
    forall a, b | a in exposures && b in exposures && a != b :: Apart(exposures[a], exposures[b])
  }

  ghost predicate RoutesGood(routes: map<string, AccessRoute>, exposures: map<string, Exposure>) {
    forall k | k in routes ::
      && routes[k].id == k && routes[k].exposureId in exposures
      && exposures[routes[k].exposureId].groupId == routes[k].groupId
  }

  ghost predicate DevicesKeyed(devices: map<string, Device>) {
    forall k | k in devices :: devices[k].id == k
  }

  ghost predicate NodesKeyed(nodes: map<string, Node>) {
    forall k | k in nodes :: nodes[k].id == k && ValidRanges(nodes[k].allowPorts)
  }

  ghost predicate GroupsKeyed(groups: map<string, Group>) {
    forall k | k in groups :: groups[k].id == k && IdPattern(k, 3)
  }

  // ---------- rooms ----------

  /** Every room device's room exists. */
  ghost predicate RoomsPresent(rooms: map<string, Room>, devices: map<string, RoomDevice>) {
    forall k | k in devices :: devices[k].id == k && devices[k].roomId in rooms
  }

  /** A room's host device is one of its devices, with the host role. */
  ghost predicate HostsPresent(rooms: map<string, Room>, devices: map<string, RoomDevice>) {
    forall r | r in rooms ::
      && rooms[r].id == r && rooms[r].serverName == ServerName(r)
      && rooms[r].hostDeviceId in devices
      && devices[rooms[r].hostDeviceId].roomId == r && devices[rooms[r].hostDeviceId].role == "host"
  }

  /** No other device has the host role. */
  ghost predicate OneHost(rooms: map<string, Room>, devices: map<string, RoomDevice>) {
    forall k | k in devices && devices[k].role == "host" && devices[k].roomId in rooms :: rooms[devices[k].roomId].hostDeviceId == k
  }

  ghost predicate RoomsGood(rooms: map<string, Room>, devices: map<string, RoomDevice>) {
    RoomsPresent(rooms, devices) && HostsPresent(rooms, devices) && OneHost(rooms, devices)
  }

  ghost predicate Inv(d: Data) {
    && GroupsKeyed(d.groups) && DevicesKeyed(d.devices) && NodesKeyed(d.nodes)
    && ExposuresGood(d.exposures, d.nodes, d.devices) && ExposuresApart(d.exposures)
    && RoutesGood(d.accessRoutes, d.exposures)
    && RoomsGood(d.rooms, d.roomDevices)
  }

  // ---------- groups, devices and nodes ----------

  lemma CreateGroupKeeps(d: Data, groupId: string, password: string, record: string, now: int)
    requires Inv(d)
    ensures Inv(CreateGroup(d, groupId, password, record, now).data)
  {
  }

  lemma DevicesGrow(exposures: map<string, Exposure>, nodes: map<string, Node>, devices: map<string, Device>, device: Device)
    requires DevicesKeyed(devices) && ExposuresGood(exposures, nodes, devices)
    requires device.id in devices ==> devices[device.id].groupId == device.groupId
    ensures DevicesKeyed(devices[device.id := device]) && ExposuresGood(exposures, nodes, devices[device.id := device])
  {
  }

  lemma JoinGroupKeeps(env: Env, d: Data, groupId: string, password: string, deviceName: string, id: string, token: string, now: int)
    requires Inv(d) && id !in d.devices
    ensures Inv(JoinGroup(env, d, groupId, password, deviceName, id, token, now).data)
  {
    DevicesGrow(d.exposures, d.nodes, d.devices, Device(id, groupId, TrimSpace(deviceName), env.hash(token), now, now));
  }

  lemma CheckDeviceKeeps(env: Env, d: Data, auth: DeviceAuth, now: int)
    requires Inv(d)
    ensures Inv(CheckDevice(env, d, auth, now).data)
  {
    if CheckDevice(env, d, auth, now).result.Ok? {
      DevicesGrow(d.exposures, d.nodes, d.devices, d.devices[auth.deviceId].(lastSeenAt := now));
    }
  }

  lemma NodeAdded(exposures: map<string, Exposure>, nodes: map<string, Node>, devices: map<string, Device>, node: Node)
    requires NodesKeyed(nodes) && ExposuresGood(exposures, nodes, devices) && node.id !in nodes && ValidRanges(node.allowPorts)
    ensures NodesKeyed(nodes[node.id := node]) && ExposuresGood(exposures, nodes[node.id := node], devices)
  {
  }

  lemma CreateNodeKeeps(d: Data, req: NodeRequest, id: string, now: int)
    requires Inv(d) && id !in d.nodes
    ensures Inv(CreateNode(d, req, id, now).data)
  {
    var r := CreateNode(d, req, id, now);
    if r.result.Ok? {
      NodeAdded(d.exposures, d.nodes, d.devices, r.result.value);
    }
  }

  lemma NodeRemoved(exposures: map<string, Exposure>, nodes: map<string, Node>, devices: map<string, Device>, nodeId: string)
    requires ExposuresGood(exposures, nodes, devices) && !NodeInUse(exposures, nodeId)
    ensures ExposuresGood(exposures, nodes - {nodeId}, devices)
  {
  }

  lemma DeleteNodeKeeps(d: Data, nodeId: string)
    requires Inv(d)
    ensures Inv(DeleteNode(d, nodeId).data)
  {
    if DeleteNode(d, nodeId).result.Ok? {
      NodeRemoved(d.exposures, d.nodes, d.devices, nodeId);
    }
  }

  // ---------- exposures ----------

  lemma ExposureAdded(d: Data, e: Exposure)
    requires Inv(d) && e.id !in d.exposures
    requires WellFormed(e) && Placed(e, d.nodes) && Owned(e, d.devices)
    requires forall k | k in d.exposures :: Apart(e, d.exposures[k]) && Apart(d.exposures[k], e)
    ensures Inv(d.(exposures := d.exposures[e.id := e]))
  {
  }

  lemma AddPrivateKeeps(env: Env, d: Data, auth: DeviceAuth, req: PrivateRequest, id: string, now: int)
    requires Inv(d) && id !in d.exposures && auth.deviceId in d.devices && d.devices[auth.deviceId].groupId == auth.groupId
    ensures Inv(AddPrivate(env, d, auth, req, id, now).data)
  {
    var r := AddPrivate(env, d, auth, req, id, now);
    if r.result.Ok? {
      ExposureAdded(d, r.result.value);
    }
  }

  /** What the node's check rules out. */
  lemma CheckedIsApart(d: Data, req: PublicRequest, e: Exposure)
    requires Inv(d) && req.nodeId in d.nodes && CheckPublic(d, d.nodes[req.nodeId], req).Pass?
    requires e.nodeId == req.nodeId && e.protocol == req.protocol && e.remotePort == req.remotePort && e.domain == req.domain
    requires e.mode == "public"
    ensures Placed(e, d.nodes)
    ensures forall k | k in d.exposures :: Apart(e, d.exposures[k]) && Apart(d.exposures[k], e)
  {
  }

  lemma AddPublicKeeps(env: Env, d: Data, auth: DeviceAuth, req: PublicRequest, id: string, now: int)
    requires Inv(d) && id !in d.exposures && auth.deviceId in d.devices && d.devices[auth.deviceId].groupId == auth.groupId
    ensures Inv(AddPublic(env, d, auth, req, id, now).data)
  {
    var r := AddPublic(env, d, auth, req, id, now);
    if r.result.Ok? {
      CheckedIsApart(d, req, r.result.value);
      ExposureAdded(d, r.result.value);
    }
  }

  /** Alike in all that the invariant speaks of. */
  ghost predicate Alike(a: Exposure, b: Exposure) {
    b == a.(enabled := b.enabled, updatedAt := b.updatedAt)
  }

  lemma ExposureChanged(d: Data, e: Exposure)
    requires Inv(d) && e.id in d.exposures && Alike(d.exposures[e.id], e)
    ensures Inv(d.(exposures := d.exposures[e.id := e]))
  {
    var next := d.exposures[e.id := e];
    assert forall k | k in next :: k in d.exposures && Alike(d.exposures[k], next[k]);
    AlikeGood(d.exposures, next, d.nodes, d.devices);
    AlikeApart(d.exposures, next);
  }

  lemma AlikeGood(exposures: map<string, Exposure>, next: map<string, Exposure>, nodes: map<string, Node>, devices: map<string, Device>)
    requires ExposuresGood(exposures, nodes, devices) && forall k | k in next :: k in exposures && Alike(exposures[k], next[k])
    ensures ExposuresGood(next, nodes, devices)
  {
  }

  lemma AlikeApart(exposures: map<string, Exposure>, next: map<string, Exposure>)
    requires ExposuresApart(exposures) && forall k | k in next :: k in exposures && Alike(exposures[k], next[k])
    ensures ExposuresApart(next)
  {
    forall a, b | a in next && b in next && a != b ensures Apart(next[a], next[b]) {
      assert Apart(exposures[a], exposures[b]);
    }
  }

  lemma SetExposureKeeps(d: Data, id: string, auth: DeviceAuth, enable: Option<bool>, now: int)
    requires Inv(d)
    ensures Inv(SetExposure(d, id, auth, enable, now).data)
  {
    var r := SetExposure(d, id, auth, enable, now);
    if r.result.Ok? {
      ExposureChanged(d, r.result.value);
    }
  }

  lemma RemoveExposureKeeps(d: Data, id: string, auth: DeviceAuth)
    requires Inv(d)
    ensures Inv(RemoveExposure(d, id, auth).data)
  {
  }

  lemma AddRouteKeeps(d: Data, auth: DeviceAuth, req: RouteRequest, id: string, now: int)
    requires Inv(d)
    ensures Inv(AddRoute(d, auth, req, id, now).data)
  {
  }

  // ---------- rooms ----------

  lemma RoomCreated(rooms: map<string, Room>, devices: map<string, RoomDevice>, room: Room, device: RoomDevice)
    requires RoomsGood(rooms, devices) && room.id !in rooms && device.id !in devices
    requires device.roomId == room.id && device.role == "host" && room.hostDeviceId == device.id && room.serverName == ServerName(room.id)
    ensures RoomsGood(rooms[room.id := room], devices[device.id := device])
  {
  }

  lemma CreateRoomKeeps(env: Env, d: Data, req: RoomRequest, draw: RoomDraw, now: int)
    requires Inv(d) && draw.roomId !in d.rooms && draw.deviceId !in d.roomDevices
    ensures Inv(CreateRoom(env, d, req, draw, now).data)
  {
    var r := CreateRoom(env, d, req, draw, now);
    if r.result.Ok? {
      RoomCreated(d.rooms, d.roomDevices, r.result.value,
                  RoomDevice(draw.deviceId, draw.roomId, TrimSpace(req.deviceName), "host", env.hash(draw.token), now, now));
    }
  }

  lemma DeviceJoined(rooms: map<string, Room>, devices: map<string, RoomDevice>, device: RoomDevice)
    requires RoomsGood(rooms, devices) && device.roomId in rooms && device.id !in devices && device.role != "host"
    ensures RoomsGood(rooms, devices[device.id := device])
  {
  }

  lemma JoinRoomKeeps(env: Env, d: Data, req: JoinRequest, id: string, token: string, now: int)
    requires Inv(d) && id !in d.roomDevices
    ensures Inv(JoinRoom(env, d, req, id, token, now).data)
  {
    var r := JoinRoom(env, d, req, id, token, now);
    if r.result.Ok? {
      DeviceJoined(d.rooms, d.roomDevices,
                   RoomDevice(id, RoomOfCode(req.roomCode).value, TrimSpace(req.deviceName), "visitor", env.hash(token), now, now));
    }
  }

  lemma DeviceSeen(rooms: map<string, Room>, devices: map<string, RoomDevice>, k: string, now: int)
    requires RoomsGood(rooms, devices) && k in devices
    ensures RoomsGood(rooms, devices[k := devices[k].(lastSeenAt := now)])
  {
  }

  lemma CheckRoomDeviceKeeps(env: Env, d: Data, auth: RoomAuth, requiredRole: string, now: int)
    requires Inv(d)
    ensures Inv(CheckRoomDevice(env, d, auth, requiredRole, now).data)
  {
    if CheckRoomDevice(env, d, auth, requiredRole, now).result.Ok? {
      DeviceSeen(d.rooms, d.roomDevices, auth.deviceId, now);
    }
  }

  lemma SetRoomKeeps(d: Data, roomId: string, auth: RoomAuth, enable: bool, now: int)
    requires Inv(d)
    ensures Inv(SetRoom(d, roomId, auth, enable, now).data)
  {
  }

  lemma RoomRemoved(rooms: map<string, Room>, devices: map<string, RoomDevice>, roomId: string)
    requires RoomsGood(rooms, devices)
    ensures RoomsGood(rooms - {roomId}, DevicesWithout(devices, roomId))
  {
  }

  lemma RemoveRoomKeeps(d: Data, roomId: string, auth: RoomAuth)
    requires Inv(d)
    ensures Inv(RemoveRoom(d, roomId, auth).data)
  {
    RoomRemoved(d.rooms, d.roomDevices, roomId);
  }
}
