/** The control server's data and what each locked section of its service does to it
    (internal/control/models.go, internal/control/service.go). Generated ids and tokens are parameters;
    operations that authenticate first consist of two such sections. */
module ControlModel {
  import opened Wrappers
  import opened Text
  import opened Validate

  datatype ServerConfig = ServerConfig(frpsAddr: string, frpsPort: int)

  datatype Group = Group(id: string, passwordHash: string, createdAt: int)

  datatype Device = Device(id: string, groupId: string, name: string, tokenHash: string, createdAt: int, lastSeenAt: int)

  datatype Node = Node(
    id: string, name: string, serverAddr: string, frpsPort: int, allowPorts: seq<PortRange>, domainSuffixes: seq<string>,
    createdAt: int)

  datatype Exposure = Exposure(
    id: string, groupId: string, deviceId: string, nodeId: string, name: string, mode: string, protocol: string,
    localIP: string, localPort: int, remotePort: int, domain: string, enabled: bool, createdAt: int, updatedAt: int)

  datatype AccessRoute = AccessRoute(
    id: string, groupId: string, deviceId: string, exposureId: string, bindAddr: string, bindPort: int,
    fallbackBindPort: int, createdAt: int)

  datatype Room = Room(
    id: string, name: string, serverName: string, codeHash: string, hostDeviceId: string, frpsAddr: string,
    frpsPort: int, enabled: bool, createdAt: int, updatedAt: int)

  datatype RoomDevice = RoomDevice(
    id: string, roomId: string, name: string, role: string, tokenHash: string, createdAt: int, lastSeenAt: int)

  datatype Data = Data(
    config: ServerConfig, groups: map<string, Group>, devices: map<string, Device>, nodes: map<string, Node>,
    exposures: map<string, Exposure>, accessRoutes: map<string, AccessRoute>, rooms: map<string, Room>,
    roomDevices: map<string, RoomDevice>)

  /** net.ParseIP, security.VerifyPassword (record, password) and security.HashToken. */
  datatype Env = Env(isIP: string -> bool, verify: (string, string) -> bool, hash: string -> string)

  /** The data after a locked section, and what the section answers. */
  datatype Reply<T> = Reply(data: Data, result: Result<T>)

  /** Two sections one after the other; the second runs when the first succeeds. */
  function InOrder<T>(first: Reply<()>, second: Reply<T>): Reply<T> {
    if first.result.Err? then Reply(first.data, Err(first.result.error)) else second
  }

  // ---------- groups and devices ----------

  function CreateGroup(d: Data, groupId: string, password: string, record: string, now: int): Reply<Group> {
    if !IdPattern(groupId, 3) then Reply(d, Err(BadRequest))
    else if |password| < 8 then Reply(d, Err(BadRequest))
    else if groupId in d.groups then Reply(d, Err(Conflict))
    else
      var group := Group(groupId, record, now);
      Reply(d.(groups := d.groups[groupId := group]), Ok(group))
  }

  function JoinGroup(env: Env, d: Data, groupId: string, password: string, deviceName: string, id: string, token: string, now: int): Reply<Device> {
    if !IdPattern(groupId, 3) then Reply(d, Err(BadRequest))
    else if !Name(deviceName) then Reply(d, Err(BadRequest))
    else if groupId !in d.groups then Reply(d, Err(NotFound))
    else if !env.verify(d.groups[groupId].passwordHash, password) then Reply(d, Err(Unauthorized))
    else
      var device := Device(id, groupId, TrimSpace(deviceName), env.hash(token), now, now);
      Reply(d.(devices := d.devices[id := device]), Ok(device))
  }

  predicate TokenFits(env: Env, token: string, encodedHash: string) {
    token != "" && encodedHash != "" && env.hash(token) == encodedHash
  }

  datatype DeviceAuth = DeviceAuth(groupId: string, deviceId: string, deviceToken: string)

  /** validateDevice */
  function CheckDevice(env: Env, d: Data, auth: DeviceAuth, now: int): Reply<()> {
    if auth.groupId == "" || auth.deviceId == "" || auth.deviceToken == "" then Reply(d, Err(Unauthorized))
    else if auth.deviceId !in d.devices || d.devices[auth.deviceId].groupId != auth.groupId then Reply(d, Err(Unauthorized))
    else if !TokenFits(env, auth.deviceToken, d.devices[auth.deviceId].tokenHash) then Reply(d, Err(Unauthorized))
    else Reply(d.(devices := d.devices[auth.deviceId := d.devices[auth.deviceId].(lastSeenAt := now)]), Ok(()))
  }

  // ---------- nodes ----------

  datatype NodeRequest = NodeRequest(
    name: string, serverAddr: string, frpsPort: int, allowPorts: seq<PortRange>, domainSuffixes: seq<string>)

  function CreateNode(d: Data, req: NodeRequest, id: string, now: int): Reply<Node> {
    if !Name(req.name) || TrimSpace(req.serverAddr) == "" || !Port(req.frpsPort) || !ValidRanges(req.allowPorts)
    then Reply(d, Err(BadRequest))
    else
      var node := Node(id, TrimSpace(req.name), TrimSpace(req.serverAddr), req.frpsPort, req.allowPorts, req.domainSuffixes, now);
      Reply(d.(nodes := d.nodes[id := node]), Ok(node))
  }

  predicate NodeInUse(exposures: map<string, Exposure>, nodeId: string) {
    exists k | k in exposures :: exposures[k].nodeId == nodeId
  }

  function DeleteNode(d: Data, nodeId: string): Reply<()> {
    if nodeId !in d.nodes then Reply(d, Err(NotFound))
    else if NodeInUse(d.exposures, nodeId) then Reply(d, Err(Conflict))
    else Reply(d.(nodes := d.nodes - {nodeId}), Ok(()))
  }

  // ---------- exposures ----------

  datatype PrivateRequest = PrivateRequest(name: string, localIP: string, localPort: int)

  /** The second section of CreatePrivateExposure, with the checks before it. */
  function AddPrivate(env: Env, d: Data, auth: DeviceAuth, req: PrivateRequest, id: string, now: int): Reply<Exposure> {
    if !Name(req.name) || !LocalIP(env.isIP, req.localIP) || !Port(req.localPort) then Reply(d, Err(BadRequest))
    else
      var e := Exposure(id, auth.groupId, auth.deviceId, "", TrimSpace(req.name), "private", "xtcp", req.localIP, req.localPort,
                        0, "", true, now, now);
      Reply(d.(exposures := d.exposures[id := e]), Ok(e))
  }

  datatype PublicRequest = PublicRequest(
    nodeId: string, name: string, protocol: string, localIP: string, localPort: int, remotePort: int, domain: string)

  predicate PortAllowed(port: int, ranges: seq<PortRange>) {
    if |ranges| == 0 then UserRemotePort(port) else InSomeRange(port, ranges)
  }

  predicate PortInUse(exposures: map<string, Exposure>, nodeId: string, protocol: string, port: int) {
    exists k | k in exposures ::
      exposures[k].nodeId == nodeId && exposures[k].protocol == protocol && exposures[k].remotePort == port
  }

  predicate DomainInUse(exposures: map<string, Exposure>, nodeId: string, domain: string) {
    exists k | k in exposures :: exposures[k].nodeId == nodeId && EqualFold(exposures[k].domain, domain)
  }

  predicate IsPortProtocol(protocol: string) { protocol == "tcp" || protocol == "udp" }

  /** What the node has to say about a new public exposure. */
  function CheckPublic(d: Data, node: Node, req: PublicRequest): Outcome {
    if IsPortProtocol(req.protocol) then
      if !UserRemotePort(req.remotePort) then Fail(BadRequest)
      else if !PortAllowed(req.remotePort, node.allowPorts) then Fail(BadRequest)
      else if PortInUse(d.exposures, req.nodeId, req.protocol, req.remotePort) then Fail(Conflict)
      else Pass
    else if !Domain(req.domain, node.domainSuffixes) then Fail(BadRequest)
    else if DomainInUse(d.exposures, req.nodeId, req.domain) then Fail(Conflict)
    else Pass
  }

  /** The second section of CreatePublicExposure, with the checks before it. */
  function AddPublic(env: Env, d: Data, auth: DeviceAuth, req: PublicRequest, id: string, now: int): Reply<Exposure> {
    if !Name(req.name) || !Protocol(req.protocol) || !LocalIP(env.isIP, req.localIP) || !Port(req.localPort)
    then Reply(d, Err(BadRequest))
    else if req.nodeId !in d.nodes then Reply(d, Err(NotFound))
    else
      var check := CheckPublic(d, d.nodes[req.nodeId], req);
      if check.Fail? then Reply(d, Err(check.error))
      else
        var e := Exposure(id, auth.groupId, auth.deviceId, req.nodeId, TrimSpace(req.name), "public", req.protocol, req.localIP,
                          req.localPort, req.remotePort, req.domain, true, now, now);
        Reply(d.(exposures := d.exposures[id := e]), Ok(e))
  }

  predicate Owns(auth: DeviceAuth, e: Exposure) {
    e.groupId == auth.groupId && e.deviceId == auth.deviceId
  }

  /** The second section of UpdateExposure. */
  function SetExposure(d: Data, id: string, auth: DeviceAuth, enable: Option<bool>, now: int): Reply<Exposure> {
    if id !in d.exposures then Reply(d, Err(NotFound))
    else if !Owns(auth, d.exposures[id]) then Reply(d, Err(Unauthorized))
    else
      var e := d.exposures[id].(enabled := if enable.Some? then enable.value else d.exposures[id].enabled, updatedAt := now);
      Reply(d.(exposures := d.exposures[id := e]), Ok(e))
  }

  function RoutesWithout(routes: map<string, AccessRoute>, exposureId: string): map<string, AccessRoute> {
    map k | k in routes && routes[k].exposureId != exposureId :: routes[k]
  }

  /** The second section of DeleteExposure: the exposure goes, and its routes with it. */
  function RemoveExposure(d: Data, id: string, auth: DeviceAuth): Reply<()> {
    if id !in d.exposures then Reply(d, Err(NotFound))
    else if !Owns(auth, d.exposures[id]) then Reply(d, Err(Unauthorized))
    else Reply(d.(exposures := d.exposures - {id}, accessRoutes := RoutesWithout(d.accessRoutes, id)), Ok(()))
  }

  // ---------- routes ----------

  datatype RouteRequest = RouteRequest(exposureId: string, bindAddr: string, bindPort: int, fallbackBindPort: int)

  /** The second section of CreateAccessRoute, with the checks before it. */
  function AddRoute(d: Data, auth: DeviceAuth, req: RouteRequest, id: string, now: int): Reply<AccessRoute> {
    if !Port(req.bindPort) then Reply(d, Err(BadRequest))
    else if req.fallbackBindPort != 0 && (!Port(req.fallbackBindPort) || req.fallbackBindPort == req.bindPort)
    then Reply(d, Err(BadRequest))
    else if req.exposureId !in d.exposures then Reply(d, Err(NotFound))
    else if d.exposures[req.exposureId].groupId != auth.groupId then Reply(d, Err(Unauthorized))
    else
      var route := AccessRoute(id, auth.groupId, auth.deviceId, req.exposureId, if req.bindAddr == "" then "127.0.0.1" else req.bindAddr,
                               req.bindPort, req.fallbackBindPort, now);
      Reply(d.(accessRoutes := d.accessRoutes[id := route]), Ok(route))
  }

  // ---------- rooms ----------

  function ServerName(roomId: string): string { "room." + roomId + ".xtcp" }

  function RoomCode(roomId: string, secret: string): string { roomId + "." + secret }

  datatype RoomRequest = RoomRequest(name: string, deviceName: string)

  /** What newID and NewToken draw for a new room. */
  datatype RoomDraw = RoomDraw(roomId: string, deviceId: string, secret: string, token: string)

  function CreateRoom(env: Env, d: Data, req: RoomRequest, draw: RoomDraw, now: int): Reply<Room> {
    var frpsAddr := TrimSpace(d.config.frpsAddr);
    var frpsPort := if d.config.frpsPort == 0 then 7000 else d.config.frpsPort;
    if !Name(req.name) || !Name(req.deviceName) then Reply(d, Err(BadRequest))
    else if frpsAddr == "" || !Port(frpsPort) then Reply(d, Err(BadRequest))
    else
      var device := RoomDevice(draw.deviceId, draw.roomId, TrimSpace(req.deviceName), "host", env.hash(draw.token), now, now);
      var room := Room(draw.roomId, TrimSpace(req.name), ServerName(draw.roomId), env.hash(RoomCode(draw.roomId, draw.secret)),
                       draw.deviceId, frpsAddr, frpsPort, true, now, now);
      Reply(d.(rooms := d.rooms[room.id := room], roomDevices := d.roomDevices[device.id := device]), Ok(room))
  }

  /** The position of the first separator, or the length. */
  function IndexOf(s: string, sep: char): (i: nat)
    ensures i <= |s| && sep !in s[..i]
    ensures i < |s| ==> s[i] == sep
  {
    if s == "" || s[0] == sep then 0 else 1 + IndexOf(s[1..], sep)
  }

  /** ParseRoomCode: the room id of a code `<roomId>.<secret>`. */
  function RoomOfCode(code: string): Option<string> {
    var t := TrimSpace(code);
    var i := IndexOf(t, '.');
    if 0 < i && i + 1 < |t| then Some(t[..i]) else None
  }

  function Members(devices: map<string, RoomDevice>, roomId: string): set<string> {
    set k | k in devices && devices[k].roomId == roomId
  }

  datatype JoinRequest = JoinRequest(roomCode: string, deviceName: string)

  /** JoinRoom answers the number of members. */
  function JoinRoom(env: Env, d: Data, req: JoinRequest, id: string, token: string, now: int): Reply<nat> {
    var roomId := RoomOfCode(req.roomCode);
    if roomId.None? || !Name(req.deviceName) then Reply(d, Err(BadRequest))
    else if roomId.value !in d.rooms then Reply(d, Err(NotFound))
    else if !d.rooms[roomId.value].enabled then Reply(d, Err(BadRequest))
    else if env.hash(TrimSpace(req.roomCode)) != d.rooms[roomId.value].codeHash then Reply(d, Err(Unauthorized))
    else
      var device := RoomDevice(id, roomId.value, TrimSpace(req.deviceName), "visitor", env.hash(token), now, now);
      var devices := d.roomDevices[id := device];
      Reply(d.(roomDevices := devices), Ok(|Members(devices, d.rooms[roomId.value].id)|))
  }

  datatype RoomAuth = RoomAuth(roomId: string, deviceId: string, deviceToken: string)

  /** validateRoomDevice; no required role is the empty string. */
  function CheckRoomDevice(env: Env, d: Data, auth: RoomAuth, requiredRole: string, now: int): Reply<()> {
    if auth.roomId == "" || auth.deviceId == "" || auth.deviceToken == "" then Reply(d, Err(Unauthorized))
    else if auth.roomId !in d.rooms then Reply(d, Err(Unauthorized))
    else if !d.rooms[auth.roomId].enabled && requiredRole != "host" then Reply(d, Err(Unauthorized))
    else if auth.deviceId !in d.roomDevices || d.roomDevices[auth.deviceId].roomId != auth.roomId then Reply(d, Err(Unauthorized))
    else if requiredRole != "" && d.roomDevices[auth.deviceId].role != requiredRole then Reply(d, Err(Unauthorized))
    else if !TokenFits(env, auth.deviceToken, d.roomDevices[auth.deviceId].tokenHash) then Reply(d, Err(Unauthorized))
    else Reply(d.(roomDevices := d.roomDevices[auth.deviceId := d.roomDevices[auth.deviceId].(lastSeenAt := now)]), Ok(()))
  }

  /** The second section of UpdateRoom. */
  function SetRoom(d: Data, roomId: string, auth: RoomAuth, enable: bool, now: int): Reply<Room> {
    if roomId !in d.rooms then Reply(d, Err(NotFound))
    else if d.rooms[roomId].id != auth.roomId then Reply(d, Err(Unauthorized))
    else
      var room := d.rooms[roomId].(enabled := enable, updatedAt := now);
      Reply(d.(rooms := d.rooms[room.id := room]), Ok(room))
  }

  function DevicesWithout(devices: map<string, RoomDevice>, roomId: string): map<string, RoomDevice> {
    map k | k in devices && devices[k].roomId != roomId :: devices[k]
  }

  /** The second section of DeleteRoom: the room goes, and its devices with it. */
  function RemoveRoom(d: Data, roomId: string, auth: RoomAuth): Reply<()> {
    if roomId !in d.rooms then Reply(d, Err(NotFound))
    else if d.rooms[roomId].id != auth.roomId then Reply(d, Err(Unauthorized))
    else Reply(d.(rooms := d.rooms - {roomId}, roomDevices := DevicesWithout(d.roomDevices, roomId)), Ok(()))
  }

  // ---------- the room code ----------

  lemma {:induction false} IndexOfFirst(a: string, rest: string, sep: char)
    requires sep !in a
    ensures IndexOf(a + [sep] + rest, sep) == |a|
  {
    if a == "" {
      assert a + [sep] + rest == [sep] + rest;
    } else {
      IndexOfFirst(a[1..], rest, sep);
      assert (a + [sep] + rest)[1..] == a[1..] + [sep] + rest;
    }
  }

  /** The code handed out for a room leads back to it. */
  lemma CodeLeadsToRoom(roomId: string, secret: string)
    requires roomId != "" && secret != "" && '.' !in roomId && !IsSpace(roomId[0]) && !IsSpace(secret[|secret| - 1])
    ensures TrimSpace(RoomCode(roomId, secret)) == RoomCode(roomId, secret)
    ensures RoomOfCode(RoomCode(roomId, secret)) == Some(roomId)
  {
    var code := RoomCode(roomId, secret);
    assert code[0] == roomId[0] && code[|code| - 1] == secret[|secret| - 1];
    assert code == roomId + ['.'] + secret;
    IndexOfFirst(roomId, secret, '.');
    assert code[..|roomId|] == roomId;
  }

  lemma TwoMembers(devices: map<string, RoomDevice>, a: RoomDevice, b: RoomDevice, roomId: string)
    requires a.id != b.id && a.roomId == roomId && b.roomId == roomId
    requires forall k | k in devices :: devices[k].roomId != roomId
    ensures |Members(devices[a.id := a][b.id := b], roomId)| == 2
  {
    assert Members(devices[a.id := a][b.id := b], roomId) == {a.id, b.id};
  }

  /** Whoever has the code of a room just created can join it, as its second member. */
  lemma CreatedRoomCanBeJoined(env: Env, d: Data, req: RoomRequest, draw: RoomDraw, now: int, deviceName: string, id: string, token: string, later: int)
    requires CreateRoom(env, d, req, draw, now).result.Ok? && Name(deviceName)
    requires draw.roomId != "" && draw.secret != "" && '.' !in draw.roomId && !IsSpace(draw.roomId[0])
    requires !IsSpace(draw.secret[|draw.secret| - 1])
    requires id != draw.deviceId
    requires forall k | k in d.roomDevices :: d.roomDevices[k].roomId != draw.roomId
    ensures JoinRoom(env, CreateRoom(env, d, req, draw, now).data, JoinRequest(RoomCode(draw.roomId, draw.secret), deviceName), id, token, later)
            .result == Ok(2)
  {
    CodeLeadsToRoom(draw.roomId, draw.secret);
    TwoMembers(d.roomDevices,
               RoomDevice(draw.deviceId, draw.roomId, TrimSpace(req.deviceName), "host", env.hash(draw.token), now, now),
               RoomDevice(id, draw.roomId, TrimSpace(deviceName), "visitor", env.hash(token), later, later), draw.roomId);
  }
}
