/** The control server under concurrency. Every locked section is one step; an operation that authenticates
    first is two steps with anything in between. Drawn ids are fresh (internal/control/service.go,
    internal/storage/json_file.go). */
module ControlSteps {
  import opened Wrappers
  import opened Text
  import opened Validate
  import opened ControlModel
  import opened ControlInvariant

  /** What an authenticated device wants. */
  datatype Act =
    | NewPrivate(privateReq: PrivateRequest)
    | NewPublic(publicReq: PublicRequest)
    | ChangeExposure(exposureId: string, enable: Option<bool>)
    | DropExposure(exposureId: string)
    | NewRoute(routeReq: RouteRequest)

  /** What an authenticated host device wants. */
  datatype RoomAct = EnableRoom(roomId: string, enable: bool) | DropRoom(roomId: string)

  datatype Pending = DevicePending(auth: DeviceAuth, act: Act) | RoomPending(roomAuth: RoomAuth, roomAct: RoomAct)

  /** `used` holds every id ever drawn; `joins` counts the successful joins of each room. */
  datatype System = System(data: Data, pending: map<nat, Pending>, used: set<string>, joins: map<string, nat>)

  datatype Event =
    | MakeGroup(groupId: string, password: string, record: string, now: int)
    | EnterGroup(groupId: string, password: string, deviceName: string, id: string, token: string, now: int)
    | MakeNode(nodeReq: NodeRequest, id: string, now: int)
    | DropNode(nodeId: string)
    | Begin(thread: nat, auth: DeviceAuth, act: Act, now: int)             // first section: authenticate
    | BeginRoom(thread: nat, roomAuth: RoomAuth, roomAct: RoomAct, now: int)
    | Finish(thread: nat, id: string, now: int)                            // second section: act
    | MakeRoom(roomReq: RoomRequest, draw: RoomDraw, now: int)
    | EnterRoom(joinReq: JoinRequest, id: string, token: string, now: int)
    | Seen(roomAuth: RoomAuth, role: string, now: int)                     // the frps plugin authenticates a room device

  function Drawn(e: Event): set<string> {
    match e
    case EnterGroup(_, _, _, id, _, _) => {id}
    case MakeNode(_, id, _) => {id}
    case Finish(_, id, _) => {id}
    case MakeRoom(_, draw, _) => {draw.roomId, draw.deviceId}
    case EnterRoom(_, id, _, _) => {id}
    case _ => {}
  }

  ghost predicate Fresh(s: System, e: Event) {
    Drawn(e) !! s.used && (e.MakeRoom? ==> e.draw.roomId != e.draw.deviceId)
  }

  function Erase<T>(r: Reply<T>): Reply<()> {
    Reply(r.data, if r.result.Ok? then Ok(()) else Err(r.result.error))
  }

  function PerformDevice(env: Env, d: Data, auth: DeviceAuth, act: Act, id: string, now: int): Reply<()> {
    match act
    case NewPrivate(req) => Erase(AddPrivate(env, d, auth, req, id, now))
    case NewPublic(req) => Erase(AddPublic(env, d, auth, req, id, now))
    case ChangeExposure(exposureId, enable) => Erase(SetExposure(d, exposureId, auth, enable, now))
    case DropExposure(exposureId) => RemoveExposure(d, exposureId, auth)
    case NewRoute(req) => Erase(AddRoute(d, auth, req, id, now))
  }

  function PerformRoom(d: Data, auth: RoomAuth, act: RoomAct, now: int): Reply<()> {
    match act
    case EnableRoom(roomId, enable) => Erase(SetRoom(d, roomId, auth, enable, now))
    case DropRoom(roomId) => RemoveRoom(d, roomId, auth)
  }

  function Perform(env: Env, d: Data, p: Pending, id: string, now: int): Reply<()> {
    match p
    case DevicePending(auth, act) => PerformDevice(env, d, auth, act, id, now)
    case RoomPending(auth, act) => PerformRoom(d, auth, act, now)
  }

  /** What one step does to the data. */
  function Section(env: Env, s: System, e: Event): Reply<()> {
    match e
    case MakeGroup(groupId, password, record, now) => Erase(CreateGroup(s.data, groupId, password, record, now))
    case EnterGroup(groupId, password, deviceName, id, token, now) =>
      Erase(JoinGroup(env, s.data, groupId, password, deviceName, id, token, now))
    case MakeNode(req, id, now) => Erase(CreateNode(s.data, req, id, now))
    case DropNode(nodeId) => DeleteNode(s.data, nodeId)
    case Begin(t, auth, act, now) => CheckDevice(env, s.data, auth, now)
    case BeginRoom(t, auth, act, now) => CheckRoomDevice(env, s.data, auth, "host", now)
    case Finish(t, id, now) =>
      if t in s.pending then Perform(env, s.data, s.pending[t], id, now) else Reply(s.data, Err(Internal))
    case MakeRoom(req, draw, now) => Erase(CreateRoom(env, s.data, req, draw, now))
    case EnterRoom(req, id, token, now) => Erase(JoinRoom(env, s.data, req, id, token, now))
    case Seen(auth, role, now) => CheckRoomDevice(env, s.data, auth, role, now)
  }

  function PendingAfter(s: System, e: Event, ok: bool): map<nat, Pending> {
    match e
    case Begin(t, auth, act, _) => if ok then s.pending[t := DevicePending(auth, act)] else s.pending
    case BeginRoom(t, auth, act, _) => if ok then s.pending[t := RoomPending(auth, act)] else s.pending
    case Finish(t, _, _) => s.pending - {t}
    case _ => s.pending
  }

  function JoinsAfter(s: System, e: Event, ok: bool): map<string, nat> {
    if !ok then s.joins
    else
      match e
      case MakeRoom(_, draw, _) => s.joins[draw.roomId := 0]
      case EnterRoom(req, _, _, _) =>
        var room := RoomOfCode(req.roomCode);
        if room.Some? && room.value in s.joins then s.joins[room.value := s.joins[room.value] + 1] else s.joins
      case _ => s.joins
  }

  function Next(env: Env, s: System, e: Event): System {
    var r := Section(env, s, e);
    System(r.data, PendingAfter(s, e, r.result.Ok?), s.used + Drawn(e), JoinsAfter(s, e, r.result.Ok?))
  }

  function Run(env: Env, s: System, events: seq<Event>): System
    decreases |events|
  {
    if events == [] then s else Run(env, Next(env, s, events[0]), events[1..])
  }

  /** Every id drawn along the run is new. */
  ghost predicate FreshRun(env: Env, s: System, events: seq<Event>)
    decreases |events|
  {
    events != [] ==> Fresh(s, events[0]) && FreshRun(env, Next(env, s, events[0]), events[1..])
  }

  function Start(config: ServerConfig): System {
    System(Data(config, map[], map[], map[], map[], map[], map[], map[]), map[], {}, map[])
  }

  // ---------- the invariant of a run ----------

  ghost predicate Within<V>(m: map<string, V>, used: set<string>) {
    forall k | k in m :: k in used
  }

  ghost predicate KeysUsed(d: Data, used: set<string>) {
    && Within(d.devices, used) && Within(d.nodes, used) && Within(d.exposures, used) && Within(d.accessRoutes, used)
    && Within(d.rooms, used) && Within(d.roomDevices, used)
  }

  /** An authentication that succeeded stays true: devices never leave their group. */
  ghost predicate Authentic(pending: map<nat, Pending>, devices: map<string, Device>) {
    forall t | t in pending && pending[t].DevicePending? ::
      pending[t].auth.deviceId in devices && devices[pending[t].auth.deviceId].groupId == pending[t].auth.groupId
  }

  ghost predicate Counted(rooms: map<string, Room>, devices: map<string, RoomDevice>, joins: map<string, nat>) {
    forall r | r in rooms :: r in joins && |Members(devices, r)| == 1 + joins[r]
  }

  ghost predicate Sound(s: System) {
    && Inv(s.data) && KeysUsed(s.data, s.used) && Authentic(s.pending, s.data.devices)
    && Counted(s.data.rooms, s.data.roomDevices, s.joins)
  }

  // ---------- one step ----------

  lemma PerformDeviceKeeps(env: Env, d: Data, auth: DeviceAuth, act: Act, id: string, now: int)
    requires Inv(d) && auth.deviceId in d.devices && d.devices[auth.deviceId].groupId == auth.groupId
    requires id !in d.exposures && id !in d.accessRoutes
    ensures Inv(PerformDevice(env, d, auth, act, id, now).data)
  {
    match act
    case NewPrivate(req) => AddPrivateKeeps(env, d, auth, req, id, now);
    case NewPublic(req) => AddPublicKeeps(env, d, auth, req, id, now);
    case ChangeExposure(exposureId, enable) => SetExposureKeeps(d, exposureId, auth, enable, now);
    case DropExposure(exposureId) => RemoveExposureKeeps(d, exposureId, auth);
    case NewRoute(req) => AddRouteKeeps(d, auth, req, id, now);
  }

  lemma PerformRoomKeeps(d: Data, auth: RoomAuth, act: RoomAct, now: int)
    requires Inv(d)
    ensures Inv(PerformRoom(d, auth, act, now).data)
  {
    match act
    case EnableRoom(roomId, enable) => SetRoomKeeps(d, roomId, auth, enable, now);
    case DropRoom(roomId) => RemoveRoomKeeps(d, roomId, auth);
  }

  lemma PerformKeeps(env: Env, s: System, t: nat, id: string, now: int)
    requires Sound(s) && t in s.pending && id !in s.used
    ensures Inv(Perform(env, s.data, s.pending[t], id, now).data)
  {
    match s.pending[t]
    case DevicePending(auth, act) => PerformDeviceKeeps(env, s.data, auth, act, id, now);
    case RoomPending(auth, act) => PerformRoomKeeps(s.data, auth, act, now);
  }

  lemma SectionKeeps(env: Env, s: System, e: Event)
    requires Sound(s) && Fresh(s, e)
    ensures Inv(Section(env, s, e).data)
  {
    match e
    case MakeGroup(groupId, password, record, now) => CreateGroupKeeps(s.data, groupId, password, record, now);
    case EnterGroup(groupId, password, deviceName, id, token, now) =>
      JoinGroupKeeps(env, s.data, groupId, password, deviceName, id, token, now);
    case MakeNode(req, id, now) => CreateNodeKeeps(s.data, req, id, now);
    case DropNode(nodeId) => DeleteNodeKeeps(s.data, nodeId);
    case Begin(t, auth, act, now) => CheckDeviceKeeps(env, s.data, auth, now);
    case BeginRoom(t, auth, act, now) => CheckRoomDeviceKeeps(env, s.data, auth, "host", now);
    case Finish(t, id, now) =>
      if t in s.pending {
        PerformKeeps(env, s, t, id, now);
      }
    case MakeRoom(req, draw, now) => CreateRoomKeeps(env, s.data, req, draw, now);
    case EnterRoom(req, id, token, now) => JoinRoomKeeps(env, s.data, req, id, token, now);
    case Seen(auth, role, now) => CheckRoomDeviceKeeps(env, s.data, auth, role, now);
  }

  ghost predicate Grows<V>(m: map<string, V>, m': map<string, V>, drawn: set<string>) {
    forall k | k in m' :: k in m || k in drawn
  }

  /** New keys are drawn ids. */
  ghost predicate GrowsBy(d: Data, d': Data, drawn: set<string>) {
    && Grows(d.devices, d'.devices, drawn) && Grows(d.nodes, d'.nodes, drawn) && Grows(d.exposures, d'.exposures, drawn)
    && Grows(d.accessRoutes, d'.accessRoutes, drawn) && Grows(d.rooms, d'.rooms, drawn)
    && Grows(d.roomDevices, d'.roomDevices, drawn)
  }

  lemma PrivateGrows(env: Env, d: Data, auth: DeviceAuth, req: PrivateRequest, id: string, now: int)
    ensures GrowsBy(d, AddPrivate(env, d, auth, req, id, now).data, {id})
  {
  }

  lemma PublicGrows(env: Env, d: Data, auth: DeviceAuth, req: PublicRequest, id: string, now: int)
    ensures GrowsBy(d, AddPublic(env, d, auth, req, id, now).data, {id})
  {
  }

  lemma SetExposureGrows(d: Data, exposureId: string, auth: DeviceAuth, enable: Option<bool>, id: string, now: int)
    ensures GrowsBy(d, SetExposure(d, exposureId, auth, enable, now).data, {id})
  {
  }

  lemma RemoveExposureGrows(d: Data, exposureId: string, auth: DeviceAuth, id: string)
    ensures GrowsBy(d, RemoveExposure(d, exposureId, auth).data, {id})
  {
  }

  lemma RouteGrows(d: Data, auth: DeviceAuth, req: RouteRequest, id: string, now: int)
    ensures GrowsBy(d, AddRoute(d, auth, req, id, now).data, {id})
  {
  }

  ghost predicate RoomsKeyed(rooms: map<string, Room>) {
    forall r | r in rooms :: rooms[r].id == r
  }

  lemma SetRoomGrows(d: Data, roomId: string, auth: RoomAuth, enable: bool, now: int, id: string)
    requires RoomsKeyed(d.rooms)
    ensures GrowsBy(d, SetRoom(d, roomId, auth, enable, now).data, {id})
  {
  }

  lemma RemoveRoomGrows(d: Data, roomId: string, auth: RoomAuth, id: string)
    ensures GrowsBy(d, RemoveRoom(d, roomId, auth).data, {id})
  {
  }

  lemma PerformGrows(env: Env, d: Data, p: Pending, id: string, now: int)
    requires RoomsKeyed(d.rooms)
    ensures GrowsBy(d, Perform(env, d, p, id, now).data, {id})
  {
    match p {
      case DevicePending(auth, act) =>
        match act {
          case NewPrivate(req) => PrivateGrows(env, d, auth, req, id, now);
          case NewPublic(req) => PublicGrows(env, d, auth, req, id, now);
          case ChangeExposure(exposureId, enable) => SetExposureGrows(d, exposureId, auth, enable, id, now);
          case DropExposure(exposureId) => RemoveExposureGrows(d, exposureId, auth, id);
          case NewRoute(req) => RouteGrows(d, auth, req, id, now);
        }
      case RoomPending(auth, act) =>
        match act {
          case EnableRoom(roomId, enable) => SetRoomGrows(d, roomId, auth, enable, now, id);
          case DropRoom(roomId) => RemoveRoomGrows(d, roomId, auth, id);
        }
    }
  }

  lemma ChecksGrow(env: Env, d: Data, auth: DeviceAuth, roomAuth: RoomAuth, role: string, now: int)
    ensures GrowsBy(d, CheckDevice(env, d, auth, now).data, {})
    ensures GrowsBy(d, CheckRoomDevice(env, d, roomAuth, role, now).data, {})
  {
  }

  lemma CreateGroupGrows(d: Data, groupId: string, password: string, record: string, now: int)
    ensures GrowsBy(d, CreateGroup(d, groupId, password, record, now).data, {})
  {
  }

  lemma JoinGroupGrows(env: Env, d: Data, groupId: string, password: string, deviceName: string, id: string, token: string, now: int)
    ensures GrowsBy(d, JoinGroup(env, d, groupId, password, deviceName, id, token, now).data, {id})
  {
  }

  lemma CreateNodeGrows(d: Data, req: NodeRequest, id: string, now: int)
    ensures GrowsBy(d, CreateNode(d, req, id, now).data, {id})
  {
  }

  lemma DeleteNodeGrows(d: Data, nodeId: string)
    ensures GrowsBy(d, DeleteNode(d, nodeId).data, {})
  {
  }

  lemma CreateRoomGrows(env: Env, d: Data, req: RoomRequest, draw: RoomDraw, now: int)
    ensures GrowsBy(d, CreateRoom(env, d, req, draw, now).data, {draw.roomId, draw.deviceId})
  {
  }

  lemma JoinRoomGrows(env: Env, d: Data, req: JoinRequest, id: string, token: string, now: int)
    ensures GrowsBy(d, JoinRoom(env, d, req, id, token, now).data, {id})
  {
  }

  lemma SectionGrows(env: Env, s: System, e: Event)
    requires RoomsKeyed(s.data.rooms)
    ensures GrowsBy(s.data, Section(env, s, e).data, Drawn(e))
  {
    match e
    case Begin(_, auth, _, now) => ChecksGrow(env, s.data, auth, RoomAuth("", "", ""), "", now);
    case BeginRoom(_, auth, _, now) => ChecksGrow(env, s.data, DeviceAuth("", "", ""), auth, "host", now);
    case Seen(auth, role, now) => ChecksGrow(env, s.data, DeviceAuth("", "", ""), auth, role, now);
    case Finish(t, id, now) =>
      if t in s.pending {
        PerformGrows(env, s.data, s.pending[t], id, now);
      }
    case MakeGroup(groupId, password, record, now) => CreateGroupGrows(s.data, groupId, password, record, now);
    case EnterGroup(groupId, password, deviceName, id, token, now) =>
      JoinGroupGrows(env, s.data, groupId, password, deviceName, id, token, now);
    case MakeNode(req, id, now) => CreateNodeGrows(s.data, req, id, now);
    case DropNode(nodeId) => DeleteNodeGrows(s.data, nodeId);
    case MakeRoom(req, draw, now) => CreateRoomGrows(env, s.data, req, draw, now);
    case EnterRoom(req, id, token, now) => JoinRoomGrows(env, s.data, req, id, token, now);
  }

  /** Devices stay, in their group and with their token. */
  ghost predicate DevicesStay(devices: map<string, Device>, devices': map<string, Device>) {
    forall k | k in devices ::
      k in devices' && devices'[k].groupId == devices[k].groupId && devices'[k].tokenHash == devices[k].tokenHash
  }

  lemma PerformKeepsDevices(env: Env, d: Data, p: Pending, id: string, now: int)
    ensures Perform(env, d, p, id, now).data.devices == d.devices
  {
  }

  lemma SectionKeepsDevices(env: Env, s: System, e: Event)
    requires KeysUsed(s.data, s.used) && Fresh(s, e)
    ensures DevicesStay(s.data.devices, Section(env, s, e).data.devices)
  {
    if e.Finish? && e.thread in s.pending {
      PerformKeepsDevices(env, s.data, s.pending[e.thread], e.id, e.now);
    }
  }

  lemma PendingStaysAuthentic(env: Env, s: System, e: Event)
    requires Sound(s) && Fresh(s, e)
    ensures Authentic(Next(env, s, e).pending, Next(env, s, e).data.devices)
  {
    SectionKeepsDevices(env, s, e);
  }

  // ---------- counting members ----------

  lemma SameMembers(devices: map<string, RoomDevice>, devices': map<string, RoomDevice>, roomId: string)
    requires forall k :: (k in devices && devices[k].roomId == roomId) <==> (k in devices' && devices'[k].roomId == roomId)
    ensures Members(devices, roomId) == Members(devices', roomId)
  {
  }

  lemma OneMoreMember(devices: map<string, RoomDevice>, device: RoomDevice, roomId: string)
    requires device.id !in devices
    ensures |Members(devices[device.id := device], roomId)| == |Members(devices, roomId)| + (if device.roomId == roomId then 1 else 0)
  {
    assert Members(devices[device.id := device], roomId)
        == Members(devices, roomId) + (if device.roomId == roomId then {device.id} else {});
  }

  lemma NobodyYet(devices: map<string, RoomDevice>, rooms: map<string, Room>, roomId: string)
    requires RoomsPresent(rooms, devices) && roomId !in rooms
    ensures Members(devices, roomId) == {}
  {
  }

  lemma CreateRoomCounts(rooms: map<string, Room>, devices: map<string, RoomDevice>, joins: map<string, nat>, room: Room, device: RoomDevice)
    requires RoomsPresent(rooms, devices) && Counted(rooms, devices, joins)
    requires room.id !in rooms && device.id !in devices && device.roomId == room.id
    ensures Counted(rooms[room.id := room], devices[device.id := device], joins[room.id := 0])
  {
    NobodyYet(devices, rooms, room.id);
    OneMoreMember(devices, device, room.id);
    forall r | r in rooms ensures |Members(devices[device.id := device], r)| == 1 + joins[r] {
      OneMoreMember(devices, device, r);
    }
  }

  lemma JoinRoomCounts(rooms: map<string, Room>, devices: map<string, RoomDevice>, joins: map<string, nat>, device: RoomDevice)
    requires Counted(rooms, devices, joins) && device.id !in devices && device.roomId in rooms
    ensures Counted(rooms, devices[device.id := device], joins[device.roomId := joins[device.roomId] + 1])
  {
    forall r | r in rooms
      ensures |Members(devices[device.id := device], r)| == 1 + joins[device.roomId := joins[device.roomId] + 1][r]
    {
      OneMoreMember(devices, device, r);
    }
  }

  lemma SeenCounts(rooms: map<string, Room>, devices: map<string, RoomDevice>, joins: map<string, nat>, k: string, now: int)
    requires Counted(rooms, devices, joins) && k in devices
    ensures Counted(rooms, devices[k := devices[k].(lastSeenAt := now)], joins)
  {
    forall r | r in rooms ensures |Members(devices[k := devices[k].(lastSeenAt := now)], r)| == 1 + joins[r] {
      SameMembers(devices, devices[k := devices[k].(lastSeenAt := now)], r);
    }
  }

  lemma RemoveRoomCounts(rooms: map<string, Room>, devices: map<string, RoomDevice>, joins: map<string, nat>, roomId: string)
    requires Counted(rooms, devices, joins)
    ensures Counted(rooms - {roomId}, DevicesWithout(devices, roomId), joins)
  {
    forall r | r in rooms && r != roomId ensures |Members(DevicesWithout(devices, roomId), r)| == 1 + joins[r] {
      SameMembers(devices, DevicesWithout(devices, roomId), r);
    }
  }

  lemma CheckRoomDeviceCounts(env: Env, d: Data, joins: map<string, nat>, auth: RoomAuth, role: string, now: int)
    requires Counted(d.rooms, d.roomDevices, joins)
    ensures var d' := CheckRoomDevice(env, d, auth, role, now).data; Counted(d'.rooms, d'.roomDevices, joins)
  {
    if CheckRoomDevice(env, d, auth, role, now).result.Ok? {
      SeenCounts(d.rooms, d.roomDevices, joins, auth.deviceId, now);
    }
  }

  lemma PerformDeviceRooms(env: Env, d: Data, auth: DeviceAuth, act: Act, id: string, now: int)
    ensures var d' := PerformDevice(env, d, auth, act, id, now).data; d'.rooms == d.rooms && d'.roomDevices == d.roomDevices
  {
  }

  lemma PerformCounts(env: Env, d: Data, joins: map<string, nat>, p: Pending, id: string, now: int)
    requires RoomsKeyed(d.rooms) && Counted(d.rooms, d.roomDevices, joins)
    ensures var d' := Perform(env, d, p, id, now).data; Counted(d'.rooms, d'.roomDevices, joins)
  {
    match p
    case DevicePending(auth, act) => PerformDeviceRooms(env, d, auth, act, id, now);
    case RoomPending(auth, act) =>
      match act {
        case EnableRoom(roomId, enable) => SetRoomCounts(d, joins, roomId, auth, enable, now);
        case DropRoom(roomId) => RemoveRoomCounts(d.rooms, d.roomDevices, joins, roomId);
      }
  }

  lemma SetRoomCounts(d: Data, joins: map<string, nat>, roomId: string, auth: RoomAuth, enable: bool, now: int)
    requires RoomsKeyed(d.rooms) && Counted(d.rooms, d.roomDevices, joins)
    ensures var d' := SetRoom(d, roomId, auth, enable, now).data; Counted(d'.rooms, d'.roomDevices, joins)
  {
    if SetRoom(d, roomId, auth, enable, now).result.Ok? {
      assert d.rooms[roomId].id == roomId;
    }
  }

  lemma NextCounts(env: Env, s: System, e: Event)
    requires RoomsKeyed(s.data.rooms) && RoomsPresent(s.data.rooms, s.data.roomDevices)
    requires Counted(s.data.rooms, s.data.roomDevices, s.joins)
    requires KeysUsed(s.data, s.used) && Fresh(s, e)
    ensures var r := Section(env, s, e); Counted(r.data.rooms, r.data.roomDevices, JoinsAfter(s, e, r.result.Ok?))
  {
    match e
    case MakeRoom(req, draw, now) => MakeRoomCounts(env, s.data, s.joins, req, draw, now);
    case EnterRoom(req, id, token, now) => EnterRoomCounts(env, s.data, s.joins, req, id, token, now);
    case _ => SameMembersCount(env, s, e);
  }

  lemma SameMembersCount(env: Env, s: System, e: Event)
    requires RoomsKeyed(s.data.rooms) && Counted(s.data.rooms, s.data.roomDevices, s.joins) && !e.MakeRoom? && !e.EnterRoom?
    ensures var r := Section(env, s, e); Counted(r.data.rooms, r.data.roomDevices, s.joins)
  {
    match e
    case BeginRoom(_, auth, _, now) => CheckRoomDeviceCounts(env, s.data, s.joins, auth, "host", now);
    case Seen(auth, role, now) => CheckRoomDeviceCounts(env, s.data, s.joins, auth, role, now);
    case Finish(t, id, now) =>
      if t in s.pending {
        PerformCounts(env, s.data, s.joins, s.pending[t], id, now);
      }
    case _ => OtherSections(env, s, e);
  }

  lemma MakeRoomCounts(env: Env, d: Data, joins: map<string, nat>, req: RoomRequest, draw: RoomDraw, now: int)
    requires RoomsPresent(d.rooms, d.roomDevices) && Counted(d.rooms, d.roomDevices, joins)
    requires draw.roomId !in d.rooms && draw.deviceId !in d.roomDevices
    ensures var r := CreateRoom(env, d, req, draw, now);
            Counted(r.data.rooms, r.data.roomDevices, if r.result.Ok? then joins[draw.roomId := 0] else joins)
  {
    var r := CreateRoom(env, d, req, draw, now);
    if r.result.Ok? {
      CreateRoomCounts(d.rooms, d.roomDevices, joins, r.result.value,
                       RoomDevice(draw.deviceId, draw.roomId, TrimSpace(req.deviceName), "host", env.hash(draw.token), now, now));
    }
  }

  lemma EnterRoomCounts(env: Env, d: Data, joins: map<string, nat>, req: JoinRequest, id: string, token: string, now: int)
    requires Counted(d.rooms, d.roomDevices, joins) && id !in d.roomDevices
    ensures var r := JoinRoom(env, d, req, id, token, now);
            var roomId := RoomOfCode(req.roomCode);
            if r.result.Ok? then
              roomId.Some? && roomId.value in joins
              && Counted(r.data.rooms, r.data.roomDevices, joins[roomId.value := joins[roomId.value] + 1])
            else Counted(r.data.rooms, r.data.roomDevices, joins)
  {
    if JoinRoom(env, d, req, id, token, now).result.Ok? {
      var roomId := RoomOfCode(req.roomCode).value;
      JoinRoomCounts(d.rooms, d.roomDevices, joins,
                     RoomDevice(id, roomId, TrimSpace(req.deviceName), "visitor", env.hash(token), now, now));
    }
  }

  // ---------- whole runs ----------

  lemma RoomsAreKeyed(d: Data)
    requires Inv(d)
    ensures RoomsKeyed(d.rooms) && RoomsPresent(d.rooms, d.roomDevices)
  {
  }

  lemma NextSound(env: Env, s: System, e: Event)
    requires Sound(s) && Fresh(s, e)
    ensures Sound(Next(env, s, e))
  {
    RoomsAreKeyed(s.data);
    SectionKeeps(env, s, e);
    SectionGrows(env, s, e);
    PendingStaysAuthentic(env, s, e);
    NextCounts(env, s, e);
  }

  lemma {:induction false} RunSound(env: Env, s: System, events: seq<Event>)
    requires Sound(s) && FreshRun(env, s, events)
    ensures Sound(Run(env, s, events))
    decreases |events|
  {
    if events != [] {
      NextSound(env, s, events[0]);
      RunSound(env, Next(env, s, events[0]), events[1..]);
    }
  }

  /** However operations interleave, every reachable state satisfies the invariant, and a room has one
      member more than successful joins. */
  lemma ReachableStates(env: Env, config: ServerConfig, events: seq<Event>)
    requires FreshRun(env, Start(config), events)
    ensures var s := Run(env, Start(config), events);
            Inv(s.data) && Counted(s.data.rooms, s.data.roomDevices, s.joins)
  {
    RunSound(env, Start(config), events);
  }

  // ---------- rejected operations ----------

  function NeverSeenDevices(devices: map<string, Device>): map<string, Device> {
    map k | k in devices :: devices[k].(lastSeenAt := 0)
  }

  function NeverSeenRoomDevices(devices: map<string, RoomDevice>): map<string, RoomDevice> {
    map k | k in devices :: devices[k].(lastSeenAt := 0)
  }

  /** The data without the times devices were last seen. */
  function NeverSeen(d: Data): Data {
    d.(devices := NeverSeenDevices(d.devices), roomDevices := NeverSeenRoomDevices(d.roomDevices))
  }

  lemma PerformRejected(env: Env, d: Data, p: Pending, id: string, now: int)
    ensures Perform(env, d, p, id, now).result.Err? ==> Perform(env, d, p, id, now).data == d
  {
  }

  lemma SeenDevice(devices: map<string, Device>, k: string, now: int)
    requires k in devices
    ensures NeverSeenDevices(devices[k := devices[k].(lastSeenAt := now)]) == NeverSeenDevices(devices)
  {
  }

  lemma SeenRoomDevice(devices: map<string, RoomDevice>, k: string, now: int)
    requires k in devices
    ensures NeverSeenRoomDevices(devices[k := devices[k].(lastSeenAt := now)]) == NeverSeenRoomDevices(devices)
  {
  }

  /** A step that authenticates, or that fails, changes no more than the times devices were last seen;
      so an operation that is rejected has changed no more than that, in either of its sections. */
  lemma RejectedChangesNothing(env: Env, s: System, e: Event)
    requires e.Begin? || e.BeginRoom? || e.Seen? || Section(env, s, e).result.Err?
    ensures NeverSeen(Section(env, s, e).data) == NeverSeen(s.data)
  {
    match e
    case Begin(_, auth, _, now) =>
      if CheckDevice(env, s.data, auth, now).result.Ok? {
        SeenDevice(s.data.devices, auth.deviceId, now);
      }
    case BeginRoom(_, auth, _, now) =>
      if CheckRoomDevice(env, s.data, auth, "host", now).result.Ok? {
        SeenRoomDevice(s.data.roomDevices, auth.deviceId, now);
      }
    case Seen(auth, role, now) =>
      if CheckRoomDevice(env, s.data, auth, role, now).result.Ok? {
        SeenRoomDevice(s.data.roomDevices, auth.deviceId, now);
      }
    case Finish(t, id, now) =>
      if t in s.pending {
        PerformRejected(env, s.data, s.pending[t], id, now);
      }
    case _ =>
  }

  /** No section that fails has changed anything, so the store needs no undo. */
  lemma FailedSectionsAreHarmless(env: Env, s: System, e: Event)
    requires Section(env, s, e).result.Err?
    ensures Section(env, s, e).data == s.data
  {
    if e.Finish? && e.thread in s.pending {
      PerformRejected(env, s.data, s.pending[e.thread], e.id, e.now);
    }
  }

  /** An undisturbed device operation is its two steps. */
  lemma OperationIsTwoSteps(env: Env, s: System, t: nat, auth: DeviceAuth, act: Act, id: string, seen: int, now: int)
    requires CheckDevice(env, s.data, auth, seen).result.Ok?
    ensures var checked := CheckDevice(env, s.data, auth, seen);
            var begun := Next(env, s, Begin(t, auth, act, seen));
            InOrder(checked, PerformDevice(env, checked.data, auth, act, id, now)) == Section(env, begun, Finish(t, id, now))
  {
  }

  /** A device operation that is rejected, in either section, leaves the data as it was but for the time the
      device was last seen. */
  lemma RejectedOperation(env: Env, d: Data, auth: DeviceAuth, act: Act, id: string, seen: int, now: int)
    requires var checked := CheckDevice(env, d, auth, seen);
             InOrder(checked, PerformDevice(env, checked.data, auth, act, id, now)).result.Err?
    ensures var checked := CheckDevice(env, d, auth, seen);
            NeverSeen(InOrder(checked, PerformDevice(env, checked.data, auth, act, id, now)).data) == NeverSeen(d)
  {
    var checked := CheckDevice(env, d, auth, seen);
    if checked.result.Ok? {
      SeenDevice(d.devices, auth.deviceId, seen);
      PerformRejected(env, checked.data, DevicePending(auth, act), id, now);
    }
  }

  lemma RejectedRoomOperation(env: Env, d: Data, auth: RoomAuth, act: RoomAct, seen: int, now: int)
    requires var checked := CheckRoomDevice(env, d, auth, "host", seen);
             InOrder(checked, PerformRoom(checked.data, auth, act, now)).result.Err?
    ensures var checked := CheckRoomDevice(env, d, auth, "host", seen);
            NeverSeen(InOrder(checked, PerformRoom(checked.data, auth, act, now)).data) == NeverSeen(d)
  {
    var checked := CheckRoomDevice(env, d, auth, "host", seen);
    if checked.result.Ok? {
      SeenRoomDevice(d.roomDevices, auth.deviceId, seen);
      PerformRejected(env, checked.data, RoomPending(auth, act), "", now);
    }
  }

  // ---------- devices and exposures through time ----------

  lemma {:induction false} DevicesThroughTime(env: Env, s: System, events: seq<Event>)
    requires Sound(s) && FreshRun(env, s, events)
    ensures DevicesStay(s.data.devices, Run(env, s, events).data.devices)
    decreases |events|
  {
    if events != [] {
      NextSound(env, s, events[0]);
      SectionKeepsDevices(env, s, events[0]);
      DevicesThroughTime(env, Next(env, s, events[0]), events[1..]);
    }
  }

  /** An exposure whose id was in use and that is gone never comes back. */
  lemma {:induction false} ExposuresThroughTime(env: Env, s: System, events: seq<Event>, exposureId: string)
    requires Sound(s) && FreshRun(env, s, events) && exposureId in s.used && exposureId !in s.data.exposures
    ensures exposureId !in Run(env, s, events).data.exposures
    decreases |events|
  {
    if events != [] {
      NextSound(env, s, events[0]);
      RoomsAreKeyed(s.data);
      SectionGrows(env, s, events[0]);
      ExposuresThroughTime(env, Next(env, s, events[0]), events[1..], exposureId);
    }
  }

  // ---------- rooms through time ----------

  ghost predicate SameRoom(a: Room, b: Room) {
    a.hostDeviceId == b.hostDeviceId && a.serverName == b.serverName && a.codeHash == b.codeHash
  }

  /** A room that is there afterwards was there before, unless its id was drawn in between, and is the
      same room. */
  ghost predicate RoomsLast(rooms: map<string, Room>, rooms': map<string, Room>, drawn: set<string>) {
    forall r | r in rooms' && r !in drawn :: r in rooms && SameRoom(rooms'[r], rooms[r])
  }

  lemma ChangedRoomLasts(rooms: map<string, Room>, room: Room)
    requires room.id in rooms && SameRoom(room, rooms[room.id])
    ensures RoomsLast(rooms, rooms[room.id := room], {})
  {
  }

  lemma SetRoomLasts(d: Data, roomId: string, auth: RoomAuth, enable: bool, now: int)
    requires RoomsKeyed(d.rooms)
    ensures RoomsLast(d.rooms, SetRoom(d, roomId, auth, enable, now).data.rooms, {})
  {
    var r := SetRoom(d, roomId, auth, enable, now);
    if r.result.Ok? {
      ChangedRoomLasts(d.rooms, r.result.value);
    }
  }

  lemma PerformRoomLasts(d: Data, auth: RoomAuth, act: RoomAct, now: int)
    requires RoomsKeyed(d.rooms)
    ensures RoomsLast(d.rooms, PerformRoom(d, auth, act, now).data.rooms, {})
  {
    match act
    case EnableRoom(roomId, enable) => SetRoomLasts(d, roomId, auth, enable, now);
    case DropRoom(roomId) =>
  }

  lemma CreateRoomLasts(env: Env, d: Data, req: RoomRequest, draw: RoomDraw, now: int)
    ensures RoomsLast(d.rooms, CreateRoom(env, d, req, draw, now).data.rooms, {draw.roomId, draw.deviceId})
  {
  }

  lemma OtherSections(env: Env, s: System, e: Event)
    requires !e.MakeRoom? && !e.Finish?
    ensures Section(env, s, e).data.rooms == s.data.rooms
    ensures !e.BeginRoom? && !e.Seen? && !e.EnterRoom? ==> Section(env, s, e).data.roomDevices == s.data.roomDevices
  {
  }

  lemma SectionRooms(env: Env, s: System, e: Event)
    requires RoomsKeyed(s.data.rooms)
    ensures RoomsLast(s.data.rooms, Section(env, s, e).data.rooms, Drawn(e))
  {
    match e
    case MakeRoom(req, draw, now) => CreateRoomLasts(env, s.data, req, draw, now);
    case Finish(t, id, now) =>
      if t in s.pending {
        match s.pending[t] {
          case DevicePending(auth, act) => PerformDeviceRooms(env, s.data, auth, act, id, now);
          case RoomPending(auth, act) => PerformRoomLasts(s.data, auth, act, now);
        }
      }
    case _ => OtherSections(env, s, e);
  }

  /** Through any run, a room whose id was in use before is either gone for good or the same room, with the
      same host device and server name. */
  lemma {:induction false} RoomsThroughTime(env: Env, s: System, events: seq<Event>, roomId: string)
    requires Sound(s) && FreshRun(env, s, events) && roomId in s.used
    requires roomId in Run(env, s, events).data.rooms
    ensures roomId in s.data.rooms
    ensures SameRoom(Run(env, s, events).data.rooms[roomId], s.data.rooms[roomId])
    decreases |events|
  {
    if events != [] {
      var s' := Next(env, s, events[0]);
      NextSound(env, s, events[0]);
      RoomsThroughTime(env, s', events[1..], roomId);
      RoomsAreKeyed(s.data);
      SectionRooms(env, s, events[0]);
    }
  }

  // ---------- disabled rooms and exposures through time ----------

  ghost predicate RoomOff(rooms: map<string, Room>, roomId: string) {
    roomId in rooms ==> !rooms[roomId].enabled
  }

  ghost predicate ExposureOff(exposures: map<string, Exposure>, exposureId: string) {
    exposureId in exposures ==> !exposures[exposureId].enabled
  }

  /** The step is the second section of an UpdateRoom that enables the room. */
  predicate EnablesRoom(s: System, e: Event, roomId: string) {
    && e.Finish? && e.thread in s.pending && s.pending[e.thread].RoomPending?
    && s.pending[e.thread].roomAct == EnableRoom(roomId, true)
  }

  /** The step is the second section of an UpdateExposure that enables the exposure. */
  predicate EnablesExposure(s: System, e: Event, exposureId: string) {
    && e.Finish? && e.thread in s.pending && s.pending[e.thread].DevicePending?
    && s.pending[e.thread].act == ChangeExposure(exposureId, Some(true))
  }

  lemma PerformRoomOff(d: Data, auth: RoomAuth, act: RoomAct, now: int, roomId: string)
    requires RoomsKeyed(d.rooms) && RoomOff(d.rooms, roomId) && act != EnableRoom(roomId, true)
    ensures RoomOff(PerformRoom(d, auth, act, now).data.rooms, roomId)
  {
    match act
    case EnableRoom(id, enable) => SetRoomOff(d, id, auth, enable, now, roomId);
    case DropRoom(_) =>
  }

  lemma SetRoomOff(d: Data, id: string, auth: RoomAuth, enable: bool, now: int, roomId: string)
    requires RoomsKeyed(d.rooms) && RoomOff(d.rooms, roomId) && !(id == roomId && enable)
    ensures RoomOff(SetRoom(d, id, auth, enable, now).data.rooms, roomId)
  {
  }

  lemma SectionRoomOff(env: Env, s: System, e: Event, roomId: string)
    requires RoomsKeyed(s.data.rooms) && RoomOff(s.data.rooms, roomId) && roomId in s.used && Fresh(s, e)
    requires !EnablesRoom(s, e, roomId)
    ensures RoomOff(Section(env, s, e).data.rooms, roomId)
  {
    match e
    case MakeRoom(req, draw, now) => assert roomId != draw.roomId;
    case Finish(t, id, now) =>
      if t in s.pending {
        match s.pending[t] {
          case DevicePending(auth, act) => PerformDeviceRooms(env, s.data, auth, act, id, now);
          case RoomPending(auth, act) => PerformRoomOff(s.data, auth, act, now, roomId);
        }
      }
    case _ => OtherSections(env, s, e);
  }

  lemma PerformDeviceExposureOff(env: Env, d: Data, auth: DeviceAuth, act: Act, id: string, now: int, exposureId: string)
    requires ExposureOff(d.exposures, exposureId) && id != exposureId && act != ChangeExposure(exposureId, Some(true))
    ensures ExposureOff(PerformDevice(env, d, auth, act, id, now).data.exposures, exposureId)
  {
  }

  lemma OtherSectionsExposures(env: Env, s: System, e: Event)
    requires !e.Finish?
    ensures Section(env, s, e).data.exposures == s.data.exposures
  {
  }

  lemma SectionExposureOff(env: Env, s: System, e: Event, exposureId: string)
    requires ExposureOff(s.data.exposures, exposureId) && exposureId in s.used && Fresh(s, e) && !EnablesExposure(s, e, exposureId)
    ensures ExposureOff(Section(env, s, e).data.exposures, exposureId)
  {
    if e.Finish? {
      if e.thread in s.pending && s.pending[e.thread].DevicePending? {
        PerformDeviceExposureOff(env, s.data, s.pending[e.thread].auth, s.pending[e.thread].act, e.id, e.now, exposureId);
      }
    } else {
      OtherSectionsExposures(env, s, e);
    }
  }

  ghost predicate RoomStaysOff(env: Env, s: System, events: seq<Event>, roomId: string)
    decreases |events|
  {
    events != [] ==> !EnablesRoom(s, events[0], roomId) && RoomStaysOff(env, Next(env, s, events[0]), events[1..], roomId)
  }

  ghost predicate ExposureStaysOff(env: Env, s: System, events: seq<Event>, exposureId: string)
    decreases |events|
  {
    events != [] ==>
      !EnablesExposure(s, events[0], exposureId) && ExposureStaysOff(env, Next(env, s, events[0]), events[1..], exposureId)
  }

  /** A room that is gone or disabled is so until a host enables it. */
  lemma {:induction false} RoomOffThroughTime(env: Env, s: System, events: seq<Event>, roomId: string)
    requires Sound(s) && FreshRun(env, s, events) && roomId in s.used
    requires RoomOff(s.data.rooms, roomId) && RoomStaysOff(env, s, events, roomId)
    ensures RoomOff(Run(env, s, events).data.rooms, roomId)
    decreases |events|
  {
    if events != [] {
      NextSound(env, s, events[0]);
      RoomsAreKeyed(s.data);
      SectionRoomOff(env, s, events[0], roomId);
      RoomOffThroughTime(env, Next(env, s, events[0]), events[1..], roomId);
    }
  }

  /** An exposure that is gone or disabled is so until its owner enables it. */
  lemma {:induction false} ExposureOffThroughTime(env: Env, s: System, events: seq<Event>, exposureId: string)
    requires FreshRun(env, s, events) && exposureId in s.used
    requires ExposureOff(s.data.exposures, exposureId) && ExposureStaysOff(env, s, events, exposureId)
    ensures ExposureOff(Run(env, s, events).data.exposures, exposureId)
    decreases |events|
  {
    if events != [] {
      SectionExposureOff(env, s, events[0], exposureId);
      ExposureOffThroughTime(env, Next(env, s, events[0]), events[1..], exposureId);
    }
  }
}
