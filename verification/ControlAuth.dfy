/** Who is let in by the control server, and who can change what: the tokens, codes and passwords it hands out, through
    every run (internal/control/service.go, internal/security/security.go). */
module ControlAuth {
  import opened Wrappers
  import opened Text
  import opened Validate
  import opened ControlModel
  import opened ControlInvariant
  import opened ControlSteps
  import Pbkdf2
  import Password

  // ---------- which token authenticates ----------

  /** The device is stored under the group and its stored hash is that of the token. */
  predicate KnowsDevice(env: Env, d: Data, auth: DeviceAuth) {
    && auth.groupId != "" && auth.deviceId != "" && auth.deviceToken != ""
    && auth.deviceId in d.devices && d.devices[auth.deviceId].groupId == auth.groupId
    && d.devices[auth.deviceId].tokenHash != "" && d.devices[auth.deviceId].tokenHash == env.hash(auth.deviceToken)
  }

  /** A device authenticates exactly when it is known by its token; anything else is unauthorized and changes nothing. */
  lemma DeviceAuthIff(env: Env, d: Data, auth: DeviceAuth, now: int)
    ensures var r := CheckDevice(env, d, auth, now);
            if KnowsDevice(env, d, auth) then
              && r.result == Ok(()) && r.data == d.(devices := r.data.devices)
              && r.data.devices == d.devices[auth.deviceId := d.devices[auth.deviceId].(lastSeenAt := now)]
            else r == Reply(d, Err(Unauthorized))
  {
  }

  /** The device is stored under a room that is there, with the role if one is asked for and the hash of its token; a
      disabled room lets in nobody but a host. */
  predicate KnowsRoomDevice(env: Env, d: Data, auth: RoomAuth, role: string) {
    && auth.roomId != "" && auth.deviceId != "" && auth.deviceToken != ""
    && auth.roomId in d.rooms && (d.rooms[auth.roomId].enabled || role == "host")
    && auth.deviceId in d.roomDevices && d.roomDevices[auth.deviceId].roomId == auth.roomId
    && (role == "" || d.roomDevices[auth.deviceId].role == role)
    && d.roomDevices[auth.deviceId].tokenHash != "" && d.roomDevices[auth.deviceId].tokenHash == env.hash(auth.deviceToken)
  }

  lemma RoomAuthIff(env: Env, d: Data, auth: RoomAuth, role: string, now: int)
    ensures var r := CheckRoomDevice(env, d, auth, role, now);
            if KnowsRoomDevice(env, d, auth, role) then
              && r.result == Ok(()) && r.data == d.(roomDevices := r.data.roomDevices)
              && r.data.roomDevices == d.roomDevices[auth.deviceId := d.roomDevices[auth.deviceId].(lastSeenAt := now)]
            else r == Reply(d, Err(Unauthorized))
  {
  }

  // ---------- groups ----------

  /** Groups stay as they are. */
  ghost predicate GroupsStay(groups: map<string, Group>, groups': map<string, Group>) {
    forall g | g in groups :: g in groups' && groups'[g] == groups[g]
  }

  lemma PerformKeepsGroups(env: Env, d: Data, p: Pending, id: string, now: int)
    ensures Perform(env, d, p, id, now).data.groups == d.groups
  {
    match p
    case DevicePending(auth, act) => PerformDeviceKeepsGroups(env, d, auth, act, id, now);
    case RoomPending(auth, act) =>
  }

  lemma PerformDeviceKeepsGroups(env: Env, d: Data, auth: DeviceAuth, act: Act, id: string, now: int)
    ensures PerformDevice(env, d, auth, act, id, now).data.groups == d.groups
  {
  }

  lemma SectionKeepsGroups(env: Env, s: System, e: Event)
    ensures GroupsStay(s.data.groups, Section(env, s, e).data.groups)
  {
    if e.Finish? && e.thread in s.pending {
      PerformKeepsGroups(env, s.data, s.pending[e.thread], e.id, e.now);
    }
  }

  lemma {:induction false} GroupsThroughTime(env: Env, s: System, events: seq<Event>)
    ensures GroupsStay(s.data.groups, Run(env, s, events).data.groups)
    decreases |events|
  {
    if events != [] {
      SectionKeepsGroups(env, s, events[0]);
      GroupsThroughTime(env, Next(env, s, events[0]), events[1..]);
    }
  }

  /** Joining a group takes its password and a name; the new device belongs to the group, under the hash of its token. */
  lemma JoinGroupIff(env: Env, d: Data, groupId: string, password: string, deviceName: string, id: string, token: string, now: int)
    ensures var r := JoinGroup(env, d, groupId, password, deviceName, id, token, now);
            && (r.result.Ok? <==>
                 && IdPattern(groupId, 3) && 1 <= |TrimSpace(deviceName)| <= 80
                 && groupId in d.groups && env.verify(d.groups[groupId].passwordHash, password))
            && (r.result.Ok? ==>
                 && r.data == d.(devices := d.devices[id := r.result.value])
                 && r.result.value == Device(id, groupId, TrimSpace(deviceName), env.hash(token), now, now))
            && (r.result.Err? ==> r.data == d)
  {
  }

  /** After CreateGroup, whatever happens, a device can join the group exactly with a password that fits its record. */
  lemma GroupAdmits(env: Env, s: System, groupId: string, password: string, record: string, now: int, after: seq<Event>,
                    guess: string, deviceName: string, id: string, token: string, later: int)
    requires Section(env, s, MakeGroup(groupId, password, record, now)).result.Ok?
    ensures var d := Run(env, Next(env, s, MakeGroup(groupId, password, record, now)), after).data;
            JoinGroup(env, d, groupId, guess, deviceName, id, token, later).result.Ok? <==>
              1 <= |TrimSpace(deviceName)| <= 80 && env.verify(record, guess)
  {
    var made := Next(env, s, MakeGroup(groupId, password, record, now));
    GroupsThroughTime(env, made, after);
    assert made.data.groups[groupId] == Group(groupId, record, now);
  }

  /** The server's check of a password, for a way to turn texts into octets. */
  ghost predicate ChecksPasswords(env: Env, prf: Pbkdf2.Prf, octets: string -> Pbkdf2.Bytes) {
    forall record, guess :: env.verify(record, guess) == Password.VerifyPassword(prf, record, octets(guess))
  }

  /** With the record that HashPassword makes: the password itself always admits, and another one only when PBKDF2
      derives the same key from it. */
  lemma GroupAdmitsItsPassword(env: Env, s: System, prf: Pbkdf2.Prf, octets: string -> Pbkdf2.Bytes, groupId: string, password: string,
                               salt: Pbkdf2.Bytes, now: int, after: seq<Event>, guess: string, deviceName: string, id: string,
                               token: string, later: int)
    requires ChecksPasswords(env, prf, octets) && 1 <= |TrimSpace(deviceName)| <= 80
    requires Section(env, s, MakeGroup(groupId, password, Password.HashPassword(prf, octets(password), salt), now)).result.Ok?
    ensures var record := Password.HashPassword(prf, octets(password), salt);
            var d := Run(env, Next(env, s, MakeGroup(groupId, password, record, now)), after).data;
            JoinGroup(env, d, groupId, guess, deviceName, id, token, later).result.Ok? <==>
              Pbkdf2.DerivedKey(prf, octets(guess), salt, 210000, 32) == Pbkdf2.DerivedKey(prf, octets(password), salt, 210000, 32)
  {
    var record := Password.HashPassword(prf, octets(password), salt);
    GroupAdmits(env, s, groupId, password, record, now, after, guess, deviceName, id, token, later);
    Password.RecordAcceptsIff(prf, octets(password), salt, octets(guess));
  }

  /** The token that JoinGroup hands out authenticates its device ever after, in its group and in no other, and no token
      with another hash does. */
  lemma GroupTokenLasts(env: Env, s: System, e: Event, after: seq<Event>, auth: DeviceAuth, later: int)
    requires Sound(s) && Fresh(s, e) && e.EnterGroup? && Section(env, s, e).result.Ok? && FreshRun(env, Next(env, s, e), after)
    requires auth.deviceId == e.id && e.id != "" && env.hash(e.token) != ""
    ensures CheckDevice(env, Run(env, Next(env, s, e), after).data, auth, later).result.Ok? <==>
              auth.groupId == e.groupId && auth.deviceToken != "" && env.hash(auth.deviceToken) == env.hash(e.token)
  {
    var made := Next(env, s, e);
    NextSound(env, s, e);
    DevicesThroughTime(env, made, after);
    assert made.data.devices[e.id] == Device(e.id, e.groupId, TrimSpace(e.deviceName), env.hash(e.token), e.now, e.now);
  }

  // ---------- rooms ----------

  /** While a room is there, its devices stay, with their role and token. */
  ghost predicate MembersStay(d: Data, d': Data) {
    forall k | k in d.roomDevices && d.roomDevices[k].roomId in d'.rooms ::
      && k in d'.roomDevices && d'.roomDevices[k].roomId == d.roomDevices[k].roomId
      && d'.roomDevices[k].role == d.roomDevices[k].role && d'.roomDevices[k].tokenHash == d.roomDevices[k].tokenHash
  }

  lemma RemovedRoomKeepsMembers(d: Data, roomId: string, auth: RoomAuth)
    ensures MembersStay(d, RemoveRoom(d, roomId, auth).data)
  {
  }

  lemma SetRoomKeepsMembers(d: Data, roomId: string, auth: RoomAuth, enable: bool, now: int)
    ensures MembersStay(d, SetRoom(d, roomId, auth, enable, now).data)
  {
  }

  lemma PerformRoomKeepsMembers(d: Data, auth: RoomAuth, act: RoomAct, now: int)
    ensures MembersStay(d, PerformRoom(d, auth, act, now).data)
  {
    match act
    case EnableRoom(roomId, enable) => SetRoomKeepsMembers(d, roomId, auth, enable, now);
    case DropRoom(roomId) => RemovedRoomKeepsMembers(d, roomId, auth);
  }

  lemma PerformKeepsMembers(env: Env, d: Data, p: Pending, id: string, now: int)
    ensures MembersStay(d, Perform(env, d, p, id, now).data)
  {
    match p
    case DevicePending(auth, act) => PerformDeviceRooms(env, d, auth, act, id, now);
    case RoomPending(auth, act) => PerformRoomKeepsMembers(d, auth, act, now);
  }

  lemma CreateRoomKeepsMembers(env: Env, d: Data, req: RoomRequest, draw: RoomDraw, now: int)
    requires draw.deviceId !in d.roomDevices
    ensures MembersStay(d, CreateRoom(env, d, req, draw, now).data)
  {
  }

  lemma JoinRoomKeepsMembers(env: Env, d: Data, req: JoinRequest, id: string, token: string, now: int)
    requires id !in d.roomDevices
    ensures MembersStay(d, JoinRoom(env, d, req, id, token, now).data)
  {
    JoinRoomIff(env, d, req, id, token, now);
    var r := JoinRoom(env, d, req, id, token, now);
    if r.result.Ok? {
      NewMemberStays(d, r.data.roomDevices[id]);
      assert r.data == d.(roomDevices := d.roomDevices[id := r.data.roomDevices[id]]);
    }
  }

  lemma NewMemberStays(d: Data, device: RoomDevice)
    requires device.id !in d.roomDevices
    ensures MembersStay(d, d.(roomDevices := d.roomDevices[device.id := device]))
  {
  }

  lemma CheckKeepsMembers(env: Env, d: Data, auth: RoomAuth, role: string, now: int)
    ensures MembersStay(d, CheckRoomDevice(env, d, auth, role, now).data)
  {
  }

  lemma SectionKeepsMembers(env: Env, s: System, e: Event)
    requires KeysUsed(s.data, s.used) && Fresh(s, e)
    ensures MembersStay(s.data, Section(env, s, e).data)
  {
    match e
    case Finish(t, id, now) =>
      if t in s.pending {
        PerformKeepsMembers(env, s.data, s.pending[t], id, now);
      }
    case MakeRoom(req, draw, now) => CreateRoomKeepsMembers(env, s.data, req, draw, now);
    case EnterRoom(req, id, token, now) => JoinRoomKeepsMembers(env, s.data, req, id, token, now);
    case BeginRoom(_, auth, _, now) => CheckKeepsMembers(env, s.data, auth, "host", now);
    case Seen(auth, role, now) => CheckKeepsMembers(env, s.data, auth, role, now);
    case _ => OtherSections(env, s, e);
  }

  /** The room was there all along, if it is there in the end. */
  lemma {:induction false} MembersThroughTime(env: Env, s: System, events: seq<Event>, k: string)
    requires Sound(s) && FreshRun(env, s, events) && k in s.data.roomDevices
    requires s.data.roomDevices[k].roomId in Run(env, s, events).data.rooms
    ensures var d := Run(env, s, events).data;
            && k in d.roomDevices && d.roomDevices[k].roomId == s.data.roomDevices[k].roomId
            && d.roomDevices[k].role == s.data.roomDevices[k].role && d.roomDevices[k].tokenHash == s.data.roomDevices[k].tokenHash
    decreases |events|
  {
    if events != [] {
      var s' := Next(env, s, events[0]);
      NextSound(env, s, events[0]);
      RoomsAreKeyed(s.data);
      SectionKeepsMembers(env, s, events[0]);
      RoomsThroughTime(env, s', events[1..], s.data.roomDevices[k].roomId);
      MembersThroughTime(env, s', events[1..], k);
    }
  }

  /** The token of a device that is in a room: as long as the room is there, it authenticates the device with its own
      role and with none asked for, a host even when the room is disabled, and no token with another hash does. */
  lemma RoomTokenLasts(env: Env, s: System, events: seq<Event>, k: string, auth: RoomAuth, role: string, later: int)
    requires Sound(s) && FreshRun(env, s, events) && k in s.data.roomDevices && s.data.roomDevices[k].tokenHash != ""
    requires auth.deviceId == k && k != "" && auth.roomId == s.data.roomDevices[k].roomId && auth.roomId != ""
    ensures var d := Run(env, s, events).data;
            CheckRoomDevice(env, d, auth, role, later).result.Ok? <==>
              && auth.roomId in d.rooms && (d.rooms[auth.roomId].enabled || role == "host")
              && (role == "" || role == s.data.roomDevices[k].role)
              && auth.deviceToken != "" && env.hash(auth.deviceToken) == s.data.roomDevices[k].tokenHash
  {
    if auth.roomId in Run(env, s, events).data.rooms {
      MembersThroughTime(env, s, events, k);
    }
  }

  /** What CreateRoom stores: the room, and its host under the hash of the token handed out. */
  lemma CreatedRoomStored(env: Env, s: System, req: RoomRequest, draw: RoomDraw, now: int)
    requires Section(env, s, MakeRoom(req, draw, now)).result.Ok? && draw.roomId != draw.deviceId
    ensures var d := Next(env, s, MakeRoom(req, draw, now)).data;
            && draw.roomId in d.rooms && d.rooms[draw.roomId].enabled && d.rooms[draw.roomId].hostDeviceId == draw.deviceId
            && d.rooms[draw.roomId].codeHash == env.hash(draw.roomId + "." + draw.secret)
            && d.rooms[draw.roomId].serverName == "room." + draw.roomId + ".xtcp"
            && d.rooms[draw.roomId].frpsAddr == TrimSpace(s.data.config.frpsAddr)
            && d.rooms[draw.roomId].frpsPort == (if s.data.config.frpsPort == 0 then 7000 else s.data.config.frpsPort)
            && d.rooms[draw.roomId].name == TrimSpace(req.name)
            && draw.deviceId in d.roomDevices
            && d.roomDevices[draw.deviceId]
               == RoomDevice(draw.deviceId, draw.roomId, TrimSpace(req.deviceName), "host", env.hash(draw.token), now, now)
  {
  }

  /** A code names a room: what stands before its first dot, with something after it. */
  lemma RoomOfCodeIff(code: string, roomId: string)
    ensures RoomOfCode(code) == Some(roomId) <==>
              roomId != "" && '.' !in roomId && exists secret :: secret != "" && TrimSpace(code) == roomId + "." + secret
  {
    var t := TrimSpace(code);
    var i := IndexOf(t, '.');
    if RoomOfCode(code) == Some(roomId) {
      assert t == roomId + "." + t[i + 1..];
    }
    if roomId != "" && '.' !in roomId && exists secret :: secret != "" && t == roomId + "." + secret {
      var secret :| secret != "" && t == roomId + "." + secret;
      assert t == roomId + ['.'] + secret;
      IndexOfFirst(roomId, secret, '.');
      assert t[..|roomId|] == roomId;
    }
  }

  /** Joining a room takes its code and a name; the new device is a visitor of the room, under the hash of its token. */
  lemma JoinRoomIff(env: Env, d: Data, req: JoinRequest, id: string, token: string, now: int)
    ensures var r := JoinRoom(env, d, req, id, token, now);
            && (r.result.Ok? <==>
                 && 1 <= |TrimSpace(req.deviceName)| <= 80 && RoomOfCode(req.roomCode).Some?
                 && RoomOfCode(req.roomCode).value in d.rooms && d.rooms[RoomOfCode(req.roomCode).value].enabled
                 && d.rooms[RoomOfCode(req.roomCode).value].codeHash == env.hash(TrimSpace(req.roomCode)))
            && (r.result.Ok? ==>
                 && r.data == d.(roomDevices := r.data.roomDevices)
                 && r.data.roomDevices == d.roomDevices[id := RoomDevice(id, RoomOfCode(req.roomCode).value, TrimSpace(req.deviceName),
                                                                         "visitor", env.hash(token), now, now)])
            && (r.result.Err? ==> r.data == d)
  {
  }

  /** The code of a created room stays the one handed out. */
  lemma CodeHashLasts(env: Env, s: System, req: RoomRequest, draw: RoomDraw, now: int, after: seq<Event>)
    requires var e := MakeRoom(req, draw, now);
             Sound(s) && Fresh(s, e) && Section(env, s, e).result.Ok? && FreshRun(env, Next(env, s, e), after)
    ensures var d := Run(env, Next(env, s, MakeRoom(req, draw, now)), after).data;
            draw.roomId in d.rooms ==> d.rooms[draw.roomId].codeHash == env.hash(draw.roomId + "." + draw.secret)
  {
    var made := Next(env, s, MakeRoom(req, draw, now));
    NextSound(env, s, MakeRoom(req, draw, now));
    CreatedRoomStored(env, s, req, draw, now);
    if draw.roomId in Run(env, made, after).data.rooms {
      RoomsThroughTime(env, made, after, draw.roomId);
    }
  }

  /** After CreateRoom, whatever happens, the room is entered exactly with a code of the same hash as the one handed out,
      as long as the room is there and enabled. */
  lemma RoomAdmits(env: Env, s: System, req: RoomRequest, draw: RoomDraw, now: int, after: seq<Event>, joining: JoinRequest,
                   id: string, token: string, later: int)
    requires var e := MakeRoom(req, draw, now);
             Sound(s) && Fresh(s, e) && Section(env, s, e).result.Ok? && FreshRun(env, Next(env, s, e), after)
    requires RoomOfCode(joining.roomCode) == Some(draw.roomId)
    ensures var d := Run(env, Next(env, s, MakeRoom(req, draw, now)), after).data;
            JoinRoom(env, d, joining, id, token, later).result.Ok? <==>
              && draw.roomId in d.rooms && d.rooms[draw.roomId].enabled && 1 <= |TrimSpace(joining.deviceName)| <= 80
              && env.hash(TrimSpace(joining.roomCode)) == env.hash(draw.roomId + "." + draw.secret)
  {
    CodeHashLasts(env, s, req, draw, now, after);
    JoinRoomIff(env, Run(env, Next(env, s, MakeRoom(req, draw, now)), after).data, joining, id, token, later);
  }
}
