/** The chat server as an object: each method does to the tables what the state machine's function
    says, with the source's loops over members, rooms and sessions. */
module ChatService {
  import opened Octets
  import opened Base64
  import opened Messages
  import opened Ordering
  import opened Tables
  import opened ServerModel
  import RateLimit

  function ErrorOf(reply: Reply): Option<Text>
  {
    match reply
    case Done(_) => None
    case Refused(error) => Some(error)
  }

  class ChatServer {
    const config: Config
    var clients: map<SessionId, Session>
    var sessions: set<SessionId>
    var rooms: map<RoomId, Room>
    var nextRoomId: RoomId
    var localRoomId: RoomId
    var bans: set<Text>
    var identities: map<Text, Text>
    var writes: seq<Write>
    var stored: nat
    var lastStamp: int

    function State(): Server
      reads this
    {
      Server(clients, sessions, rooms, nextRoomId, localRoomId, bans, identities, writes, stored, lastStamp)
    }

    constructor (c: Config, initial: Server)
      ensures State() == initial && config == c
    {
      config := c;
      clients, sessions, rooms := initial.clients, initial.sessions, initial.rooms;
      nextRoomId, localRoomId, bans := initial.nextRoomId, initial.localRoomId, initial.bans;
      identities, writes := initial.identities, initial.writes;
      stored, lastStamp := initial.stored, initial.lastStamp;
    }

    // ---- single changes ----

    method Update(i: SessionId, x: Session)
      modifies this`clients
      ensures State() == old(With(State(), i, x))
    {
      if i in clients { clients := clients[i := x]; }
    }

    method UpdateRoom(r: RoomId, room: Room)
      modifies this`rooms
      ensures State() == old(WithRoom(State(), r, room))
    {
      rooms := rooms[r := room];
    }

    method Enqueue(w: Write)
      modifies this`writes
      ensures State() == old(Written(State(), w))
    {
      writes := writes + [w];
    }

    // ---- delivery ----

    /** Deliver to each of the sessions in turn. */
    method DeliverEach(to: set<SessionId>, m: ServerMessage)
      modifies this`clients
      ensures State() == old(DeliverAll(config, State(), to, m))
    {
      hide PostAll, Posted, Ordered;
      if !config.encodes(m) { return; }
      var members := Walk(to);
      OrderedAscends(to);
      ghost var before, done: set<SessionId> := clients, {};
      PostedToNone(before, m);
      for k := 0 to |members|
        invariant clients == PostAll(before, done, m) && forall i :: i in done <==> i in members[..k]
        invariant State().(clients := before) == old(State())
      {
        var i := members[k];
        PostedOneMore(before, done, i, m);
        if i in clients { clients := clients[i := Posted(clients[i], m)]; }
        done := done + {i};
        assert members[..k + 1] == members[..k] + [i];
      }
      assert members[..|members|] == members;
      assert done == to;
    }

    method DeliverTo(i: SessionId, m: ServerMessage)
      modifies this`clients
      ensures State() == old(Deliver(config, State(), i, m))
    {
      DeliverEach({i}, m);
    }

    // ---- broadcasts ----

    method NextMessageTimestamp() returns (stamp: int)
      ensures stamp == NextStamp(config, State())
    {
      var now := config.clock(stored);
      stamp := if now > lastStamp then now else lastStamp + 1;
    }

    method StoreText(r: RoomId, msg: Text, nickname: Text)
      modifies this`writes, this`stored, this`lastStamp
      ensures State() == old(StoreMessage(config, State(), r, msg, nickname))
    {
      var stamp := NextMessageTimestamp();
      var m := StoredMessage(config.freshId(stored), r, nickname, msg, stamp);
      Enqueue(MessageWrite(m));
      stored := stored + 1;
      lastStamp := stamp;
    }

    method BroadcastText(r: RoomId, msg: Text, nickname: Text)
      modifies this
      ensures State() == old(BroadcastRoom(config, State(), r, msg, nickname))
    {
      hide DeliverAll, StoreMessage, WithRoom, Bounded;
      if r !in rooms { return; }
      var room := rooms[r];
      var recent := room.recent + [msg];
      BoundedIs(recent, config.historyLimit);
      if |recent| > config.historyLimit { recent := recent[1..]; }
      UpdateRoom(r, room.(recent := recent));
      DeliverEach(room.members, RoomText(r, msg));
      StoreText(r, msg, nickname);
    }

    method NicknamesOf(members: seq<SessionId>) returns (names: seq<Text>)
      ensures names == Nicknames(State(), members)
    {
      names := [];
      assert members[0..] == members;
      for k := 0 to |members|
        invariant names + Nicknames(State(), members[k..]) == Nicknames(State(), members)
      {
        assert members[k..][1..] == members[k + 1..];
        var nick := Of(State(), members[k]).nickname;
        if nick != [] { names := names + [nick]; }
      }
      assert members[|members|..] == [] && names + [] == names;
    }

    method UsersInRoom(r: RoomId) returns (names: seq<Text>)
      ensures names == UserNames(config, State(), r)
    {
      hide Sort, Ordered, Nicknames;
      var members := Walk(RoomOf(State(), r).members);
      names := NicknamesOf(members);
      assert names + [] == names;
      if config.localNickname != [] && localRoomId == r { names := names + [config.localNickname]; }
      names := Sort(names);
    }

    method BroadcastUserList(r: RoomId)
      modifies this`clients
      ensures State() == old(BroadcastUsers(config, State(), r))
    {
      hide DeliverAll, UserNames;
      if r !in rooms { return; }
      var names := UsersInRoom(r);
      DeliverEach(rooms[r].members, UserList(r, names));
    }

    method ListRooms() returns (list: seq<RoomSummary>)
      ensures list == RoomSummaries(config, State())
    {
      hide Ordered;
      list := [];
      var ids := Walk(rooms.Keys);
      for k := 0 to |ids|
        invariant |list| == k && forall j :: 0 <= j < k ==> list[j] == Summary(config, State(), ids[j])
      {
        assert ids[k] in ids;
        var room := rooms[ids[k]];
        var count := |room.members|;
        if config.localNickname != [] && localRoomId == ids[k] { count := count + 1; }
        list := list + [RoomSummary(ids[k], room.name, count)];
      }
    }

    method BroadcastLists()
      modifies this`clients
      ensures State() == old(BroadcastRoomLists(config, State()))
    {
      hide DeliverAll, RoomSummaries;
      var list := ListRooms();
      DeliverEach(Named(State()), RoomList(list));
    }

    // ---- membership ----

    method EraseMember(r: RoomId, i: SessionId)
      modifies this`rooms
      ensures State() == old(Erase(State(), r, i))
    {
      if r in rooms { UpdateRoom(r, rooms[r].(members := rooms[r].members - {i})); }
    }

    method TakeSeat(i: SessionId, target: RoomId)
      requires target in rooms
      modifies this`rooms, this`clients
      ensures State() == old(Reseat(State(), i, target))
    {
      EraseMember(Of(State(), i).activeRoom, i);
      UpdateRoom(target, rooms[target].(members := rooms[target].members + {i}));
      Update(i, Of(State(), i).(activeRoom := target));
    }

    method SendHistory(i: SessionId, r: RoomId, name: Text, history: seq<Text>)
      modifies this`clients
      ensures State() == old(Replay(config, State(), i, r, name, history))
    {
      hide DeliverAll;
      if history == [] { return; }
      DeliverTo(i, DirectText("[system] Recent messages in #" + name + ":"));
      ghost var target := DeliverHistory(config, State(), i, r, history);
      assert history[0..] == history;
      for k := 0 to |history|
        invariant DeliverHistory(config, State(), i, r, history[k..]) == target
      {
        assert history[k..][1..] == history[k + 1..];
        DeliverTo(i, RoomText(r, history[k]));
      }
      assert history[|history|..] == [];
    }

    method Farewell(prev: RoomId, nick: Text, name: Text)
      modifies this
      ensures State() == old(LeaveNotice(config, State(), prev, nick, name))
    {
      hide BroadcastRoom, BroadcastUsers;
      BroadcastText(prev, "[system] " + nick + " left for #" + name, []);
      BroadcastUserList(prev);
    }

    method Welcome(r: RoomId, nick: Text, name: Text)
      modifies this
      ensures State() == old(EnterNotice(config, State(), r, nick, name))
    {
      hide BroadcastRoom, BroadcastUsers, BroadcastRoomLists;
      BroadcastText(r, "[system] " + nick + " joined #" + name, []);
      BroadcastUserList(r);
      BroadcastLists();
    }

    method MoveSessionToRoom(i: SessionId, target: RoomId, announce: bool)
      modifies this
      ensures State() == old(MoveSession(config, State(), i, target, announce))
    {
      hide Reseat, LeaveNotice, EnterNotice, Replay, DeliverAll;
      if target !in rooms { return; }
      var prev, nick, room := Of(State(), i).activeRoom, Of(State(), i).nickname, rooms[target];
      TakeSeat(i, target);
      if announce && prev != 0 { Farewell(prev, nick, room.name); }
      DeliverTo(i, RoomJoined(target, room.name, room.topic));
      SendHistory(i, target, room.name, room.recent);
      Welcome(target, nick, room.name);
    }

    method MoveLocalToRoom(target: RoomId)
      modifies this
      ensures State() == old(MoveLocal(config, State(), target))
    {
      hide LeaveNotice, EnterNotice;
      if target !in rooms { return; }
      var prev, name := localRoomId, rooms[target].name;
      localRoomId := target;
      if prev != 0 { Farewell(prev, config.localNickname, name); }
      Welcome(target, config.localNickname, name);
    }

    method Disconnect(i: SessionId, announce: bool)
      modifies this
      ensures State() == old(Depart(config, State(), i, announce))
    {
      hide Erase, BroadcastRoom, BroadcastUsers, BroadcastRoomLists;
      var prev, nick := Of(State(), i).activeRoom, Of(State(), i).nickname;
      sessions := sessions - {i};
      Update(i, Of(State(), i).(activeRoom := 0));
      if prev == 0 { return; }
      var removed := prev in rooms && i in rooms[prev].members;
      if !removed { return; }
      EraseMember(prev, i);
      if announce && nick != [] { BroadcastText(prev, "[system] " + nick + " left", []); }
      BroadcastUserList(prev);
      BroadcastLists();
    }

    method CloseSession(i: SessionId)
      modifies this`clients
      ensures State() == old(Close(State(), i))
    {
      Update(i, Of(State(), i).(closing := true));
    }

    method StopReading(i: SessionId)
      modifies this`clients
      ensures State() == old(Stop(State(), i))
    {
      Update(i, Of(State(), i).(phase := Stopped));
    }

    method DropSession(i: SessionId, m: ServerMessage)
      modifies this
      ensures State() == old(Drop(config, State(), i, m))
    {
      hide DeliverAll, Depart, Close, Stop;
      DeliverTo(i, m);
      CloseSession(i);
      Disconnect(i, false);
      StopReading(i);
    }

    // ---- rooms ----

    method FindRoomByName(name: Text) returns (found: bool, r: RoomId)
      ensures found == NameExists(State(), name) && r == FindRoom(State(), name)
    {
      hide Lower, Ordered;
      var ids := Walk(rooms.Keys);
      var wanted := Lower(name);
      assert ids[0..] == ids;
      for k := 0 to |ids|
        invariant FirstMatch(State(), name, ids[k..]) == FirstMatch(State(), name, ids)
        invariant forall j :: 0 <= j < k ==> !IsMatch(State(), name, ids[j])
      {
        assert ids[k..][0] == ids[k] && ids[k..][1..] == ids[k + 1..];
        assert ids[k] in ids;
        if Lower(rooms[ids[k]].name) == wanted {
          assert IsMatch(State(), name, ids[k]);
          return true, ids[k];
        }
      }
      forall q | q in rooms ensures !IsMatch(State(), name, q) {
        assert q in ids;
      }
      found, r := false, 0;
    }

    method CheckCreation(name: Text) returns (error: Text)
      ensures error == CreationError(State(), name)
    {
      hide IsValidRoomName, NameExists, FindRoom;
      if !IsValidRoomName(name) { return BAD_ROOM_NAME; }
      if |rooms| >= MAX_ROOMS { return "This server has reached its room limit"; }
      var found, _ := FindRoomByName(name);
      if found { return "A room named '" + name + "' already exists"; }
      error := [];
    }

    method AppendRoom(name: Text, owner: Text) returns (id: RoomId)
      modifies this`rooms, this`nextRoomId, this`writes
      ensures State() == old(AddRoom(State(), name, owner)) && id == old(nextRoomId)
    {
      id := nextRoomId;
      nextRoomId := nextRoomId + 1;
      var room := Room(name, [], owner, [], {});
      UpdateRoom(id, room);
      Enqueue(RoomWrite(id, RoomRow(room)));
    }

    method CreateRoom(i: SessionId, name: Text) returns (error: Option<Text>)
      modifies this
      ensures match old(CreateRoomFor(config, State(), i, name))
              case Done(t) => State() == t && error == None
              case Refused(e) => State() == old(State()) && error == Some(e)
    {
      hide CreationError, AddRoom, MoveSession;
      var reason := CheckCreation(name);
      if reason != [] { return Some(reason); }
      var id := AppendRoom(name, Of(State(), i).nickname);
      MoveSessionToRoom(i, id, true);
      error := None;
    }

    method JoinRoom(i: SessionId, name: Text) returns (error: Option<Text>)
      modifies this
      ensures match old(JoinRoomFor(config, State(), i, name))
              case Done(t) => State() == t && error == None
              case Refused(e) => State() == old(State()) && error == Some(e)
    {
      hide NameExists, FindRoom, MoveSession;
      var found, r := FindRoomByName(name);
      if !found { return Some("Room '" + name + "' does not exist"); }
      if Of(State(), i).activeRoom == r { return Some("Already in room '" + name + "'"); }
      MoveSessionToRoom(i, r, true);
      error := None;
    }

    method LeaveRoom(i: SessionId) returns (error: Option<Text>)
      modifies this
      ensures match old(LeaveRoomFor(config, State(), i))
              case Done(t) => State() == t && error == None
              case Refused(e) => State() == old(State()) && error == Some(e)
    {
      hide MoveSession;
      if Of(State(), i).activeRoom == LOBBY { return Some("Already in the lobby"); }
      MoveSessionToRoom(i, LOBBY, true);
      error := None;
    }

    method StoreTopic(r: RoomId, topic: Text) returns (members: set<SessionId>)
      requires r in rooms
      modifies this`rooms, this`writes
      ensures State() == old(Written(WithRoom(State(), r, rooms[r].(topic := topic)), TopicWrite(r, topic)))
      ensures members == old(rooms[r].members)
    {
      members := rooms[r].members;
      UpdateRoom(r, rooms[r].(topic := topic));
      Enqueue(TopicWrite(r, topic));
    }

    method SetTopicForRoom(r: RoomId, actor: Text, privileged: bool, topic: Text) returns (error: Option<Text>)
      modifies this
      ensures match old(SetTopic(config, State(), r, actor, privileged, topic))
              case Done(t) => State() == t && error == None
              case Refused(e) => State() == old(State()) && error == Some(e)
    {
      hide IsValidRoomTopic, DeliverAll, BroadcastRoom, WithRoom, Written;
      if !IsValidRoomTopic(topic) { return Some(BAD_TOPIC); }
      if r !in rooms { return Some("The active room no longer exists"); }
      if !privileged && rooms[r].owner != actor { return Some(NOT_TOPIC_OWNER); }
      var members := StoreTopic(r, topic);
      DeliverEach(members, RoomTopic(r, topic));
      BroadcastText(r, "[system] " + actor + " changed the topic to: " + topic, []);
      error := None;
    }

    // ---- moderation ----

    method FindFirst(ids: seq<SessionId>, nick: Text) returns (r: Option<SessionId>)
      ensures r == FirstNamed(State(), ids, nick)
    {
      assert ids[0..] == ids;
      for k := 0 to |ids|
        invariant FirstNamed(State(), ids[k..], nick) == FirstNamed(State(), ids, nick)
      {
        assert ids[k..][1..] == ids[k + 1..];
        if Of(State(), ids[k]).nickname == nick { return Some(ids[k]); }
      }
      assert ids[|ids|..] == [];
      r := None;
    }

    method FindLast(ids: seq<SessionId>, nick: Text) returns (r: Option<SessionId>)
      ensures r == LastNamed(State(), ids, nick)
    {
      r := None;
      for k := 0 to |ids|
        invariant r == LastNamed(State(), ids[..k], nick)
      {
        assert ids[..k + 1][..k] == ids[..k];
        if Of(State(), ids[k]).nickname == nick { r := Some(ids[k]); }
      }
      assert ids[..|ids|] == ids;
    }

    method ExpelSession(i: SessionId, nick: Text, reason: Text)
      modifies this
      ensures State() == old(Expel(config, State(), i, nick, reason))
    {
      hide DeliverAll, Close, Depart;
      DeliverTo(i, Kick(nick, reason));
      CloseSession(i);
      Disconnect(i, false);
    }

    method KickUserInRoom(r: RoomId, nick: Text, reason: Text) returns (kicked: bool)
      modifies this
      ensures match old(KickInRoom(config, State(), r, nick, reason))
              case Some(t) => State() == t && kicked
              case None => State() == old(State()) && !kicked
    {
      hide Expel, BroadcastRoom, BroadcastUsers, FirstNamed, Ordered;
      if r !in rooms { return false; }
      var members := Walk(RoomOf(State(), r).members);
      var target := FindFirst(members, nick);
      if target.None? { return false; }
      ExpelSession(target.value, nick, reason);
      BroadcastText(r, "[system] " + nick + " was kicked" + (if reason == [] then "" else ": " + reason), []);
      BroadcastUserList(r);
      kicked := true;
    }

    method KickFrom(i: SessionId, nick: Text, reason: Text) returns (error: Option<Text>)
      modifies this
      ensures match old(KickFor(config, State(), i, nick, reason))
              case Done(t) => State() == t && error == None
              case Refused(e) => State() == old(State()) && error == Some(e)
    {
      hide KickInRoom;
      var r := Of(State(), i).activeRoom;
      if r !in rooms || rooms[r].owner != Of(State(), i).nickname {
        return Some(NOT_CREATOR);
      }
      if nick == Of(State(), i).nickname { return Some("You cannot kick yourself"); }
      var kicked := KickUserInRoom(r, nick, reason);
      error := if kicked then None else Some("User '" + nick + "' is not in this room");
    }

    method BanUser(nick: Text, reason: Text)
      modifies this
      ensures State() == old(Ban(config, State(), nick, reason))
    {
      hide Expel, BroadcastRoom, BroadcastUsers, FirstNamed, Ordered;
      bans := bans + {nick};
      Enqueue(BanWrite(nick, reason));
      var ids := Walk(sessions);
      var target := FindFirst(ids, nick);
      if target.None? { return; }
      var r := Of(State(), target.value).activeRoom;
      ExpelSession(target.value, nick, if reason == [] then "banned" else reason);
      BroadcastText(r, "[system] " + nick + " has been banned", []);
      BroadcastUserList(r);
    }

    method UnbanUser(nick: Text) returns (removed: bool)
      modifies this`bans, this`writes
      ensures State() == old(Unban(State(), nick)) && removed == old(nick in bans)
    {
      removed := nick in bans;
      bans := bans - {nick};
      if removed { Enqueue(BanRemove(nick)); }
      assert !removed ==> bans == old(bans);
    }

    // ---- identities ----

    method IdentityAvailableFor(nick: Text, key: Text) returns (error: Text)
      ensures error == IdentityError(State(), nick, key)
    {
      hide IsValidNickname, IsHex;
      if !IsValidNickname(nick) { return "Invalid nickname"; }
      if !IsHex(key, 64) { return "Invalid identity public key"; }
      if nick in identities && identities[nick] != key { return OTHER_KEY; }
      error := [];
    }

    method IsNicknameTaken(nick: Text) returns (taken: bool)
      ensures taken == NicknameInUse(config, State(), nick)
    {
      if config.localNickname != [] && config.localNickname == nick { return true; }
      var ids := Walk(sessions);
      var found := FindFirst(ids, nick);
      taken := found.Some?;
    }

    method BindIdentity(nick: Text, key: Text) returns (ok: bool)
      modifies this`identities, this`writes
      ensures ok == old(CanBind(State(), nick, key))
      ensures State() == if ok then old(Bind(State(), nick, key)) else old(State())
    {
      if nick in identities { return identities[nick] == key; }
      identities := identities[nick := key];
      Enqueue(IdentityWrite(nick, key));
      ok := true;
    }

    // ---- private messages ----

    method SendPrivateInRoom(sender: Text, target: Text, body: Text, r: RoomId, timeOfDay: Text)
      modifies this`clients
      ensures State() == old(SendPrivate(config, State(), sender, target, body, r, timeOfDay))
    {
      hide DeliverAll, LastNamed, Ordered, NotHere, PrivateLine;
      if r !in rooms { return; }
      var members := Walk(rooms[r].members);
      var from := FindLast(members, sender);
      var to := FindLast(members, target);
      var toHost := config.localNickname != [] && localRoomId == r && target == config.localNickname;
      if to.None? && !toHost {
        if from.Some? { DeliverTo(from.value, NotHere(target)); }
        return;
      }
      var line := PrivateLine(timeOfDay, sender, target, body);
      if to.Some? { DeliverTo(to.value, line); }
      if from.Some? && sender != target { DeliverTo(from.value, line); }
    }

    // ---- the read loop's handler ----

    method Report(i: SessionId, error: Option<Text>)
      modifies this`clients
      ensures State() == if error.None? then old(State()) else old(Deliver(config, State(), i, ServerError(error.value)))
    {
      hide DeliverAll;
      if error.Some? { DeliverTo(i, ServerError(error.value)); }
    }

    method HandleHello(i: SessionId, version: nat)
      modifies this`clients
      ensures State() == old(OnHello(config, State(), i, version))
    {
      hide DeliverAll, ServerModel.With;
      if Of(State(), i).negotiated {
        DeliverTo(i, ServerError("Protocol handshake already completed"));
        return;
      }
      Update(i, Of(State(), i).(negotiated := version == VERSION));
      if config.password != [] { DeliverTo(i, AuthRequired); } else { DeliverTo(i, AuthAccepted); }
    }

    method HandleAuthenticate(i: SessionId, password: Text)
      modifies this
      ensures State() == old(OnAuthenticate(config, State(), i, password))
    {
      hide DeliverAll, ServerModel.With, Drop;
      if password == config.password {
        Update(i, Of(State(), i).(authenticated := true));
        DeliverTo(i, AuthAccepted);
      } else {
        DropSession(i, AuthRejected);
      }
    }

    method HandleIdentify(i: SessionId, nick: Text, key: Text, challenge: Text)
      modifies this
      ensures State() == old(OnIdentify(config, State(), i, nick, key, challenge))
    {
      hide DeliverAll, ServerModel.With, Drop, IdentityError, NicknameInUse;
      if Of(State(), i).nickname != [] {
        DeliverTo(i, JoinRejected("Already joined"));
        return;
      }
      var error := IdentityAvailableFor(nick, key);
      if error != [] {
        DropSession(i, JoinRejected(error));
        return;
      }
      if nick in bans {
        DropSession(i, Banned);
        return;
      }
      var taken := IsNicknameTaken(nick);
      if taken {
        DropSession(i, ServerMessage.NicknameTaken);
        return;
      }
      Update(i, Of(State(), i).(pendingNickname := nick, pendingKey := key, pendingChallenge := challenge));
      DeliverTo(i, Challenge(challenge));
    }

    method HandleProof(i: SessionId, signature: Text)
      modifies this
      ensures State() == old(OnProof(config, State(), i, signature))
    {
      hide DeliverAll, ServerModel.With, Drop, NicknameInUse, Bind, CanBind, MoveSession, Fingerprint;
      var x := Of(State(), i);
      if x.nickname != [] {
        DeliverTo(i, JoinRejected("Already joined"));
        return;
      }
      if x.pendingNickname == [] || x.pendingKey == [] || x.pendingChallenge == [] {
        DropSession(i, JoinRejected("Identify before sending proof"));
        return;
      }
      if !config.verifies(x.pendingKey, x.pendingChallenge, signature) {
        DropSession(i, JoinRejected("Identity proof failed"));
        return;
      }
      if x.pendingNickname in bans {
        DropSession(i, Banned);
        return;
      }
      var taken := IsNicknameTaken(x.pendingNickname);
      if taken {
        DropSession(i, ServerMessage.NicknameTaken);
        return;
      }
      var bound := BindIdentity(x.pendingNickname, x.pendingKey);
      if !bound {
        DropSession(i, JoinRejected("Identity registration failed"));
        return;
      }
      Update(i, x.(nickname := x.pendingNickname, pendingNickname := [], pendingKey := [], pendingChallenge := []));
      DeliverTo(i, IdentityAccepted(Fingerprint(x.pendingKey)));
      DeliverTo(i, JoinAccepted);
      MoveSessionToRoom(i, LOBBY, false);
    }

    method ConsumeMessageQuota(i: SessionId, now: int) returns (ok: bool)
      modifies this`clients
      ensures (ok, State()) == old(ConsumeQuota(State(), i, now))
    {
      hide RateLimit.Consume;
      var x := Of(State(), i);
      var (accepted, quota) := RateLimit.Consume(x.quota, x.activeRoom, now);
      Update(i, x.(quota := quota));
      ok := accepted;
    }

    method HandleChat(i: SessionId, body: Text, env: Env)
      modifies this
      ensures State() == old(OnChat(config, State(), i, body, env))
    {
      hide DeliverAll, ConsumeQuota, BroadcastRoom, IsValidText;
      var x := Of(State(), i);
      if x.nickname == [] {
        DeliverTo(i, DirectText(JOIN_FIRST));
        return;
      }
      var ok := ConsumeMessageQuota(i, env.now);
      if !ok {
        DeliverTo(i, DirectText(SLOW_DOWN));
        return;
      }
      if !IsValidText(body, MAX_CHAT_LENGTH) {
        DeliverTo(i, DirectText("[system] Invalid message text"));
        return;
      }
      BroadcastText(x.activeRoom, "[" + env.timeOfDay + "] " + x.nickname + ": " + body, x.nickname);
    }

    method HandleWhisper(i: SessionId, target: Text, body: Text, env: Env)
      modifies this
      ensures State() == old(OnWhisper(config, State(), i, target, body, env))
    {
      hide DeliverAll, ConsumeQuota, SendPrivate, IsValidText, IsValidNickname;
      var x := Of(State(), i);
      if x.nickname == [] {
        DeliverTo(i, DirectText(JOIN_FIRST));
        return;
      }
      var ok := ConsumeMessageQuota(i, env.now);
      if !ok {
        DeliverTo(i, DirectText(SLOW_DOWN));
        return;
      }
      if !IsValidNickname(target) || !IsValidText(body, MAX_CHAT_LENGTH) {
        DeliverTo(i, DirectText(BAD_WHISPER));
        return;
      }
      SendPrivateInRoom(x.nickname, target, body, x.activeRoom, env.timeOfDay);
    }

    method HandleTopic(i: SessionId, topic: Option<Text>)
      modifies this
      ensures State() == old(OnTopic(config, State(), i, topic))
    {
      hide DeliverAll, SetTopic;
      var x := Of(State(), i);
      if x.nickname == [] {
        DeliverTo(i, ServerError("Join before viewing a topic"));
      } else if topic.Some? {
        var error := SetTopicForRoom(x.activeRoom, x.nickname, false, topic.value);
        Report(i, error);
      } else if x.activeRoom in rooms {
        DeliverTo(i, RoomTopic(x.activeRoom, rooms[x.activeRoom].topic));
      }
    }

    method HandleLeave(i: SessionId)
      modifies this
      ensures State() == old(OnLeave(config, State(), i))
    {
      hide DeliverAll, LeaveRoomFor;
      if Of(State(), i).nickname == [] {
        DeliverTo(i, DirectText(IGNORED_LEAVE));
        return;
      }
      var error := LeaveRoom(i);
      Report(i, error);
    }

    method HandleListRooms(i: SessionId)
      modifies this
      ensures State() == old(OnListRooms(config, State(), i))
    {
      hide DeliverAll, RoomSummaries;
      if Of(State(), i).nickname == [] {
        DeliverTo(i, ServerError("Join before listing rooms"));
        return;
      }
      var list := this.ListRooms();
      DeliverTo(i, RoomList(list));
    }

    method HandleCreateRoom(i: SessionId, name: Text)
      modifies this
      ensures State() == old(OnCreateRoom(config, State(), i, name))
    {
      hide DeliverAll, CreateRoomFor;
      if Of(State(), i).nickname == [] {
        DeliverTo(i, ServerError("Join before creating rooms"));
        return;
      }
      var error := this.CreateRoom(i, name);
      Report(i, error);
    }

    method HandleJoinRoom(i: SessionId, name: Text)
      modifies this
      ensures State() == old(OnJoinRoom(config, State(), i, name))
    {
      hide DeliverAll, JoinRoomFor;
      if Of(State(), i).nickname == [] {
        DeliverTo(i, ServerError("Join before switching rooms"));
        return;
      }
      var error := this.JoinRoom(i, name);
      Report(i, error);
    }

    method HandleKick(i: SessionId, nick: Text, reason: Text)
      modifies this
      ensures State() == old(OnKickRequest(config, State(), i, nick, reason))
    {
      hide DeliverAll, KickFor;
      if Of(State(), i).nickname == [] {
        DeliverTo(i, ServerError("Join before moderating a room"));
        return;
      }
      var error := KickFrom(i, nick, reason);
      Report(i, error);
    }

    method HandleCommand(i: SessionId, m: ClientMessage, env: Env)
      modifies this
      ensures State() == old(OnCommand(config, State(), i, m, env))
    {
      hide DeliverAll, OnIdentify, OnProof, OnTopic, OnChat, OnWhisper, OnLeave, OnListRooms, OnCreateRoom, OnJoinRoom,
        OnKickRequest, Depart, Close, Stop;
      match m {
        case Identify(nick, key) => HandleIdentify(i, nick, key, env.challenge);
        case IdentityProof(signature) => HandleProof(i, signature);
        case Leave => HandleLeave(i);
        case Disconnect =>
          this.Disconnect(i, true);
          CloseSession(i);
          StopReading(i);
        case ListRooms => HandleListRooms(i);
        case CreateRoom(name) => HandleCreateRoom(i, name);
        case JoinRoom(name) => HandleJoinRoom(i, name);
        case TopicRequest(topic) => HandleTopic(i, topic);
        case Chat(body) => HandleChat(i, body, env);
        case Whisper(target, body) => HandleWhisper(i, target, body, env);
        case KickRequest(nick, reason) => HandleKick(i, nick, reason);
        case Hello(_) =>
        case Authenticate(_) =>
      }
    }

    /** The read loop's handler of a decoded frame. */
    method HandleMessage(i: SessionId, m: ClientMessage, env: Env)
      modifies this
      ensures State() == old(Step(config, State(), Received(i, m, env)))
    {
      hide DeliverAll, OnHello, OnAuthenticate, OnCommand, Drop;
      if m.Hello? {
        HandleHello(i, m.version);
      } else if !Of(State(), i).negotiated {
        DropSession(i, ServerError("Protocol handshake required"));
      } else if m.Authenticate? {
        HandleAuthenticate(i, m.password);
      } else if config.password != [] && !Of(State(), i).authenticated {
        DeliverTo(i, AuthRequired);
      } else {
        HandleCommand(i, m, env);
      }
    }

    method HandleBadFrame(i: SessionId, error: Error, detail: Text)
      modifies this
      ensures State() == old(Step(config, State(), BadFrame(i, error, detail)))
    {
      hide DeliverAll, Drop;
      var reply := ServerError("Invalid client frame: " + detail);
      if error == UnsupportedVersion { DropSession(i, reply); } else { DeliverTo(i, reply); }
    }

    method HandleReadFailure(i: SessionId, announce: bool)
      modifies this
      ensures State() == old(Step(config, State(), ReadFailed(i, announce)))
    {
      hide Depart, Stop;
      Disconnect(i, announce);
      StopReading(i);
    }

    // ---- connections and the host ----

    method Join(i: SessionId)
      modifies this`clients, this`sessions
      ensures State() == old(Step(config, State(), Accept(i)))
    {
      clients := clients[i := NEW_SESSION];
      sessions := sessions + {i};
    }

    method HandleHandshake(i: SessionId, ok: bool)
      modifies this
      ensures State() == old(Step(config, State(), HandshakeDone(i, ok)))
    {
      hide DeliverAll, Depart, Stop, ServerModel.With;
      if ok {
        Update(i, Of(State(), i).(phase := Reading));
        DeliverTo(i, ServerMessage.Hello(VERSION));
      } else {
        Disconnect(i, false);
        StopReading(i);
      }
    }

    method StartLocalUser()
      modifies this
      ensures State() == old(Step(config, State(), Input.StartLocalUser))
    {
      hide BroadcastUsers, BroadcastRoomLists;
      if config.localNickname == [] { return; }
      localRoomId := LOBBY;
      BroadcastUserList(LOBBY);
      BroadcastLists();
    }

    method CreateLocalRoom(name: Text)
      modifies this
      ensures State() == old(Step(config, State(), Input.CreateLocalRoom(name)))
    {
      hide CreationError, AddRoom, MoveLocal;
      if config.localNickname == [] { return; }
      var error := CheckCreation(name);
      if error != [] { return; }
      var id := AppendRoom(name, config.localNickname);
      MoveLocalToRoom(id);
    }

    method CreateAdminRoom(name: Text)
      modifies this
      ensures State() == old(Step(config, State(), Input.CreateAdminRoom(name)))
    {
      hide CreationError, AddRoom, BroadcastRoomLists;
      var error := CheckCreation(name);
      if error != [] { return; }
      var _ := AppendRoom(name, []);
      BroadcastLists();
    }

    method JoinLocalRoom(name: Text)
      modifies this
      ensures State() == old(Step(config, State(), Input.JoinLocalRoom(name)))
    {
      hide NameExists, FindRoom, MoveLocal;
      var found, r := FindRoomByName(name);
      if !found || localRoomId == r { return; }
      MoveLocalToRoom(r);
    }

    method LeaveLocalRoom()
      modifies this
      ensures State() == old(Step(config, State(), Input.LeaveLocalRoom))
    {
      hide MoveLocal;
      if localRoomId == LOBBY { return; }
      MoveLocalToRoom(LOBBY);
    }

    /** To the host's room, or to the lobby while the host is in none. */
    method Broadcast(text: Text)
      modifies this
      ensures State() == old(Step(config, State(), Input.Broadcast(text)))
    {
      hide BroadcastRoom;
      var r := localRoomId;
      if r == 0 { r := LOBBY; }
      BroadcastText(r, text, []);
    }

    method BroadcastToAll(text: Text)
      modifies this
      ensures State() == old(Step(config, State(), BroadcastServer(text)))
    {
      hide BroadcastRoom, Ordered;
      var ids := Walk(rooms.Keys);
      ghost var target := BroadcastEach(config, State(), ids, "[SERVER] " + text);
      assert ids[0..] == ids;
      for k := 0 to |ids|
        invariant BroadcastEach(config, State(), ids[k..], "[SERVER] " + text) == target
      {
        assert ids[k..][1..] == ids[k + 1..];
        BroadcastText(ids[k], "[SERVER] " + text, []);
      }
      assert ids[|ids|..] == [];
    }

    method RoomOfUser(nick: Text) returns (r: RoomId)
      ensures r == RoomFor(State(), nick)
    {
      hide FirstNamed, Ordered;
      if localRoomId != 0 { return localRoomId; }
      var ids := Walk(sessions);
      var found := FindFirst(ids, nick);
      r := if found.Some? then Of(State(), found.value).activeRoom else 0;
    }

    method KickUser(nick: Text, reason: Text) returns (kicked: bool)
      modifies this
      ensures State() == old(Step(config, State(), Input.KickUser(nick, reason)))
      ensures kicked == old(
                RoomFor(State(), nick) != 0 && KickInRoom(config, State(), RoomFor(State(), nick), nick, reason).Some?)
    {
      hide KickInRoom, RoomFor;
      var r := RoomOfUser(nick);
      if r == 0 { return false; }
      kicked := KickUserInRoom(r, nick, reason);
    }

    method KickUserInNamedRoom(name: Text, nick: Text, reason: Text) returns (error: Option<Text>)
      modifies this
      ensures State() == old(Step(config, State(), Input.KickUserInRoom(name, nick, reason)))
      ensures error == old(
                if !NameExists(State(), name) then Some("Room '" + name + "' does not exist")
                else if KickInRoom(config, State(), FindRoom(State(), name), nick, reason).None? then
                  Some("User '" + nick + "' is not in #" + name)
                else None)
    {
      hide KickInRoom, NameExists, FindRoom;
      var found, r := FindRoomByName(name);
      if !found { return Some("Room '" + name + "' does not exist"); }
      var kicked := KickUserInRoom(r, nick, reason);
      error := if kicked then None else Some("User '" + nick + "' is not in #" + name);
    }

    method SetLocalTopic(topic: Text) returns (error: Option<Text>)
      modifies this
      ensures State() == old(Step(config, State(), Input.SetLocalTopic(topic)))
      ensures error == old(ErrorOf(SetTopic(config, State(), localRoomId, config.localNickname, true, topic)))
    {
      hide SetTopic;
      error := SetTopicForRoom(localRoomId, config.localNickname, true, topic);
    }

    method SetAdminTopic(name: Text, topic: Text) returns (error: Option<Text>)
      modifies this
      ensures State() == old(Step(config, State(), Input.SetAdminTopic(name, topic)))
      ensures error == old(
                if !NameExists(State(), name) then Some("Room '" + name + "' does not exist")
                else ErrorOf(SetTopic(config, State(), FindRoom(State(), name), "server", true, topic)))
    {
      hide SetTopic, NameExists, FindRoom;
      var found, r := FindRoomByName(name);
      if !found { return Some("Room '" + name + "' does not exist"); }
      error := SetTopicForRoom(r, "server", true, topic);
    }

    method SendLocalPrivate(target: Text, body: Text, timeOfDay: Text)
      modifies this`clients
      ensures State() == old(Step(config, State(), Input.SendLocalPrivate(target, body, timeOfDay)))
    {
      hide SendPrivate, RoomFor;
      var r := RoomOfUser(config.localNickname);
      SendPrivateInRoom(config.localNickname, target, body, r, timeOfDay);
    }

    method RegisterLocalIdentity(nick: Text, key: Text) returns (ok: bool)
      modifies this`identities, this`writes
      ensures State() == old(Step(config, State(), Input.RegisterLocalIdentity(nick, key)))
      ensures ok == old(IdentityError(State(), nick, key) == [] && CanBind(State(), nick, key))
    {
      hide IdentityError, CanBind, Bind;
      var error := IdentityAvailableFor(nick, key);
      if error != [] { return false; }
      ok := BindIdentity(nick, key);
    }

    // ---- any input ----

    /** What the connections, the host and the administrator can ask of the server, all together. */
    method Perform(e: Input)
      modifies this
      ensures State() == old(Step(config, State(), e))
    {
      if e.Accept? || e.HandshakeDone? || e.ReadFailed? || e.BadFrame? || e.Received? { PerformHandler(e); }
      else if e.KickUser? || e.KickUserInRoom? || e.BanUser? || e.UnbanUser? || e.RegisterLocalIdentity? || e.SetAdminTopic? {
        PerformModeration(e);
      }
      else { PerformHostCall(e); }
    }

    method PerformHandler(e: Input)
      requires e.Accept? || e.HandshakeDone? || e.ReadFailed? || e.BadFrame? || e.Received?
      modifies this
      ensures State() == old(Step(config, State(), e))
    {
      hide OnMessage, OnBadFrame, Depart, Stop, DeliverAll, ServerModel.With;
      match e
      case Accept(i) => Join(i);
      case HandshakeDone(i, ok) => HandleHandshake(i, ok);
      case ReadFailed(i, announce) => HandleReadFailure(i, announce);
      case BadFrame(i, error, detail) => HandleBadFrame(i, error, detail);
      case Received(i, m, env) => HandleMessage(i, m, env);
    }

    method PerformModeration(e: Input)
      requires e.KickUser? || e.KickUserInRoom? || e.BanUser? || e.UnbanUser? || e.RegisterLocalIdentity? || e.SetAdminTopic?
      modifies this
      ensures State() == old(Step(config, State(), e))
    {
      hide Ban, Unban, KickInRoom, NameExists, FindRoom, RoomFor, SetTopic, IdentityError, CanBind, Bind;
      match e
      case KickUser(nick, reason) => var _ := KickUser(nick, reason);
      case KickUserInRoom(name, nick, reason) => var _ := KickUserInNamedRoom(name, nick, reason);
      case BanUser(nick, reason) => BanUser(nick, reason);
      case UnbanUser(nick) => var _ := UnbanUser(nick);
      case SetAdminTopic(name, topic) => var _ := SetAdminTopic(name, topic);
      case RegisterLocalIdentity(nick, key) => var _ := RegisterLocalIdentity(nick, key);
    }

    method PerformHostCall(e: Input)
      requires e.StartLocalUser? || e.CreateLocalRoom? || e.CreateAdminRoom? || e.JoinLocalRoom? || e.LeaveLocalRoom?
            || e.SetLocalTopic? || e.Broadcast? || e.BroadcastServer? || e.SendLocalPrivate?
      modifies this
      ensures State() == old(Step(config, State(), e))
    {
      hide BroadcastUsers, BroadcastRoomLists, BroadcastRoom, BroadcastEach, CreationError, AddRoom, MoveLocal, NameExists,
        FindRoom, SetTopic, SendPrivate, RoomFor, Ordered;
      match e
      case StartLocalUser => StartLocalUser();
      case CreateLocalRoom(name) => CreateLocalRoom(name);
      case CreateAdminRoom(name) => CreateAdminRoom(name);
      case JoinLocalRoom(name) => JoinLocalRoom(name);
      case LeaveLocalRoom => LeaveLocalRoom();
      case SetLocalTopic(topic) => var _ := SetLocalTopic(topic);
      case Broadcast(text) => Broadcast(text);
      case BroadcastServer(text) => BroadcastToAll(text);
      case SendLocalPrivate(target, body, timeOfDay) => SendLocalPrivate(target, body, timeOfDay);
    }
  }

  lemma {:induction false} BoundedIs(history: seq<Text>, limit: nat)
    ensures Bounded(history, limit) == if |history| > limit then history[1..] else history
  {
  }

  lemma PostedToNone(clients: map<SessionId, Session>, m: ServerMessage)
    ensures PostAll(clients, {}, m) == clients
  {
  }

  lemma PostedOneMore(clients: map<SessionId, Session>, done: set<SessionId>, i: SessionId, m: ServerMessage)
    requires i !in done
    ensures var posted := PostAll(clients, done, m);
            PostAll(clients, done + {i}, m) == if i in posted then posted[i := Posted(posted[i], m)] else posted
  {
    hide Posted;
  }
}
