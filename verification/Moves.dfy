/** Where a request for another room leads, and what everyone is told of it. */
module Moves {
  import opened Octets
  import opened Messages
  import opened Tables
  import opened ServerModel
  import opened ServerStructure
  import opened ServerActions
  import opened ServerSafety
  import opened ServerReach
  import opened Speech
  import opened Deliveries
  import opened Entrance

  /** A session that is being read and has been admitted. */
  predicate IsMember(c: Config, s: Server, i: SessionId)
  {
    i in s.clients && s.clients[i].phase == Reading && MayCommand(c, s.clients[i]) && s.clients[i].nickname != []
  }

  /** Nothing but one message to session `i`. */
  ghost predicate OnlyTold(c: Config, s: Server, t: Server, i: SessionId, m: ServerMessage)
    requires i in s.clients
  {
    t == s.(clients := s.clients[i := Sent(c, s.clients[i], m)])
  }

  /** What the rooms left and entered remember of a move. */
  function MoveNotices(prev: RoomId, target: RoomId, nick: Text, name: Text): seq<Said>
  {
    (if prev != 0 then [Said(prev, "[system] " + nick + " left for #" + name, [])] else [])
    + [Said(target, "[system] " + nick + " joined #" + name, [])]
  }

  lemma MoveTextsAre(prev: RoomId, target: RoomId, nick: Text, name: Text)
    ensures MoveTexts(prev, target, true, nick, name) == MoveNotices(prev, target, nick, name)
  {
  }

  /** Session `i` is in room `r` now, everyone has been told, and nobody else is elsewhere. */
  ghost predicate HasMoved(c: Config, s: Server, t: Server, i: SessionId, r: RoomId)
    requires i in s.clients && r in s.rooms
  {
    && t.clients.Keys == s.clients.Keys && t.sessions == s.sessions && t.bans == s.bans && t.identities == s.identities
    && t.nextRoomId == s.nextRoomId && t.localRoomId == s.localRoomId
    && (forall j :: j in s.clients ==>
          Bare(t.clients[j]) == Bare(if j == i then s.clients[j].(activeRoom := r) else s.clients[j]))
    && (forall j :: j in s.clients ==> Gets(c, s, t, j, MoveMessages(c, s, t, i, r, true, j)))
    && Remembers(c, s, t, MoveNotices(s.clients[i].activeRoom, r, s.clients[i].nickname, s.rooms[r].name))
    && t.rooms.Keys == s.rooms.Keys && i in t.rooms[r].members
    && forall q :: q in s.rooms ==>
         && t.rooms[q].name == s.rooms[q].name && t.rooms[q].topic == s.rooms[q].topic && t.rooms[q].owner == s.rooms[q].owner
         && forall j :: j != i ==> (j in t.rooms[q].members <==> j in s.rooms[q].members)
  }

  // ---- a move ----

  lemma ReseatRooms(s: Server, i: SessionId, target: RoomId)
    requires i in s.clients && target in s.rooms
    ensures var t := Reseat(s, i, target);
      && t.identities == s.identities && t.rooms.Keys == s.rooms.Keys
      && forall q :: q in s.rooms ==>
           && t.rooms[q].name == s.rooms[q].name && t.rooms[q].topic == s.rooms[q].topic && t.rooms[q].owner == s.rooms[q].owner
           && forall j :: j != i ==> (j in t.rooms[q].members <==> j in s.rooms[q].members)
  {
  }

  lemma BareRoomIs(a: Room, b: Room)
    requires BareRoom(a) == BareRoom(b)
    ensures a.name == b.name && a.topic == b.topic && a.owner == b.owner && a.members == b.members
  {
    assert BareRoom(a).name == a.name && BareRoom(a).topic == a.topic;
    assert BareRoom(a).owner == a.owner && BareRoom(a).members == a.members;
  }

  lemma SeatsMoved(c: Config, s: Server, i: SessionId, r: RoomId)
    requires i in s.clients && r in s.rooms
    ensures var t := MoveSession(c, s, i, r, true);
      && t.clients.Keys == s.clients.Keys && t.sessions == s.sessions && t.bans == s.bans && t.identities == s.identities
      && t.nextRoomId == s.nextRoomId && t.localRoomId == s.localRoomId
      && forall j :: j in s.clients ==> Bare(t.clients[j]) == Bare(if j == i then s.clients[j].(activeRoom := r) else s.clients[j])
  {
    hide MoveSession, Core, Reseat, Bare;
    MoveSessionCore(c, s, i, r, true);
    ReseatFields(s, i, r);
    ReseatRooms(s, i, r);
    CoreKeys(Reseat(s, i, r), MoveSession(c, s, i, r, true));
    CoreFields(Reseat(s, i, r), MoveSession(c, s, i, r, true));
  }

  lemma RoomsMoved(c: Config, s: Server, i: SessionId, r: RoomId)
    requires i in s.clients && r in s.rooms
    ensures var t := MoveSession(c, s, i, r, true);
      && t.rooms.Keys == s.rooms.Keys
      && forall q :: q in s.rooms ==>
           && t.rooms[q].name == s.rooms[q].name && t.rooms[q].topic == s.rooms[q].topic && t.rooms[q].owner == s.rooms[q].owner
           && forall j :: j != i ==> (j in t.rooms[q].members <==> j in s.rooms[q].members)
  {
    hide MoveSession, Core, Reseat, BareRoom;
    var u, t := Reseat(s, i, r), MoveSession(c, s, i, r, true);
    MoveSessionCore(c, s, i, r, true);
    ReseatRooms(s, i, r);
    CoreKeys(u, t);
    forall q | q in s.rooms
      ensures t.rooms[q].name == s.rooms[q].name && t.rooms[q].topic == s.rooms[q].topic && t.rooms[q].owner == s.rooms[q].owner
      ensures t.rooms[q].members == u.rooms[q].members
    {
      BareRoomIs(u.rooms[q], t.rooms[q]);
    }
  }

  lemma MoveHasMoved(c: Config, s: Server, i: SessionId, r: RoomId)
    requires Sound(c, s) && i in s.clients && s.clients[i].nickname != [] && r in s.rooms && s.clients[i].activeRoom != r
    ensures HasMoved(c, s, MoveSession(c, s, i, r, true), i, r)
  {
    hide Sound, MoveSession, Bare, Gets, MoveMessages, Leads, MoveTexts, MoveNotices, Remembers;
    var t, x, name := MoveSession(c, s, i, r, true), s.clients[i], s.rooms[r].name;
    MoveLeads(c, s, i, r, true);
    MoveTextsAre(x.activeRoom, r, x.nickname, name);
    LeadsRemembers(c, s, t, MoveNotices(x.activeRoom, r, x.nickname, name));
    SeatsMoved(c, s, i, r);
    RoomsMoved(c, s, i, r);
    BareSeat(t.clients[i], s.clients[i].(activeRoom := r));
    MoveSessionSound(c, s, i, r, true);
    NextIsNotZero(c, s, r);
    SeatedThere(c, t, i, r);
    forall j | j in s.clients ensures Gets(c, s, t, j, MoveMessages(c, s, t, i, r, true, j)) {
      MoveGets(c, s, i, r, true, j);
    }
  }

  lemma NextIsNotZero(c: Config, s: Server, r: RoomId)
    requires Sound(c, s) && r in s.rooms
    ensures r != 0
  {
    hide DistinctNames, Handles, RoomTable;
  }

  // ---- join ----

  /** The room of that name, ignoring case. */
  predicate IsCalled(s: Server, r: RoomId, name: Text) { r in s.rooms && Lower(s.rooms[r].name) == Lower(name) }

  lemma OnlyOneCalled(c: Config, s: Server, r: RoomId, name: Text)
    requires Sound(c, s) && IsCalled(s, r, name)
    ensures NameExists(s, name) && FindRoom(s, name) == r
  {
    hide Seats, DistinctNames, Handles, Lower, FirstMatch, IsValidRoomName, IsValidRoomTopic;
    assert IsMatch(s, name, r);
  }

  lemma NoneCalled(s: Server, name: Text)
    requires forall r :: !IsCalled(s, r, name)
    ensures !NameExists(s, name)
  {
    hide Lower;
    forall r ensures !IsMatch(s, name, r) { assert !IsCalled(s, r, name); }
  }

  lemma JoinIs(c: Config, s: Server, i: SessionId, name: Text, env: Env)
    requires IsMember(c, s, i)
    ensures Step(c, s, Received(i, JoinRoom(name), env)) == Answer(c, s, i, JoinRoomFor(c, s, i, name))
  {
    hide Answer, JoinRoomFor, MayCommand, OnCommand;
    CommandIs(c, s, i, JoinRoom(name), env);
    JoinCommandIs(c, s, i, name, env);
  }

  lemma JoinCommandIs(c: Config, s: Server, i: SessionId, name: Text, env: Env)
    requires i in s.clients && s.clients[i].nickname != []
    ensures OnCommand(c, s, i, JoinRoom(name), env) == Answer(c, s, i, JoinRoomFor(c, s, i, name))
  {
    hide Answer, JoinRoomFor;
  }

  function AlreadyThere(name: Text): ServerMessage { ServerError("Already in room '" + name + "'") }

  function NoSuchRoom(name: Text): ServerMessage { ServerError("Room '" + name + "' does not exist") }

  /** In the room of that name, whatever room it was in before; or told that it is there already, or
      that there is none. */
  ghost predicate JoinLeadsTo(c: Config, s: Server, t: Server, i: SessionId, name: Text)
    requires i in s.clients
  {
    && (forall r :: IsCalled(s, r, name) ==>
          if s.clients[i].activeRoom == r then OnlyTold(c, s, t, i, AlreadyThere(name)) else HasMoved(c, s, t, i, r))
    && ((forall r :: !IsCalled(s, r, name)) ==> OnlyTold(c, s, t, i, NoSuchRoom(name)))
  }

  lemma JoinRoomForIs(c: Config, s: Server, i: SessionId, name: Text)
    requires i in s.clients
    ensures Answer(c, s, i, JoinRoomFor(c, s, i, name)) ==
      if !NameExists(s, name) then Deliver(c, s, i, NoSuchRoom(name))
      else if s.clients[i].activeRoom == FindRoom(s, name) then Deliver(c, s, i, AlreadyThere(name))
      else MoveSession(c, s, i, FindRoom(s, name), true)
  {
    hide DeliverAll, MoveSession, NameExists, FindRoom;
  }

  lemma JoinExactly(c: Config, s: Server, i: SessionId, name: Text, env: Env)
    requires Sound(c, s) && IsMember(c, s, i)
    ensures JoinLeadsTo(c, s, Step(c, s, Received(i, JoinRoom(name), env)), i, name)
  {
    hide Sound, MayCommand, Step, HasMoved, IsCalled, DeliverAll, MoveSession, NameExists, FindRoom, Sent, JoinRoomFor,
      AlreadyThere, NoSuchRoom;
    JoinIs(c, s, i, name, env);
    JoinRoomForIs(c, s, i, name);
    DeliverOne(c, s, i, AlreadyThere(name));
    DeliverOne(c, s, i, NoSuchRoom(name));
    forall r | IsCalled(s, r, name)
      ensures NameExists(s, name) && FindRoom(s, name) == r
      ensures s.clients[i].activeRoom != r ==> HasMoved(c, s, MoveSession(c, s, i, r, true), i, r)
    {
      OnlyOneCalled(c, s, r, name);
      CalledIsRoom(s, r, name);
      if s.clients[i].activeRoom != r { MoveHasMoved(c, s, i, r); }
    }
    if forall r :: !IsCalled(s, r, name) { NoneCalled(s, name); }
  }

  lemma CalledIsRoom(s: Server, r: RoomId, name: Text)
    requires IsCalled(s, r, name)
    ensures r in s.rooms
  {
  }

  // ---- create and leave ----

  /** The server with a new room under the next id, stored. */
  function WithFounded(s: Server, name: Text, owner: Text): Server
  {
    s.(rooms := s.rooms[s.nextRoomId := Room(name, [], owner, [], {})], nextRoomId := s.nextRoomId + 1,
       writes := s.writes + [RoomWrite(s.nextRoomId, StoredRoom(name, [], owner))])
  }

  /** Why a room of that name cannot be made, if so. */
  ghost function Obstacle(s: Server, name: Text): Option<Text>
  {
    if !IsValidRoomName(name) then Some(BAD_ROOM_NAME)
    else if |s.rooms| >= 32 then Some("This server has reached its room limit")
    else if exists r :: IsCalled(s, r, name) then Some("A room named '" + name + "' already exists")
    else None
  }

  lemma ObstacleIs(s: Server, name: Text)
    ensures Obstacle(s, name) == if CreationError(s, name) == [] then None else Some(CreationError(s, name))
  {
    hide IsValidRoomName, Lower;
    if NameExists(s, name) {
      var r :| IsMatch(s, name, r);
      assert IsCalled(s, r, name);
    } else {
      forall r ensures !IsCalled(s, r, name) { assert !IsMatch(s, name, r); }
    }
  }

  /** In a new room of that name and its own making; or told why not. */
  ghost predicate CreateLeadsTo(c: Config, s: Server, t: Server, i: SessionId, name: Text)
    requires i in s.clients
  {
    match Obstacle(s, name)
    case Some(error) => OnlyTold(c, s, t, i, ServerError(error))
    case None => HasMoved(c, WithFounded(s, name, s.clients[i].nickname), t, i, s.nextRoomId)
  }

  lemma CreateIs(c: Config, s: Server, i: SessionId, name: Text, env: Env)
    requires IsMember(c, s, i)
    ensures Step(c, s, Received(i, CreateRoom(name), env)) ==
      if CreationError(s, name) != [] then Deliver(c, s, i, ServerError(CreationError(s, name)))
      else MoveSession(c, WithFounded(s, name, s.clients[i].nickname), i, s.nextRoomId, true)
  {
    hide DeliverAll, MoveSession, CreationError, MayCommand, OnCommand;
    CommandIs(c, s, i, CreateRoom(name), env);
    CreateCommandIs(c, s, i, name, env);
  }

  lemma CreateCommandIs(c: Config, s: Server, i: SessionId, name: Text, env: Env)
    requires i in s.clients && s.clients[i].nickname != []
    ensures OnCommand(c, s, i, CreateRoom(name), env) ==
      if CreationError(s, name) != [] then Deliver(c, s, i, ServerError(CreationError(s, name)))
      else MoveSession(c, WithFounded(s, name, s.clients[i].nickname), i, s.nextRoomId, true)
  {
    hide DeliverAll, MoveSession, CreationError;
    assert AddRoom(s, name, s.clients[i].nickname) == WithFounded(s, name, s.clients[i].nickname);
  }

  lemma FoundedSound(c: Config, s: Server, name: Text, owner: Text)
    requires Sound(c, s) && CreationError(s, name) == []
    ensures Sound(c, WithFounded(s, name, owner)) && forall i :: i in s.clients ==> s.clients[i].activeRoom != s.nextRoomId
    ensures s.nextRoomId in WithFounded(s, name, owner).rooms && s.localRoomId != s.nextRoomId
  {
    assert AddRoom(s, name, owner) == WithFounded(s, name, owner);
    hide Sound, AddRoom, CreationError, WithFounded;
    AddRoomSound(c, s, name, owner);
    NextIsFree(c, s, name);
  }

  lemma CreateExactly(c: Config, s: Server, i: SessionId, name: Text, env: Env)
    requires Sound(c, s) && IsMember(c, s, i)
    ensures CreateLeadsTo(c, s, Step(c, s, Received(i, CreateRoom(name), env)), i, name)
  {
    hide Sound, MayCommand, Step, HasMoved, DeliverAll, MoveSession, CreationError, Obstacle, Sent;
    CreateIs(c, s, i, name, env);
    ObstacleIs(s, name);
    if CreationError(s, name) == [] {
      FoundedSound(c, s, name, s.clients[i].nickname);
      MoveHasMoved(c, WithFounded(s, name, s.clients[i].nickname), i, s.nextRoomId);
    } else {
      DeliverOne(c, s, i, ServerError(CreationError(s, name)));
    }
  }

  /** In the lobby; or told that it is there already. */
  ghost predicate LeaveLeadsTo(c: Config, s: Server, t: Server, i: SessionId)
    requires i in s.clients && LOBBY in s.rooms
  {
    if s.clients[i].activeRoom == LOBBY then OnlyTold(c, s, t, i, ServerError("Already in the lobby"))
    else HasMoved(c, s, t, i, LOBBY)
  }

  lemma LeaveIs(c: Config, s: Server, i: SessionId, env: Env)
    requires IsMember(c, s, i)
    ensures Step(c, s, Received(i, Leave, env)) ==
      if s.clients[i].activeRoom == LOBBY then Deliver(c, s, i, ServerError("Already in the lobby"))
      else MoveSession(c, s, i, LOBBY, true)
  {
    hide DeliverAll, MoveSession;
  }

  lemma LeaveExactly(c: Config, s: Server, i: SessionId, env: Env)
    requires Sound(c, s) && IsMember(c, s, i)
    ensures LOBBY in s.rooms && LeaveLeadsTo(c, s, Step(c, s, Received(i, Leave, env)), i)
  {
    hide Sound, MayCommand, Step, HasMoved, DeliverAll, MoveSession, Sent;
    LobbyExists(c, s);
    LeaveIs(c, s, i, env);
    if s.clients[i].activeRoom == LOBBY { DeliverOne(c, s, i, ServerError("Already in the lobby")); }
    else { MoveHasMoved(c, s, i, LOBBY); }
  }

  // ---- the host ----

  /** The host is in room `r` now, everyone has been told, and nobody else is elsewhere. */
  ghost predicate HostHasMoved(c: Config, s: Server, t: Server, r: RoomId)
    requires r in s.rooms
  {
    && t.localRoomId == r
    && t.clients.Keys == s.clients.Keys && t.sessions == s.sessions && t.bans == s.bans && t.identities == s.identities
    && t.nextRoomId == s.nextRoomId && t.rooms.Keys == s.rooms.Keys
    && (forall j :: j in s.clients ==> Bare(t.clients[j]) == Bare(s.clients[j]))
    && (forall j :: j in s.clients ==> Gets(c, s, t, j, HostMoveMessages(c, s, t, r, j)))
    && (forall q :: q in s.rooms ==> BareRoom(t.rooms[q]) == BareRoom(s.rooms[q]))
    && Remembers(c, s, t, MoveNotices(s.localRoomId, r, c.localNickname, s.rooms[r].name))
  }

  lemma HostMoves(c: Config, s: Server, r: RoomId)
    requires Sound(c, s) && r in s.rooms
    ensures HostHasMoved(c, s, MoveLocal(c, s, r), r)
  {
    hide Sound, MoveLocal, Bare, BareRoom, Core, Gets, HostMoveMessages, Leads, MoveTexts, MoveNotices, Remembers;
    var t, moved := MoveLocal(c, s, r), s.(localRoomId := r);
    MoveHostLeads(c, s, r);
    MoveTextsAre(s.localRoomId, r, c.localNickname, s.rooms[r].name);
    LeadsRemembers(c, s, t, MoveNotices(s.localRoomId, r, c.localNickname, s.rooms[r].name));
    MoveLocalCore(c, s, r);
    CoreKeys(moved, t);
    CoreFields(moved, t);
    forall j | j in s.clients ensures Gets(c, s, t, j, HostMoveMessages(c, s, t, r, j)) {
      HostMoveGets(c, s, r, j);
    }
  }

  /** The host that asks for a room is in the room of that name; if there is none, or it is there
      already, nothing happens. */
  lemma HostJoinExactly(c: Config, s: Server, name: Text)
    requires Sound(c, s)
    ensures var t := Step(c, s, JoinLocalRoom(name));
      && (forall r :: IsCalled(s, r, name) ==> if s.localRoomId == r then t == s else HostHasMoved(c, s, t, r))
      && ((forall r :: !IsCalled(s, r, name)) ==> t == s)
  {
    hide Sound, HostHasMoved, IsCalled, MoveLocal, NameExists, FindRoom;
    forall r | IsCalled(s, r, name) ensures NameExists(s, name) && FindRoom(s, name) == r && HostHasMoved(c, s, MoveLocal(c, s, r), r) {
      OnlyOneCalled(c, s, r, name);
      CalledIsRoom(s, r, name);
      HostMoves(c, s, r);
    }
    if forall r :: !IsCalled(s, r, name) { NoneCalled(s, name); }
  }

  lemma HostLeaveExactly(c: Config, s: Server)
    requires Sound(c, s)
    ensures LOBBY in s.rooms
    ensures var t := Step(c, s, LeaveLocalRoom); if s.localRoomId == LOBBY then t == s else HostHasMoved(c, s, t, LOBBY)
  {
    hide Sound, HostHasMoved, MoveLocal;
    LobbyExists(c, s);
    HostMoves(c, s, LOBBY);
  }

  /** A host that makes a room is in a new one of that name and its own making; without a nickname, or
      with an obstacle, nothing happens. */
  lemma HostCreateExactly(c: Config, s: Server, name: Text)
    requires Sound(c, s)
    ensures var t := Step(c, s, CreateLocalRoom(name));
      if c.localNickname == [] || Obstacle(s, name).Some? then t == s
      else HostHasMoved(c, WithFounded(s, name, c.localNickname), t, s.nextRoomId)
  {
    hide Sound, HostHasMoved, MoveLocal, CreationError, Obstacle;
    ObstacleIs(s, name);
    if CreationError(s, name) == [] {
      FoundedSound(c, s, name, c.localNickname);
      assert AddRoom(s, name, c.localNickname) == WithFounded(s, name, c.localNickname);
      HostMoves(c, WithFounded(s, name, c.localNickname), s.nextRoomId);
    }
  }
}
