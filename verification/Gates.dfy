/** The answers that depend on how far a session has got: the greeting, the hello, the password, what is
    refused before and after joining, and the questions anyone who has joined may ask; and the changes
    the host makes without moving. */
module Gates {
  import opened Octets
  import opened Base64
  import opened Messages
  import opened Tables
  import opened ServerModel
  import opened ServerStructure
  import opened ServerActions
  import opened ServerReach
  import opened Deliveries
  import opened Entrance
  import opened Moves
  import opened Departures
  import R = Rosters

  // ---- the handshake ----

  /** A new connection is registered, and nothing else happens. */
  lemma AcceptExactly(c: Config, s: Server, i: SessionId)
    requires i !in s.clients
    ensures var t := Step(c, s, Accept(i));
      && t == s.(clients := t.clients, sessions := s.sessions + {i})
      && t.clients.Keys == s.clients.Keys + {i} && (forall j :: j in s.clients ==> t.clients[j] == s.clients[j])
      && var x := t.clients[i];
         && x.nickname == [] && x.activeRoom == 0 && !x.negotiated && !x.authenticated && x.outbox == [] && !x.closing
         && x.phase == Handshaking
  {
  }

  /** One whose TLS handshake is done is greeted with the protocol version, and read from then on. */
  lemma GreetExactly(c: Config, s: Server, i: SessionId)
    requires i in s.clients
    ensures Step(c, s, HandshakeDone(i, true))
         == Changed(s, i, Sent(c, s.clients[i].(phase := Reading), ServerMessage.Hello(3)))
  {
    hide DeliverAll;
    var read := Changed(s, i, s.clients[i].(phase := Reading));
    DeliverOne(c, read, i, ServerMessage.Hello(3));
    UpdateAgain(s.clients, i, read.clients[i], Sent(c, read.clients[i], ServerMessage.Hello(3)));
  }

  /** The first hello is answered by what comes next, and negotiates on version 3 only; another is an
      error. */
  lemma HelloExactly(c: Config, s: Server, i: SessionId, version: nat, env: Env)
    requires i in s.clients
    ensures var t, x := Step(c, s, Received(i, ClientMessage.Hello(version), env)), s.clients[i];
      if x.negotiated then OnlyTold(c, s, t, i, ServerError("Protocol handshake already completed"))
      else t == Changed(s, i, Sent(c, x.(negotiated := version == 3), if c.password == [] then AuthAccepted else AuthRequired))
  {
    hide DeliverAll;
    var x, y := s.clients[i], s.clients[i].(negotiated := version == 3);
    var m := if c.password == [] then AuthAccepted else AuthRequired;
    DeliverOne(c, s, i, ServerError("Protocol handshake already completed"));
    DeliverOne(c, Changed(s, i, y), i, m);
    UpdateAgain(s.clients, i, y, Sent(c, y, m));
  }

  function HelloFirst(): ServerMessage { ServerError("Protocol handshake required") }

  /** Whatever comes before a hello of version 3 ends the session. */
  lemma UnnegotiatedExactly(c: Config, s: Server, i: SessionId, m: ClientMessage, env: Env)
    requires Seats(s) && i in s.clients && !s.clients[i].negotiated && !m.Hello?
    ensures HasLeft(c, s, Step(c, s, Received(i, m, env)), i, false, [HelloFirst()], true)
  {
    hide Seats, Drop, HasLeft, OnCommand, DeliverAll;
    DropExactly(c, s, i, HelloFirst());
  }

  /** The right password lets a session through; a wrong one ends it. */
  lemma PasswordExactly(c: Config, s: Server, i: SessionId, password: Text, env: Env)
    requires Seats(s) && i in s.clients && s.clients[i].negotiated
    ensures var t := Step(c, s, Received(i, Authenticate(password), env));
      if password == c.password then t == Changed(s, i, Sent(c, s.clients[i].(authenticated := true), AuthAccepted))
      else HasLeft(c, s, t, i, false, [AuthRejected], true)
  {
    hide Seats, Drop, HasLeft, OnCommand, DeliverAll;
    var y := s.clients[i].(authenticated := true);
    DropExactly(c, s, i, AuthRejected);
    DeliverOne(c, Changed(s, i, y), i, AuthAccepted);
    UpdateAgain(s.clients, i, y, Sent(c, y, AuthAccepted));
  }

  /** Where a password is set, whatever else comes before it is answered by asking for it. */
  lemma UnauthenticatedExactly(c: Config, s: Server, i: SessionId, m: ClientMessage, env: Env)
    requires i in s.clients && s.clients[i].negotiated && c.password != [] && !s.clients[i].authenticated
    requires !m.Hello? && !m.Authenticate?
    ensures OnlyTold(c, s, Step(c, s, Received(i, m, env)), i, AuthRequired)
  {
    hide DeliverAll, OnCommand, Drop;
    DeliverOne(c, s, i, AuthRequired);
  }

  /** A frame that cannot be read is answered with the reason; one of another version ends the session. */
  lemma BadFrameExactly(c: Config, s: Server, i: SessionId, error: Error, detail: Text)
    requires Seats(s) && i in s.clients
    ensures var t, reply := Step(c, s, BadFrame(i, error, detail)), ServerError("Invalid client frame: " + detail);
      if error == UnsupportedVersion then HasLeft(c, s, t, i, false, [reply], true) else OnlyTold(c, s, t, i, reply)
  {
    hide Seats, Drop, HasLeft, DeliverAll;
    DropExactly(c, s, i, ServerError("Invalid client frame: " + detail));
    DeliverOne(c, s, i, ServerError("Invalid client frame: " + detail));
  }

  // ---- before and after joining ----

  /** The answer to a command that needs a nickname. */
  function JoinFirst(m: ClientMessage): ServerMessage
  {
    match m
    case Leave => DirectText(IGNORED_LEAVE)
    case ListRooms => ServerError("Join before listing rooms")
    case CreateRoom(_) => ServerError("Join before creating rooms")
    case JoinRoom(_) => ServerError("Join before switching rooms")
    case TopicRequest(_) => ServerError("Join before viewing a topic")
    case KickRequest(_, _) => ServerError("Join before moderating a room")
    case _ => DirectText(JOIN_FIRST)
  }

  predicate NeedsNickname(m: ClientMessage)
  {
    m.Leave? || m.ListRooms? || m.CreateRoom? || m.JoinRoom? || m.TopicRequest? || m.KickRequest? || m.Chat? || m.Whisper?
  }

  /** Before joining, a command that needs a nickname does nothing but get an answer; not even a quota
      is counted. */
  lemma BeforeJoining(c: Config, s: Server, i: SessionId, m: ClientMessage, env: Env)
    requires i in s.clients && MayCommand(c, s.clients[i]) && s.clients[i].nickname == [] && NeedsNickname(m)
    ensures OnlyTold(c, s, Step(c, s, Received(i, m, env)), i, JoinFirst(m))
  {
    hide DeliverAll, MayCommand, Step, OnCommand;
    CommandIs(c, s, i, m, env);
    BeforeJoiningIs(c, s, i, m, env);
    DeliverOne(c, s, i, JoinFirst(m));
  }

  lemma BeforeJoiningIs(c: Config, s: Server, i: SessionId, m: ClientMessage, env: Env)
    requires i in s.clients && s.clients[i].nickname == [] && NeedsNickname(m)
    ensures OnCommand(c, s, i, m, env) == Deliver(c, s, i, JoinFirst(m))
  {
    hide DeliverAll;
  }

  /** After joining, another claim or proof is refused, and the session stays. */
  lemma AfterJoining(c: Config, s: Server, i: SessionId, m: ClientMessage, env: Env)
    requires IsMember(c, s, i) && (m.Identify? || m.IdentityProof?)
    ensures OnlyTold(c, s, Step(c, s, Received(i, m, env)), i, JoinRejected("Already joined"))
  {
    hide DeliverAll, MayCommand;
    CommandIs(c, s, i, m, env);
    DeliverOne(c, s, i, JoinRejected("Already joined"));
  }

  // ---- questions ----

  /** A member that asks for the rooms is sent all of them, with how many are in each. */
  lemma ListRoomsExactly(c: Config, s: Server, i: SessionId, env: Env)
    requires Seats(s) && IsMember(c, s, i)
    ensures exists rooms ::
      R.ListsRooms(c, s, rooms) && OnlyTold(c, s, Step(c, s, Received(i, ListRooms, env)), i, RoomList(rooms))
  {
    hide Seats, DeliverAll, MayCommand, RoomSummaries, R.ListsRooms, Step;
    ListRoomsStepIs(c, s, i, env);
    R.RoomListIs(c, s);
    DeliverOne(c, s, i, RoomList(RoomSummaries(c, s)));
    assert OnlyTold(c, s, Step(c, s, Received(i, ListRooms, env)), i, RoomList(RoomSummaries(c, s)));
  }

  lemma ListRoomsStepIs(c: Config, s: Server, i: SessionId, env: Env)
    requires IsMember(c, s, i)
    ensures Step(c, s, Received(i, ListRooms, env)) == Deliver(c, s, i, RoomList(RoomSummaries(c, s)))
  {
    hide DeliverAll, RoomSummaries;
  }

  /** A member that asks for the topic is sent that of its room. */
  lemma AskTopicExactly(c: Config, s: Server, i: SessionId, env: Env)
    requires Sound(c, s) && IsMember(c, s, i)
    ensures var t, r := Step(c, s, Received(i, TopicRequest(None), env)), s.clients[i].activeRoom;
      if r in s.rooms then OnlyTold(c, s, t, i, RoomTopic(r, s.rooms[r].topic)) else t == s
  {
    hide Sound, DeliverAll;
    var r := s.clients[i].activeRoom;
    if r in s.rooms { DeliverOne(c, s, i, RoomTopic(r, s.rooms[r].topic)); }
  }

  // ---- the host ----

  /** Everyone registered under a nickname has been sent the rooms, after the users of room `r` for those
      who are there; nothing else has changed. */
  ghost predicate OnlyListed(c: Config, s: Server, t: Server, r: RoomId)
  {
    && t.(clients := s.clients) == s && t.clients.Keys == s.clients.Keys
    && (forall j :: j in s.clients ==> Bare(t.clients[j]) == Bare(s.clients[j]))
    && forall j :: j in s.clients ==>
         Gets(c, s, t, j,
           (if r != 0 && s.clients[j].activeRoom == r then [UserList(r, UserNames(c, s, r))] else [])
           + if j in s.sessions && s.clients[j].nickname != [] then [RoomList(RoomSummaries(c, s))] else [])
  }

  lemma ListsFields(c: Config, s: Server)
    ensures BroadcastRoomLists(c, s).(clients := s.clients) == s
  {
    hide PostAll, RoomSummaries;
  }

  lemma UsersFields(c: Config, s: Server, r: RoomId)
    ensures BroadcastUsers(c, s, r).(clients := s.clients) == s
  {
    hide PostAll, UserNames;
  }

  lemma NamedIs(s: Server, j: SessionId)
    requires j in s.clients
    ensures j in ServerModel.Named(s) <==> j in s.sessions && s.clients[j].nickname != []
  {
  }

  lemma ListsOnly(c: Config, s: Server)
    ensures OnlyListed(c, s, BroadcastRoomLists(c, s), 0)
  {
    hide BroadcastRoomLists, Core, RoomSummaries, UserNames, Gets, Bare;
    var t := BroadcastRoomLists(c, s);
    ListsFields(c, s);
    BroadcastRoomListsCore(c, s);
    CoreKeys(s, t);
    forall j | j in s.clients
      ensures Gets(c, s, t, j, [] + if j in s.sessions && s.clients[j].nickname != [] then [RoomList(RoomSummaries(c, s))] else [])
    {
      ListsGets(c, s, j);
      NamedIs(s, j);
      var b: seq<ServerMessage> := if j in ServerModel.Named(s) then [RoomList(RoomSummaries(c, s))] else [];
      assert [] + b == b;
    }
  }

  lemma UsersAndLists(c: Config, s: Server, r: RoomId)
    requires Sound(c, s) && r in s.rooms
    ensures OnlyListed(c, s, BroadcastRoomLists(c, BroadcastUsers(c, s, r)), r)
  {
    hide Sound, BroadcastUsers, BroadcastRoomLists, Core, RoomSummaries, UserNames, Gets, Bare;
    var u, t := BroadcastUsers(c, s, r), BroadcastRoomLists(c, BroadcastUsers(c, s, r));
    UsersFields(c, s, r);
    ListsFields(c, u);
    BroadcastUsersCore(c, s, r);
    BroadcastRoomListsCore(c, u);
    CoreKeys(s, t);
    NextIsNotZero(c, s, r);
    ListsOfCore(c, s, u);
    forall j | j in s.clients
      ensures Gets(c, s, t, j,
        (if r != 0 && s.clients[j].activeRoom == r then [UserList(r, UserNames(c, s, r))] else [])
        + if j in s.sessions && s.clients[j].nickname != [] then [RoomList(RoomSummaries(c, s))] else [])
    {
      UsersGets(c, s, r, j);
      MemberWhere(c, s, r, j);
      NamedIs(s, j);
      var a: seq<ServerMessage>, b: seq<ServerMessage> :=
        if j in s.rooms[r].members then [UserList(r, UserNames(c, s, r))] else [],
        if j in ServerModel.Named(s) then [RoomList(RoomSummaries(c, s))] else [];
      GetsKnown(c, s, u, j, a);
      ListsGets(c, u, j);
      GetsThen(c, s, u, t, j, a, b);
    }
  }

  /** A host with a nickname is placed in the lobby, once; everyone is shown it. */
  lemma PlaceHostExactly(c: Config, s: Server)
    requires Sound(c, s)
    ensures var t := Step(c, s, StartLocalUser);
      if c.localNickname == [] then t == s else OnlyListed(c, s.(localRoomId := LOBBY), t, LOBBY)
  {
    hide Sound, OnlyListed, BroadcastUsers, BroadcastRoomLists;
    LobbyExists(c, s);
    HostPlaced(c, s, LOBBY);
    UsersAndLists(c, s.(localRoomId := LOBBY), LOBBY);
  }

  /** A room made by the administrator belongs to nobody and has nobody in it; everyone is shown it. */
  lemma AdminCreateExactly(c: Config, s: Server, name: Text)
    ensures var t := Step(c, s, CreateAdminRoom(name));
      if Obstacle(s, name).Some? then t == s else OnlyListed(c, WithFounded(s, name, []), t, 0)
  {
    hide OnlyListed, BroadcastRoomLists, CreationError, Obstacle;
    ObstacleIs(s, name);
    assert AddRoom(s, name, []) == WithFounded(s, name, []);
    ListsOnly(c, WithFounded(s, name, []));
  }

  /** The host's identity is bound exactly when its nickname and key are valid and the nickname is not
      bound to another key. */
  lemma RegisterExactly(c: Config, s: Server, n: Text, k: Text)
    ensures var t := Step(c, s, RegisterLocalIdentity(n, k));
      if !(IsValidNickname(n) && IsHex(k, 64)) || n in s.identities then t == s
      else t == s.(identities := s.identities[n := k], writes := s.writes + [IdentityWrite(n, k)])
  {
    hide IsValidNickname, IsHex;
  }
}
