/** The structural invariants hold in every reachable state. */
module ServerSafety {
  import opened Octets
  import opened Messages
  import opened Tables
  import opened ServerModel
  import opened ServerStructure
  import opened ServerActions

  // ---- changes of one session's own fields ----

  /** A session may change anything but its room and its nickname, as long as a pending nickname
      stays valid. */
  lemma WithSound(c: Config, s: Server, i: SessionId, x: Session)
    requires Sound(c, s) && i in s.clients
    requires x.activeRoom == s.clients[i].activeRoom && x.nickname == s.clients[i].nickname
    requires x.pendingNickname != [] ==> IsValidNickname(x.pendingNickname)
    ensures Sound(c, With(s, i, x)) && i in With(s, i, x).clients
  {
    var t := With(s, i, x);
    assert SameSeats(s, t) && SameNicknames(s, t) && SameTable(s, t);
    WithHandles(s, i, x);
    hide Seats, DistinctNames, Handles, RoomTable, SameSeats, SameNicknames, SameTable;
    SeatsKept(s, t);
    NicknamesKept(c, s, t);
    TableKept(s, t);
  }

  lemma WithHandles(s: Server, i: SessionId, x: Session)
    requires Handles(s) && i in s.clients
    requires x.activeRoom == s.clients[i].activeRoom && x.nickname == s.clients[i].nickname
    requires x.pendingNickname != [] ==> IsValidNickname(x.pendingNickname)
    ensures Handles(With(s, i, x))
  {
    hide IsValidNickname;
  }

  lemma DeliverSound(c: Config, s: Server, i: SessionId, m: ServerMessage)
    requires Sound(c, s)
    ensures Sound(c, Deliver(c, s, i, m)) && Deliver(c, s, i, m).clients.Keys == s.clients.Keys
  {
    hide Sound, DeliverAll, Core;
    DeliverAllCore(c, s, {i}, m);
    SoundOfCore(c, s, Deliver(c, s, i, m));
    CoreKeys(s, Deliver(c, s, i, m));
  }

  /** Delivery leaves everything about a session but its outbox. */
  lemma DeliverKeeps(c: Config, s: Server, i: SessionId, m: ServerMessage, j: SessionId)
    ensures Bare(Of(Deliver(c, s, i, m), j)) == Bare(Of(s, j))
  {
    hide Bare, Posted, PostAll;
    if j in s.clients { BareOfPosted(s.clients[j], m); }
  }

  // ---- seats ----

  lemma UnseatSeats(s: Server, i: SessionId)
    requires Seats(s) && i in s.clients
    ensures Seats(Unseat(s, i))
  {
    var t := Unseat(s, i);
    forall r, j | r in t.rooms && j in t.rooms[r].members ensures j in t.clients && t.clients[j].activeRoom == r {
      assert j in s.rooms[r].members;
    }
  }

  lemma UnseatFields(s: Server, i: SessionId)
    requires i in s.clients
    ensures var t := Unseat(s, i);
      && t.clients == s.clients[i := s.clients[i].(activeRoom := 0)] && t.rooms.Keys == s.rooms.Keys
      && t.sessions == s.sessions - {i} && t.bans == s.bans && t.nextRoomId == s.nextRoomId
      && t.localRoomId == s.localRoomId
      && forall r :: r in s.rooms ==> t.rooms[r].name == s.rooms[r].name && t.rooms[r].topic == s.rooms[r].topic
  {
  }

  lemma UnseatSame(s: Server, i: SessionId)
    requires i in s.clients
    ensures SameNicknames(s, Unseat(s, i)) && SameTable(s, Unseat(s, i)) && SameHandles(s, Unseat(s, i))
  {
    hide Unseat;
    UnseatFields(s, i);
  }

  lemma UnseatSound(c: Config, s: Server, i: SessionId)
    requires Sound(c, s) && i in s.clients
    ensures Sound(c, Unseat(s, i)) && i in Unseat(s, i).clients
  {
    hide Seats, DistinctNames, Handles, RoomTable, SameHandles, SameNicknames, SameTable, Unseat;
    var t := Unseat(s, i);
    UnseatFields(s, i);
    UnseatSame(s, i);
    UnseatSeats(s, i);
    NicknamesKept(c, s, t);
    HandlesKept(s, t);
    TableKept(s, t);
  }

  lemma ReseatSeats(s: Server, i: SessionId, target: RoomId)
    requires Seats(s) && i in s.clients && target in s.rooms
    ensures Seats(Reseat(s, i, target))
  {
    var t := Reseat(s, i, target);
    forall r, j | r in t.rooms && j in t.rooms[r].members ensures j in t.clients && t.clients[j].activeRoom == r {
      if j != i { assert j in s.rooms[r].members; }
    }
    forall j | j in t.clients && t.clients[j].activeRoom != 0 ensures j in t.rooms[t.clients[j].activeRoom].members {
      if j != i { assert s.clients[j] == t.clients[j]; }
    }
  }

  lemma ReseatFields(s: Server, i: SessionId, target: RoomId)
    requires i in s.clients && target in s.rooms
    ensures var t := Reseat(s, i, target);
      && t.clients == s.clients[i := s.clients[i].(activeRoom := target)] && t.rooms.Keys == s.rooms.Keys
      && t.sessions == s.sessions && t.bans == s.bans && t.nextRoomId == s.nextRoomId
      && t.localRoomId == s.localRoomId
      && forall r :: r in s.rooms ==> t.rooms[r].name == s.rooms[r].name && t.rooms[r].topic == s.rooms[r].topic
  {
  }

  lemma ReseatHandles(s: Server, i: SessionId, target: RoomId)
    requires Handles(s) && i in s.clients && target in s.rooms && s.clients[i].nickname != []
    ensures Handles(Reseat(s, i, target))
  {
    hide IsValidNickname, Reseat;
    ReseatFields(s, i, target);
  }

  lemma ReseatSame(s: Server, i: SessionId, target: RoomId)
    requires i in s.clients && target in s.rooms
    ensures SameNicknames(s, Reseat(s, i, target)) && SameTable(s, Reseat(s, i, target))
  {
    hide Reseat;
    ReseatFields(s, i, target);
  }

  lemma ReseatSound(c: Config, s: Server, i: SessionId, target: RoomId)
    requires Sound(c, s) && i in s.clients && target in s.rooms && s.clients[i].nickname != []
    ensures Sound(c, Reseat(s, i, target))
  {
    hide Seats, DistinctNames, Handles, RoomTable, SameNicknames, SameTable, Reseat;
    var t := Reseat(s, i, target);
    ReseatSame(s, i, target);
    ReseatSeats(s, i, target);
    ReseatHandles(s, i, target);
    NicknamesKept(c, s, t);
    TableKept(s, t);
  }

  lemma MoveSessionSound(c: Config, s: Server, i: SessionId, target: RoomId, announce: bool)
    requires Sound(c, s) && i in s.clients && s.clients[i].nickname != []
    ensures Sound(c, MoveSession(c, s, i, target, announce))
  {
    if target in s.rooms {
      hide Sound, Core, Reseat, MoveSession;
      ReseatSound(c, s, i, target);
      MoveSessionCore(c, s, i, target, announce);
      SoundOfCore(c, Reseat(s, i, target), MoveSession(c, s, i, target, announce));
    }
  }

  lemma MoveLocalSound(c: Config, s: Server, target: RoomId)
    requires Sound(c, s)
    ensures Sound(c, MoveLocal(c, s, target))
  {
    if target in s.rooms {
      var moved := s.(localRoomId := target);
      assert SameSeats(s, moved) && SameNicknames(s, moved) && SameHandles(s, moved);
      assert RoomTable(moved);
      hide Seats, DistinctNames, Handles, RoomTable, SameSeats, SameNicknames, SameHandles, Core, MoveLocal;
      SeatsKept(s, moved);
      NicknamesKept(c, s, moved);
      HandlesKept(s, moved);
      MoveLocalCore(c, s, target);
      SoundOfCore(c, moved, MoveLocal(c, s, target));
    }
  }

  lemma DepartSound(c: Config, s: Server, i: SessionId, announce: bool)
    requires Sound(c, s) && i in s.clients
    ensures Sound(c, Depart(c, s, i, announce)) && i in Depart(c, s, i, announce).clients
  {
    assert 0 !in s.rooms;
    hide Sound, Core, Depart, Unseat;
    UnseatSound(c, s, i);
    DepartCore(c, s, i, announce);
    SoundOfCore(c, Unseat(s, i), Depart(c, s, i, announce));
    CoreKeys(Unseat(s, i), Depart(c, s, i, announce));
  }

  lemma FlagSound(c: Config, s: Server, i: SessionId)
    requires Sound(c, s) && i in s.clients
    ensures Sound(c, Close(s, i)) && i in Close(s, i).clients
    ensures Sound(c, Stop(s, i)) && i in Stop(s, i).clients
  {
    var x := s.clients[i];
    PendingValid(c, s, i);
    hide Sound, IsValidNickname, With;
    WithSound(c, s, i, x.(closing := true));
    WithSound(c, s, i, x.(phase := Stopped));
  }

  lemma PendingValid(c: Config, s: Server, i: SessionId)
    requires (Sound(c, s) || Shaped(s)) && i in s.clients
    ensures s.clients[i].pendingNickname != [] ==> IsValidNickname(s.clients[i].pendingNickname)
    ensures s.clients[i].nickname != [] ==> IsValidNickname(s.clients[i].nickname)
    ensures s.clients[i].activeRoom != 0 ==> s.clients[i].nickname != []
  {
  }

  // ---- rooms ----

  lemma AddRoomTable(s: Server, name: Text, owner: Text)
    requires RoomTable(s) && CreationError(s, name) == []
    ensures RoomTable(AddRoom(s, name, owner)) && s.nextRoomId !in s.rooms
  {
    CreationOk(s, name);
    hide IsValidRoomName, IsValidRoomTopic, Lower, CreationError;
    var t := AddRoom(s, name, owner);
    assert s.nextRoomId !in s.rooms;
    assert |t.rooms| == |s.rooms| + 1;
    EmptyTopicValid();
  }

  lemma CreationOk(s: Server, name: Text)
    requires CreationError(s, name) == []
    ensures IsValidRoomName(name) && |s.rooms| < MAX_ROOMS
    ensures forall r :: r in s.rooms ==> Lower(s.rooms[r].name) != Lower(name)
  {
    hide IsValidRoomName, Lower;
    assert !NameExists(s, name);
    forall r | r in s.rooms ensures Lower(s.rooms[r].name) != Lower(name) {
      assert !IsMatch(s, name, r);
    }
  }

  lemma EmptyTopicValid()
    ensures IsValidRoomTopic([])
  {
  }

  lemma AddRoomSame(s: Server, name: Text, owner: Text)
    ensures SameNicknames(s, AddRoom(s, name, owner)) && SameHandles(s, AddRoom(s, name, owner))
    ensures s.nextRoomId in AddRoom(s, name, owner).rooms && AddRoom(s, name, owner).clients == s.clients
  {
  }

  lemma AddRoomSeats(s: Server, name: Text, owner: Text)
    requires Seats(s) && s.nextRoomId !in s.rooms && s.nextRoomId != 0
    ensures Seats(AddRoom(s, name, owner))
  {
    var t := AddRoom(s, name, owner);
    assert t.clients == s.clients;
    assert forall r :: r in s.rooms ==> t.rooms[r] == s.rooms[r];
  }

  lemma AddRoomSound(c: Config, s: Server, name: Text, owner: Text)
    requires Sound(c, s) && CreationError(s, name) == []
    ensures Sound(c, AddRoom(s, name, owner))
    ensures s.nextRoomId in AddRoom(s, name, owner).rooms && AddRoom(s, name, owner).clients == s.clients
  {
    assert 0 < s.nextRoomId;
    hide CreationError, RoomTable, DistinctNames, Handles, SameNicknames, SameHandles, AddRoom, Seats;
    AddRoomTable(s, name, owner);
    AddRoomSame(s, name, owner);
    AddRoomSeats(s, name, owner);
    NicknamesKept(c, s, AddRoom(s, name, owner));
    HandlesKept(s, AddRoom(s, name, owner));
  }

  lemma NewTopicSound(c: Config, s: Server, r: RoomId, topic: Text, w: Write)
    requires Sound(c, s) && r in s.rooms && IsValidRoomTopic(topic)
    ensures Sound(c, Written(WithRoom(s, r, s.rooms[r].(topic := topic)), w))
  {
    var t := Written(WithRoom(s, r, s.rooms[r].(topic := topic)), w);
    assert SameSeats(s, t) && SameNicknames(s, t) && SameHandles(s, t);
    NewTopicTable(s, r, topic, w);
    hide Seats, DistinctNames, Handles, RoomTable, SameSeats, SameNicknames, SameHandles;
    SeatsKept(s, t);
    NicknamesKept(c, s, t);
    HandlesKept(s, t);
  }

  lemma NewTopicTable(s: Server, r: RoomId, topic: Text, w: Write)
    requires RoomTable(s) && r in s.rooms && IsValidRoomTopic(topic)
    ensures RoomTable(Written(WithRoom(s, r, s.rooms[r].(topic := topic)), w))
  {
    hide IsValidRoomName, IsValidRoomTopic, Lower;
    var t := Written(WithRoom(s, r, s.rooms[r].(topic := topic)), w);
    assert t.rooms == s.rooms[r := s.rooms[r].(topic := topic)] && t.rooms.Keys == s.rooms.Keys;
    assert t.nextRoomId == s.nextRoomId && t.localRoomId == s.localRoomId;
    assert |t.rooms| == |t.rooms.Keys| && |s.rooms| == |s.rooms.Keys|;
    hide Written, WithRoom;
    forall q | q in t.rooms
      ensures 0 < q < t.nextRoomId && IsValidRoomName(t.rooms[q].name) && IsValidRoomTopic(t.rooms[q].topic)
      ensures t.rooms[q].name == s.rooms[q].name
    {
    }
  }

  // ---- moderation ----

  /** The step from an unseated target to the same with the nickname banned. */
  lemma BannedSame(u: Server, t: Server)
    requires t.clients == u.clients && t.rooms == u.rooms && t.nextRoomId == u.nextRoomId
    requires t.localRoomId == u.localRoomId
    ensures SameSeats(u, t) && SameTable(u, t) && SameHandles(u, t)
  {
  }

  lemma BannedCommutes(s: Server, nick: Text, i: SessionId, w: Write)
    requires i in s.clients
    ensures var t, u := Unseat(Close(Written(s.(bans := s.bans + {nick}), w), i), i), Unseat(Close(s, i), i);
      && t.clients == u.clients && t.rooms == u.rooms && t.nextRoomId == u.nextRoomId
      && t.localRoomId == u.localRoomId && t.bans == s.bans + {nick} && t.sessions == s.sessions - {i}
      && t.clients == s.clients[i := s.clients[i].(closing := true, activeRoom := 0)]
  {
  }

  /** Banning removes the one registered session with the nickname, so no registered session has
      it when the ban takes hold. */
  lemma BanUnseatSound(c: Config, s: Server, nick: Text, i: SessionId, w: Write)
    requires Sound(c, s) && i in s.sessions && s.clients[i].nickname == nick
    ensures Sound(c, Unseat(Close(Written(s.(bans := s.bans + {nick}), w), i), i))
  {
    assert i in s.clients;
    hide Seats, Handles, RoomTable, SameSeats, SameTable, SameHandles, DistinctNames, Unseat, Close, Written;
    var t := Unseat(Close(Written(s.(bans := s.bans + {nick}), w), i), i);
    var u := Unseat(Close(s, i), i);
    BannedCommutes(s, nick, i, w);
    BanNames(c, s, nick, i, t);
    FlagSound(c, s, i);
    UnseatSound(c, Close(s, i), i);
    BannedSame(u, t);
    SeatsKept(u, t);
    HandlesKept(u, t);
    TableKept(u, t);
  }

  lemma BanNames(c: Config, s: Server, nick: Text, i: SessionId, t: Server)
    requires DistinctNames(c, s) && i in s.sessions && s.clients[i].nickname == nick
    requires t.sessions == s.sessions - {i} && t.bans == s.bans + {nick}
    requires t.clients == s.clients[i := s.clients[i].(closing := true, activeRoom := 0)]
    ensures DistinctNames(c, t)
  {
    forall j | j in t.sessions && t.clients[j].nickname != []
      ensures t.clients[j].nickname !in t.bans && t.clients[j].nickname != c.localNickname
    {
      assert j in s.sessions && j != i && t.clients[j] == s.clients[j];
    }
  }

  lemma BanFreeSound(c: Config, s: Server, nick: Text, w: Write)
    requires Sound(c, s) && forall j :: j in s.sessions ==> s.clients[j].nickname != nick
    ensures Sound(c, Written(s.(bans := s.bans + {nick}), w))
  {
    var t := Written(s.(bans := s.bans + {nick}), w);
    assert SameSeats(s, t) && SameTable(s, t) && SameHandles(s, t);
    assert DistinctNames(c, t);
    hide Seats, Handles, RoomTable, SameSeats, SameTable, SameHandles, DistinctNames;
    SeatsKept(s, t);
    HandlesKept(s, t);
    TableKept(s, t);
  }

  lemma ExpelBannedSound(c: Config, s: Server, nick: Text, i: SessionId, w: Write, why: Text)
    requires Sound(c, s) && i in s.sessions && s.clients[i].nickname == nick
    ensures Sound(c, Expel(c, Written(s.(bans := s.bans + {nick}), w), i, nick, why))
  {
    var banned := Written(s.(bans := s.bans + {nick}), w);
    assert 0 !in banned.rooms;
    hide Sound, Core, Expel, Unseat, Close;
    BanUnseatSound(c, s, nick, i, w);
    ExpelCore(c, banned, i, nick, why);
    SoundOfCore(c, Unseat(Close(banned, i), i), Expel(c, banned, i, nick, why));
  }

  lemma UnbanSound(c: Config, s: Server, nick: Text)
    requires Sound(c, s)
    ensures Sound(c, Unban(s, nick))
  {
    assert SameAll(s, Unban(s, nick));
    hide Sound, SameAll;
    SoundKept(c, s, Unban(s, nick));
  }

  // ---- admission ----

  lemma BindSound(c: Config, s: Server, nick: Text, key: Text)
    requires Sound(c, s)
    ensures Sound(c, Bind(s, nick, key))
  {
    assert SameAll(s, Bind(s, nick, key));
    hide Sound, SameAll;
    SoundKept(c, s, Bind(s, nick, key));
  }

  function Admitted(x: Session): Session
  {
    x.(nickname := x.pendingNickname, pendingNickname := [], pendingKey := [], pendingChallenge := [])
  }

  lemma AdmitIs(s: Server, i: SessionId)
    requires i in s.clients
    ensures var t, bound := Admit(s, i), Bind(s, s.clients[i].pendingNickname, s.clients[i].pendingKey);
      && t.clients == s.clients[i := Admitted(s.clients[i])] && t.rooms == bound.rooms && t.nextRoomId == bound.nextRoomId
      && t.localRoomId == bound.localRoomId && t.sessions == s.sessions && t.bans == s.bans
      && bound.clients == s.clients
  {
  }

  lemma AdmitSame(s: Server, i: SessionId)
    requires i in s.clients
    ensures var t, bound := Admit(s, i), Bind(s, s.clients[i].pendingNickname, s.clients[i].pendingKey);
            SameSeats(bound, t) && SameTable(bound, t)
  {
    hide Admit, Bind;
    AdmitIs(s, i);
  }

  lemma AdmitSound(c: Config, s: Server, i: SessionId)
    requires Sound(c, s) && i in s.clients
    requires s.clients[i].nickname == [] && s.clients[i].pendingNickname != []
    requires s.clients[i].pendingNickname !in s.bans && !NicknameInUse(c, s, s.clients[i].pendingNickname)
    ensures Sound(c, Admit(s, i)) && i in Admit(s, i).clients
    ensures Admit(s, i).clients[i] == Admitted(s.clients[i])
  {
    hide Seats, DistinctNames, Handles, RoomTable, SameSeats, SameTable, Bind, Admit, NicknameInUse, Admitted;
    var t, bound := Admit(s, i), Bind(s, s.clients[i].pendingNickname, s.clients[i].pendingKey);
    AdmitIs(s, i);
    AdmitSame(s, i);
    BindSound(c, s, s.clients[i].pendingNickname, s.clients[i].pendingKey);
    AdmitNames(c, s, i, t);
    AdmitHandles(s, i, t);
    SeatsKept(bound, t);
    TableKept(bound, t);
  }

  lemma AdmitNames(c: Config, s: Server, i: SessionId, t: Server)
    requires DistinctNames(c, s) && i in s.clients
    requires s.clients[i].pendingNickname != [] && s.clients[i].pendingNickname !in s.bans
    requires !NicknameInUse(c, s, s.clients[i].pendingNickname)
    requires t.sessions == s.sessions && t.bans == s.bans && t.clients == s.clients[i := Admitted(s.clients[i])]
    ensures DistinctNames(c, t)
  {
    var nick := s.clients[i].pendingNickname;
    forall j | j in s.sessions ensures s.clients[j].nickname != nick {
      assert Of(s, j).nickname != nick;
    }
    forall j, k | j in t.sessions && k in t.sessions && j != k && t.clients[j].nickname != []
      ensures t.clients[j].nickname != t.clients[k].nickname
    {
    }
  }

  lemma AdmitHandles(s: Server, i: SessionId, t: Server)
    requires Handles(s) && i in s.clients && s.clients[i].nickname == [] && s.clients[i].pendingNickname != []
    requires t.clients == s.clients[i := Admitted(s.clients[i])]
    ensures Handles(t)
  {
    hide IsValidNickname;
  }

  // ---- every action ----

  lemma RetitleSound(c: Config, s: Server, r: RoomId, topic: Text)
    requires Sound(c, s) && r in s.rooms && IsValidRoomTopic(topic)
    ensures Sound(c, Retitled(c, s, r, topic))
  {
    hide Sound, Core, DeliverAll, IsValidRoomTopic, Written, WithRoom;
    var room := s.rooms[r];
    var renamed := Written(WithRoom(s, r, room.(topic := topic)), TopicWrite(r, topic));
    NewTopicSound(c, s, r, topic, TopicWrite(r, topic));
    DeliverAllCore(c, renamed, room.members, RoomTopic(r, topic));
    SoundOfCore(c, renamed, Retitled(c, s, r, topic));
  }

  function Enrolled(s: Server, i: SessionId): Server
  {
    s.(clients := s.clients[i := NEW_SESSION], sessions := s.sessions + {i})
  }

  lemma EnrollSeats(s: Server, i: SessionId)
    requires Seats(s) && i !in s.clients
    ensures Seats(Enrolled(s, i))
  {
    var t := Enrolled(s, i);
    assert forall j :: j in s.clients ==> t.clients[j] == s.clients[j];
  }

  lemma EnrollNames(c: Config, s: Server, i: SessionId)
    requires DistinctNames(c, s) && i !in s.clients
    ensures DistinctNames(c, Enrolled(s, i))
  {
    var t := Enrolled(s, i);
    assert forall j :: j in s.sessions ==> t.clients[j] == s.clients[j];
  }

  lemma EnrollHandles(s: Server, i: SessionId)
    requires Handles(s) && i !in s.clients
    ensures Handles(Enrolled(s, i))
  {
    hide IsValidNickname;
    var t := Enrolled(s, i);
    assert forall j :: j in s.clients ==> t.clients[j] == s.clients[j];
  }

  lemma EnrollSound(c: Config, s: Server, i: SessionId)
    requires Sound(c, s) && i !in s.clients
    ensures Sound(c, Enrolled(s, i))
  {
    assert SameTable(s, Enrolled(s, i));
    hide Seats, DistinctNames, Handles, RoomTable, SameTable, Enrolled;
    EnrollSeats(s, i);
    EnrollNames(c, s, i);
    EnrollHandles(s, i);
    TableKept(s, Enrolled(s, i));
  }

  lemma OpenSound(c: Config, s: Server, i: SessionId)
    requires Sound(c, s) && i in s.clients
    ensures Sound(c, Deliver(c, With(s, i, Of(s, i).(phase := Reading)), i, ServerMessage.Hello(VERSION)))
  {
    PendingValid(c, s, i);
    hide Sound, With, DeliverAll, IsValidNickname;
    WithSound(c, s, i, s.clients[i].(phase := Reading));
    DeliverSound(c, With(s, i, Of(s, i).(phase := Reading)), i, ServerMessage.Hello(VERSION));
  }

  lemma PlaceSound(c: Config, s: Server)
    requires Sound(c, s)
    ensures Sound(c, BroadcastUsers(c, s.(localRoomId := LOBBY), LOBBY))
  {
    var placed := s.(localRoomId := LOBBY);
    assert SameSeats(s, placed) && SameNicknames(s, placed) && SameHandles(s, placed) && RoomTable(placed);
    hide Seats, DistinctNames, Handles, RoomTable, SameSeats, SameNicknames, SameHandles, Core, BroadcastUsers;
    SeatsKept(s, placed);
    NicknamesKept(c, s, placed);
    HandlesKept(s, placed);
    BroadcastUsersCore(c, placed, LOBBY);
    SoundOfCore(c, placed, BroadcastUsers(c, placed, LOBBY));
  }

  /** A change of the session's own flags. */
  predicate IsFlagAction(a: Action)
  {
    a.MarkClosing? || a.MarkStopped? || a.Count? || a.Negotiate? || a.Authorize? || a.Claim?
  }

  predicate IsTalk(a: Action)
  {
    a.Tell? || a.ShowTopic? || a.Say? || a.ShowUsers? || a.ShowRooms?
  }

  lemma TalkCore(c: Config, s: Server, a: Action)
    requires IsTalk(a)
    ensures Core(Do(c, s, a)) == Core(s)
  {
    hide Core, DeliverAll, BroadcastRoom, BroadcastUsers, BroadcastRoomLists;
    match a
    case Tell(to, m) => DeliverAllCore(c, s, to, m);
    case ShowTopic(i) =>
      DeliverAllCore(c, s, {i}, RoomTopic(Of(s, i).activeRoom, RoomOf(s, Of(s, i).activeRoom).topic));
    case Say(r, text, nick) => BroadcastRoomCore(c, s, r, text, nick);
    case ShowUsers(r) => BroadcastUsersCore(c, s, r);
    case ShowRooms => BroadcastRoomListsCore(c, s);
  }

  lemma FlagActionIs(c: Config, e: Input, s: Server, a: Action) returns (x: Session)
    requires Sound(c, s) && Allowed(c, e, s, a) && IsFlagAction(a)
    ensures a.id in s.clients && Do(c, s, a) == With(s, a.id, x)
    ensures x.nickname == s.clients[a.id].nickname && x.activeRoom == s.clients[a.id].activeRoom
    ensures x.outbox == s.clients[a.id].outbox && (x.phase == Reading ==> s.clients[a.id].phase == Reading)
    ensures x.pendingNickname != [] ==> IsValidNickname(x.pendingNickname)
  {
    PendingValid(c, s, a.id);
    hide Sound, With, IsValidNickname, MayCommand;
    x := s.clients[a.id];
    match a {
      case MarkClosing(_) => x := x.(closing := true);
      case MarkStopped(_) => x := x.(phase := Stopped);
      case Count(_, quota) => x := x.(quota := quota);
      case Negotiate(_, ok) => x := x.(negotiated := ok);
      case Authorize(_) => x := x.(authenticated := true);
      case Claim(_, nick, key, challenge) =>
        x := x.(pendingNickname := nick, pendingKey := key, pendingChallenge := challenge);
    }
  }

  lemma FlagActionSound(c: Config, e: Input, s: Server, a: Action)
    requires Sound(c, s) && Allowed(c, e, s, a) && IsFlagAction(a)
    ensures Sound(c, Do(c, s, a))
  {
    hide Sound, With, Do, Allowed, IsValidNickname;
    var x := FlagActionIs(c, e, s, a);
    WithSound(c, s, a.id, x);
  }

  lemma BanAwaySound(c: Config, e: Input, s: Server, a: Action)
    requires Sound(c, s) && Allowed(c, e, s, a) && a.BanAway?
    ensures Sound(c, Do(c, s, a))
  {
    var w := BanWrite(a.nickname, a.reason);
    assert s.sessions <= s.clients.Keys;
    assert forall j :: j in s.sessions ==> Of(s, j) == s.clients[j];
    assert BanStored(s, a.nickname, a.reason) == Written(s.(bans := s.bans + {a.nickname}), w);
    hide Sound, Expel, BanReason, Written, BanStored;
    match a.victim
    case None => BanFreeSound(c, s, a.nickname, w);
    case Some(i) => ExpelBannedSound(c, s, a.nickname, i, w, BanReason(a.reason));
  }

  lemma ActionSound(c: Config, e: Input, s: Server, a: Action)
    requires Sound(c, s) && Allowed(c, e, s, a)
    ensures Sound(c, Do(c, s, a))
  {
    if IsTalk(a) {
      TalkCore(c, s, a);
      hide Allowed, Do, Core;
      SoundOfCore(c, s, Do(c, s, a));
    } else if IsFlagAction(a) {
      hide Allowed, Do;
      FlagActionSound(c, e, s, a);
    } else if a.BanAway? {
      hide Allowed, Do;
      BanAwaySound(c, e, s, a);
    } else if a.Move? || a.Go? || a.Open? || a.Enroll? {
      hide Allowed, Do;
      SeatActionSound(c, e, s, a);
    } else {
      hide Allowed, Do;
      TableActionSound(c, e, s, a);
    }
  }

  lemma SeatActionSound(c: Config, e: Input, s: Server, a: Action)
    requires Sound(c, s) && Allowed(c, e, s, a) && (a.Move? || a.Go? || a.Open? || a.Enroll?)
    ensures Sound(c, Do(c, s, a))
  {
    hide Sound, Core, MoveSession, Depart, DeliverAll, With;
    match a
    case Move(i, target, announce) => MoveSessionSound(c, s, i, target, announce);
    case Go(i, announce) => DepartSound(c, s, i, announce);
    case Open(i) => OpenSound(c, s, i);
    case Enroll(i) => EnrollSound(c, s, i);
  }

  lemma TableActionSound(c: Config, e: Input, s: Server, a: Action)
    requires Sound(c, s) && Allowed(c, e, s, a)
    requires a.Enter? || a.Register? || a.PlaceHost? || a.MoveHost? || a.Found? || a.Retitle? || a.LiftBan?
    ensures Sound(c, Do(c, s, a))
  {
    hide Sound, Core, CreationError, NicknameInUse, CanBind, MayCommand, IsValidRoomTopic, Admit, Bind, MoveLocal, AddRoom,
      Retitled, Unban, BroadcastUsers;
    match a
    case Enter(i) => AdmitSound(c, s, i);
    case Register(nick, key) => BindSound(c, s, nick, key);
    case PlaceHost => PlaceSound(c, s);
    case MoveHost(target) => MoveLocalSound(c, s, target);
    case Found(name, owner) => AddRoomSound(c, s, name, owner);
    case Retitle(r, topic) => RetitleSound(c, s, r, topic);
    case LiftBan(nick) => UnbanSound(c, s, nick);
  }

  lemma {:induction false} PlanSound(c: Config, e: Input, s: Server, p: Plan)
    requires Sound(c, s) && Legal(c, e, s, p)
    ensures Sound(c, Run(c, s, p))
    decreases p
  {
    hide Sound, Allowed, Do;
    match p
    case Skip =>
    case One(a) => ActionSound(c, e, s, a);
    case Then(q, r) =>
      PlanSound(c, e, s, q);
      PlanSound(c, e, Run(c, s, q), r);
  }
}
