/** What every step keeps of the server's tables: rooms and members, sessions and nicknames,
    bans and ids. Deliveries do not touch any of it. */
module ServerStructure {
  import opened Octets
  import opened Messages
  import opened Ordering
  import opened Tables
  import opened ServerModel

  // ---- the part of the state that deliveries leave alone ----

  function Bare(x: Session): Session { x.(outbox := []) }

  function BareRoom(room: Room): Room { room.(recent := []) }

  function BareClients(clients: map<SessionId, Session>): (bare: map<SessionId, Session>)
    ensures bare.Keys == clients.Keys
    ensures forall i :: i in clients ==> bare[i] == Bare(clients[i])
  {
    map i | i in clients :: Bare(clients[i])
  }

  function BareRooms(rooms: map<RoomId, Room>): (bare: map<RoomId, Room>)
    ensures bare.Keys == rooms.Keys
    ensures forall r :: r in rooms ==> bare[r] == BareRoom(rooms[r])
  {
    map r | r in rooms :: BareRoom(rooms[r])
  }

  /** The state without outboxes, room histories and storage. */
  function Core(s: Server): Server
  {
    s.(clients := BareClients(s.clients), rooms := BareRooms(s.rooms), writes := [], stored := 0, lastStamp := 0)
  }

  lemma BareOfPosted(x: Session, m: ServerMessage)
    ensures Bare(Posted(x, m)) == Bare(x)
  {
  }

  lemma BarePosted(clients: map<SessionId, Session>, to: set<SessionId>, m: ServerMessage)
    ensures BareClients(PostAll(clients, to, m)) == BareClients(clients)
  {
    hide BareClients, PostAll, Bare, Posted;
    var posted := PostAll(clients, to, m);
    var a, b := BareClients(posted), BareClients(clients);
    forall i | i in clients ensures a[i] == b[i] {
      BareOfPosted(clients[i], m);
    }
  }

  lemma DeliverAllCore(c: Config, s: Server, to: set<SessionId>, m: ServerMessage)
    ensures Core(DeliverAll(c, s, to, m)) == Core(s)
  {
    hide BareClients, PostAll;
    BarePosted(s.clients, to, m);
  }

  lemma BroadcastRoomCore(c: Config, s: Server, r: RoomId, msg: Text, nickname: Text)
    ensures Core(BroadcastRoom(c, s, r, msg, nickname)) == Core(s)
  {
    if r in s.rooms {
      var room := s.rooms[r];
      var kept := WithRoom(s, r, room.(recent := Bounded(room.recent + [msg], c.historyLimit)));
      assert Core(kept).rooms == Core(s).rooms;
      DeliverAllCore(c, kept, room.members, RoomText(r, msg));
    }
  }

  lemma BroadcastUsersCore(c: Config, s: Server, r: RoomId)
    ensures Core(BroadcastUsers(c, s, r)) == Core(s)
  {
    hide Core, UserNames;
    if r in s.rooms { DeliverAllCore(c, s, s.rooms[r].members, UserList(r, UserNames(c, s, r))); }
  }

  lemma BroadcastRoomListsCore(c: Config, s: Server)
    ensures Core(BroadcastRoomLists(c, s)) == Core(s)
  {
    hide Core, RoomSummaries;
    DeliverAllCore(c, s, ServerModel.Named(s), RoomList(RoomSummaries(c, s)));
  }

  lemma {:induction false} DeliverHistoryCore(c: Config, s: Server, i: SessionId, r: RoomId, history: seq<Text>)
    ensures Core(DeliverHistory(c, s, i, r, history)) == Core(s)
    decreases |history|
  {
    hide Core;
    if history != [] {
      DeliverAllCore(c, s, {i}, RoomText(r, history[0]));
      DeliverHistoryCore(c, Deliver(c, s, i, RoomText(r, history[0])), i, r, history[1..]);
    }
  }

  lemma {:induction false} ReplayCore(c: Config, s: Server, i: SessionId, r: RoomId, name: Text, history: seq<Text>)
    ensures Core(Replay(c, s, i, r, name, history)) == Core(s)
  {
    hide Core, DeliverHistory;
    var head := DirectText("[system] Recent messages in #" + name + ":");
    DeliverAllCore(c, s, {i}, head);
    DeliverHistoryCore(c, Deliver(c, s, i, head), i, r, history);
  }

  lemma LeaveNoticeCore(c: Config, s: Server, r: RoomId, nick: Text, name: Text)
    ensures Core(LeaveNotice(c, s, r, nick, name)) == Core(s)
  {
    hide Core, BroadcastRoom, BroadcastUsers;
    var msg := "[system] " + nick + " left for #" + name;
    BroadcastRoomCore(c, s, r, msg, []);
    BroadcastUsersCore(c, BroadcastRoom(c, s, r, msg, []), r);
  }

  lemma EnterNoticeCore(c: Config, s: Server, r: RoomId, nick: Text, name: Text)
    ensures Core(EnterNotice(c, s, r, nick, name)) == Core(s)
  {
    hide Core, BroadcastRoom, BroadcastUsers, BroadcastRoomLists;
    var msg := "[system] " + nick + " joined #" + name;
    var told := BroadcastRoom(c, s, r, msg, []);
    BroadcastRoomCore(c, s, r, msg, []);
    BroadcastUsersCore(c, told, r);
    BroadcastRoomListsCore(c, BroadcastUsers(c, told, r));
  }

  lemma SendPrivateCore(c: Config, s: Server, sender: Text, target: Text, body: Text, r: RoomId, stamp: Text)
    ensures Core(SendPrivate(c, s, sender, target, body, r, stamp)) == Core(s)
  {
    hide Core, NotHere, PrivateLine, LastNamed, Ordered, DeliverAll;
    if r in s.rooms {
      var members := Ordered(s.rooms[r].members);
      var from, to := LastNamed(s, members, sender), LastNamed(s, members, target);
      var line := PrivateLine(stamp, sender, target, body);
      if from.Some? {
        DeliverAllCore(c, s, {from.value}, NotHere(target));
        DeliverAllCore(c, s, {from.value}, line);
      }
      if to.Some? {
        DeliverAllCore(c, s, {to.value}, line);
        if from.Some? { DeliverAllCore(c, Deliver(c, s, to.value, line), {from.value}, line); }
      }
    }
  }

  // ---- moves and departures are, at the core, changes of seat ----

  /** The structural effect of `disconnect`. */
  function Unseat(s: Server, i: SessionId): Server
  {
    var idle := With(s.(sessions := s.sessions - {i}), i, Of(s, i).(activeRoom := 0));
    Erase(idle, Of(s, i).activeRoom, i)
  }

  lemma DepartCore(c: Config, s: Server, i: SessionId, announce: bool)
    requires 0 !in s.rooms
    ensures Core(Depart(c, s, i, announce)) == Core(Unseat(s, i))
  {
    hide BroadcastRoom, BroadcastUsers, BroadcastRoomLists;
    var prev, nick := Of(s, i).activeRoom, Of(s, i).nickname;
    var idle := With(s.(sessions := s.sessions - {i}), i, Of(s, i).(activeRoom := 0));
    var out := Erase(idle, prev, i);
    if i in RoomOf(idle, prev).members && prev != 0 {
      hide Core;
      var msg := "[system] " + nick + " left";
      var told := if announce && nick != [] then BroadcastRoom(c, out, prev, msg, []) else out;
      BroadcastRoomCore(c, out, prev, msg, []);
      BroadcastUsersCore(c, told, prev);
      BroadcastRoomListsCore(c, BroadcastUsers(c, told, prev));
    } else if prev in s.rooms {
      assert s.rooms[prev].members - {i} == s.rooms[prev].members;
      assert out.rooms == idle.rooms;
    }
  }

  // Structural changes act on the core alone.

  lemma WithCore(s: Server, i: SessionId, x: Session)
    ensures Core(With(s, i, x)) == With(Core(s), i, Bare(x))
    ensures Of(Core(s), i) == Bare(Of(s, i))
  {
    assert Core(With(s, i, x)).clients == With(Core(s), i, Bare(x)).clients;
  }

  lemma EraseCore(s: Server, r: RoomId, i: SessionId)
    ensures Core(Erase(s, r, i)) == Erase(Core(s), r, i)
  {
    assert Core(Erase(s, r, i)).rooms == Erase(Core(s), r, i).rooms;
  }

  lemma CloseCore(s: Server, i: SessionId)
    ensures Core(Close(s, i)) == Close(Core(s), i) && Core(Stop(s, i)) == Stop(Core(s), i)
  {
    WithCore(s, i, Of(s, i).(closing := true));
    WithCore(s, i, Of(s, i).(phase := Stopped));
  }

  lemma UnseatCore(s: Server, i: SessionId)
    ensures Core(Unseat(s, i)) == Unseat(Core(s), i)
  {
    var gone := s.(sessions := s.sessions - {i});
    var x := Of(s, i).(activeRoom := 0);
    WithCore(gone, i, x);
    EraseCore(With(gone, i, x), Of(s, i).activeRoom, i);
    assert Core(gone) == Core(s).(sessions := s.sessions - {i});
  }

  lemma CoreKeys(s: Server, t: Server)
    requires Core(s) == Core(t)
    ensures s.clients.Keys == t.clients.Keys && s.rooms.Keys == t.rooms.Keys
    ensures forall i :: i in s.clients ==> Bare(s.clients[i]) == Bare(t.clients[i])
    ensures forall r :: r in s.rooms ==> BareRoom(s.rooms[r]) == BareRoom(t.rooms[r])
  {
    hide BareClients, BareRooms;
    var a, b := Core(s), Core(t);
    forall i | i in s.clients ensures Bare(s.clients[i]) == Bare(t.clients[i]) {
      assert a.clients[i] == b.clients[i];
    }
    forall r | r in s.rooms ensures BareRoom(s.rooms[r]) == BareRoom(t.rooms[r]) {
      assert a.rooms[r] == b.rooms[r];
    }
  }

  lemma ExpelCore(c: Config, s: Server, i: SessionId, nick: Text, reason: Text)
    requires 0 !in s.rooms
    ensures Core(Expel(c, s, i, nick, reason)) == Core(Unseat(Close(s, i), i))
  {
    hide Core, Depart, Unseat, DeliverAll;
    var told := Deliver(c, s, i, Kick(nick, reason));
    DeliverAllCore(c, s, {i}, Kick(nick, reason));
    CoreKeys(s, told);
    DepartCore(c, Close(told, i), i, false);
    UnseatCore(Close(told, i), i);
    UnseatCore(Close(s, i), i);
    CloseCore(told, i);
    CloseCore(s, i);
  }

  lemma MoveSessionCore(c: Config, s: Server, i: SessionId, target: RoomId, announce: bool)
    requires target in s.rooms
    ensures Core(MoveSession(c, s, i, target, announce)) == Core(Reseat(s, i, target))
  {
    hide Core, LeaveNotice, EnterNotice, Replay, DeliverAll, Reseat;
    var prev, nick, room := Of(s, i).activeRoom, Of(s, i).nickname, s.rooms[target];
    var seated := Reseat(s, i, target);
    var told := if announce && prev != 0 then LeaveNotice(c, seated, prev, nick, room.name) else seated;
    LeaveNoticeCore(c, seated, prev, nick, room.name);
    var joined := RoomJoined(target, room.name, room.topic);
    var entered := Deliver(c, told, i, joined);
    DeliverAllCore(c, told, {i}, joined);
    ReplayCore(c, entered, i, target, room.name, room.recent);
    EnterNoticeCore(c, Replay(c, entered, i, target, room.name, room.recent), target, nick, room.name);
  }

  lemma MoveLocalCore(c: Config, s: Server, target: RoomId)
    requires target in s.rooms
    ensures Core(MoveLocal(c, s, target)) == Core(s.(localRoomId := target))
  {
    hide Core, LeaveNotice, EnterNotice;
    var prev, name := s.localRoomId, s.rooms[target].name;
    var moved := s.(localRoomId := target);
    LeaveNoticeCore(c, moved, prev, c.localNickname, name);
    EnterNoticeCore(c, if prev != 0 then LeaveNotice(c, moved, prev, c.localNickname, name) else moved,
      target, c.localNickname, name);
  }

  // ---- the invariants ----

  /** A session is a member of exactly the room it is active in. */
  ghost predicate Seats(s: Server)
  {
    && 0 !in s.rooms
    && (forall i :: i in s.clients ==> s.clients[i].activeRoom == 0 || s.clients[i].activeRoom in s.rooms)
    && (forall r, i :: r in s.rooms && i in s.rooms[r].members ==> i in s.clients && s.clients[i].activeRoom == r)
    && (forall i :: i in s.clients && s.clients[i].activeRoom != 0 ==> i in s.rooms[s.clients[i].activeRoom].members)
  }

  /** The nicknames of the registered sessions are distinct, none is the host's, and none is
      banned. */
  ghost predicate DistinctNames(c: Config, s: Server)
  {
    && s.sessions <= s.clients.Keys
    && (forall i, j :: i in s.sessions && j in s.sessions && i != j && s.clients[i].nickname != [] ==>
          s.clients[i].nickname != s.clients[j].nickname)
    && (forall i :: i in s.sessions && s.clients[i].nickname != [] ==>
          s.clients[i].nickname != c.localNickname && s.clients[i].nickname !in s.bans)
  }

  /** A nickname is valid, is what allows a session into a room, and is set only by a proof. */
  ghost predicate Handles(s: Server)
  {
    forall i :: i in s.clients ==>
      var x := s.clients[i];
      && (x.activeRoom != 0 ==> x.nickname != [])
      && (x.nickname != [] ==> IsValidNickname(x.nickname))
      && (x.pendingNickname != [] ==> IsValidNickname(x.pendingNickname))
  }

  /** Every id stays below this plus the number of rooms, so that it fits a signed 64-bit column. */
  const ID_BASE: nat := 0x8000_0000_0000_0000 - MAX_ROOMS

  /** The room table: the lobby is there, there are at most 32 rooms, names and topics are valid,
      names are unique ignoring case, and every id is below the next one. */
  ghost predicate RoomTable(s: Server)
  {
    && LOBBY in s.rooms
    && |s.rooms| <= MAX_ROOMS
    && s.nextRoomId <= ID_BASE + |s.rooms|
    && (forall r :: r in s.rooms ==>
          0 < r < s.nextRoomId && IsValidRoomName(s.rooms[r].name) && IsValidRoomTopic(s.rooms[r].topic))
    && (forall r, q :: r in s.rooms && q in s.rooms && r != q ==> Lower(s.rooms[r].name) != Lower(s.rooms[q].name))
    && (s.localRoomId != 0 ==> s.localRoomId in s.rooms)
  }

  ghost predicate Sound(c: Config, s: Server)
  {
    Seats(s) && DistinctNames(c, s) && Handles(s) && RoomTable(s)
  }

  /** `Sound`, without what a ban has yet to restore. */
  ghost predicate Shaped(s: Server) { Seats(s) && Handles(s) && RoomTable(s) }

  // ---- what each invariant depends on ----

  ghost predicate SameSeats(s: Server, t: Server)
  {
    && t.clients.Keys == s.clients.Keys && t.rooms.Keys == s.rooms.Keys
    && (forall i :: i in s.clients ==> t.clients[i].activeRoom == s.clients[i].activeRoom)
    && (forall r :: r in s.rooms ==> t.rooms[r].members == s.rooms[r].members)
  }

  /** No session is new to the registry, no nickname has changed, and no ban is new. */
  ghost predicate SameNicknames(s: Server, t: Server)
  {
    && t.sessions <= s.sessions && t.bans <= s.bans && t.clients.Keys == s.clients.Keys
    && forall i :: i in s.clients ==> t.clients[i].nickname == s.clients[i].nickname
  }

  ghost predicate SameTable(s: Server, t: Server)
  {
    && t.rooms.Keys == s.rooms.Keys && t.nextRoomId == s.nextRoomId && t.localRoomId == s.localRoomId
    && forall r :: r in s.rooms ==> t.rooms[r].name == s.rooms[r].name && t.rooms[r].topic == s.rooms[r].topic
  }

  ghost predicate SameHandles(s: Server, t: Server)
  {
    && t.clients.Keys == s.clients.Keys
    && forall i :: i in s.clients ==>
         && t.clients[i].nickname == s.clients[i].nickname
         && (t.clients[i].activeRoom == s.clients[i].activeRoom || t.clients[i].activeRoom == 0)
         && (t.clients[i].pendingNickname == s.clients[i].pendingNickname)
  }

  lemma SeatsKept(s: Server, t: Server)
    requires Seats(s) && SameSeats(s, t)
    ensures Seats(t)
  {
    forall r, i | r in t.rooms && i in t.rooms[r].members ensures i in t.clients && t.clients[i].activeRoom == r {
      assert i in s.rooms[r].members;
    }
  }

  lemma NicknamesKept(c: Config, s: Server, t: Server)
    requires DistinctNames(c, s) && SameNicknames(s, t)
    ensures DistinctNames(c, t)
  {
    assert forall i :: i in t.sessions ==> i in s.sessions;
  }

  lemma HandlesKept(s: Server, t: Server)
    requires Handles(s) && SameHandles(s, t)
    ensures Handles(t)
  {
    hide IsValidNickname;
    forall i | i in t.clients ensures
      var x := t.clients[i];
      && (x.activeRoom != 0 ==> x.nickname != [])
      && (x.nickname != [] ==> IsValidNickname(x.nickname))
      && (x.pendingNickname != [] ==> IsValidNickname(x.pendingNickname))
    {
      assert i in s.clients;
    }
  }

  lemma TableKept(s: Server, t: Server)
    requires RoomTable(s) && SameTable(s, t)
    ensures RoomTable(t)
  {
    hide IsValidRoomName, IsValidRoomTopic, Lower;
    assert |s.rooms| == |s.rooms.Keys| && |t.rooms| == |t.rooms.Keys|;
    forall r | r in t.rooms
      ensures 0 < r < t.nextRoomId && IsValidRoomName(t.rooms[r].name) && IsValidRoomTopic(t.rooms[r].topic)
    {
      assert r in s.rooms;
    }
    forall r, q | r in t.rooms && q in t.rooms && r != q
      ensures Lower(t.rooms[r].name) != Lower(t.rooms[q].name)
    {
      assert r in s.rooms && q in s.rooms;
    }
  }

  ghost predicate SameAll(s: Server, t: Server)
  {
    SameSeats(s, t) && SameNicknames(s, t) && SameTable(s, t) && SameHandles(s, t)
  }

  lemma SoundKept(c: Config, s: Server, t: Server)
    requires Sound(c, s) && SameAll(s, t)
    ensures Sound(c, t)
  {
    hide Seats, DistinctNames, Handles, RoomTable, SameSeats, SameNicknames, SameTable, SameHandles;
    SeatsKept(s, t);
    NicknamesKept(c, s, t);
    HandlesKept(s, t);
    TableKept(s, t);
  }

  lemma SoundOfCore(c: Config, s: Server, t: Server)
    requires Core(s) == Core(t) && Sound(c, s)
    ensures Sound(c, t)
  {
    SameOfCore(s, t);
    SoundKept(c, s, t);
  }

  lemma ShapedOfCore(s: Server, t: Server)
    requires Core(s) == Core(t) && Shaped(s)
    ensures Shaped(t)
  {
    hide Core, Seats, Handles, RoomTable, SameSeats, SameTable, SameHandles;
    SameOfCore(s, t);
    SeatsKept(s, t);
    HandlesKept(s, t);
    TableKept(s, t);
  }

  lemma SoundIsShaped(c: Config, s: Server)
    requires Sound(c, s)
    ensures Shaped(s)
  {
  }

  lemma SameOfCore(s: Server, t: Server)
    requires Core(s) == Core(t)
    ensures SameAll(s, t)
  {
    CoreKeys(s, t);
    CoreFields(s, t);
    hide Core;
    forall i | i in s.clients ensures
      && t.clients[i].activeRoom == s.clients[i].activeRoom
      && t.clients[i].nickname == s.clients[i].nickname
      && t.clients[i].pendingNickname == s.clients[i].pendingNickname
    {
      assert Bare(s.clients[i]) == Bare(t.clients[i]);
    }
    forall r | r in s.rooms ensures
      && t.rooms[r].members == s.rooms[r].members
      && t.rooms[r].name == s.rooms[r].name && t.rooms[r].topic == s.rooms[r].topic
    {
      assert BareRoom(s.rooms[r]) == BareRoom(t.rooms[r]);
    }
  }

  lemma CoreFields(s: Server, t: Server)
    requires Core(s) == Core(t)
    ensures s.sessions == t.sessions && s.bans == t.bans && s.nextRoomId == t.nextRoomId
    ensures s.localRoomId == t.localRoomId && s.identities == t.identities
  {
  }
}
