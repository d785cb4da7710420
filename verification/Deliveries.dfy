/** What each session is sent, in order, while sessions move, leave and are spoken to. */
module Deliveries {
  import opened Octets
  import opened Messages
  import opened Ordering
  import opened ServerModel
  import opened ServerStructure
  import opened ServerSafety
  import opened Persistence
  import opened Speech
  import V = ClientView
  import C = ClientAgreement

  /** The messages that have a frame. */
  function Framed(c: Config, ms: seq<ServerMessage>): seq<ServerMessage>
  {
    if ms == [] then []
    else
      var n := |ms| - 1;
      Framed(c, ms[..n]) + if c.encodes(ms[n]) then [ms[n]] else []
  }

  /** From `s` to `t` session `j` is sent exactly these messages, those without a frame left out. */
  ghost predicate Gets(c: Config, s: Server, t: Server, j: SessionId, ms: seq<ServerMessage>)
  {
    j in s.clients && j in t.clients && t.clients[j].outbox == s.clients[j].outbox + Framed(c, ms)
  }

  lemma {:induction false} FramedConcat(c: Config, a: seq<ServerMessage>, b: seq<ServerMessage>)
    ensures Framed(c, a + b) == Framed(c, a) + Framed(c, b)
    decreases |b|
  {
    if b == [] {
      assert a + b == a;
    } else {
      var n := |b| - 1;
      FramedConcat(c, a, b[..n]);
      assert (a + b)[..|a + b| - 1] == a + b[..n];
    }
  }

  lemma {:induction false} FramedOne(c: Config, m: ServerMessage)
    ensures Framed(c, [m]) == if c.encodes(m) then [m] else []
    ensures Framed(c, []) == []
  {
    assert [m][..0] == [];
  }

  lemma {:induction false} GetsThen(c: Config, s: Server, t: Server, u: Server, j: SessionId, a: seq<ServerMessage>,
                                    b: seq<ServerMessage>)
    requires Gets(c, s, t, j, a) && Gets(c, t, u, j, b)
    ensures Gets(c, s, u, j, a + b)
  {
    FramedConcat(c, a, b);
  }

  /** The same outbox, and nothing sent. */
  lemma GetsNothing(c: Config, s: Server, t: Server, j: SessionId)
    requires j in s.clients && j in t.clients && t.clients[j].outbox == s.clients[j].outbox
    ensures Gets(c, s, t, j, [])
  {
  }

  // ---- single deliveries ----

  lemma DeliverGets(c: Config, s: Server, to: set<SessionId>, m: ServerMessage, j: SessionId)
    requires j in s.clients
    ensures Gets(c, s, DeliverAll(c, s, to, m), j, if j in to then [m] else [])
  {
    FramedOne(c, m);
  }

  lemma SaidGets(c: Config, s: Server, r: RoomId, text: Text, nick: Text, j: SessionId)
    requires j in s.clients
    ensures Gets(c, s, BroadcastRoom(c, s, r, text, nick), j, if j in RoomOf(s, r).members then [RoomText(r, text)] else [])
  {
    FramedOne(c, RoomText(r, text));
  }

  lemma UsersGets(c: Config, s: Server, r: RoomId, j: SessionId)
    requires j in s.clients
    ensures Gets(c, s, BroadcastUsers(c, s, r), j, if j in RoomOf(s, r).members then [UserList(r, UserNames(c, s, r))] else [])
  {
    hide UserNames;
    FramedOne(c, UserList(r, UserNames(c, s, r)));
  }

  lemma ListsGets(c: Config, s: Server, j: SessionId)
    requires j in s.clients
    ensures Gets(c, s, BroadcastRoomLists(c, s), j, if j in ServerModel.Named(s) then [RoomList(RoomSummaries(c, s))] else [])
  {
    hide RoomSummaries, DeliverAll;
    DeliverGets(c, s, ServerModel.Named(s), RoomList(RoomSummaries(c, s)), j);
  }

  /** The texts of a room, one after another. */
  function Texts(r: RoomId, history: seq<Text>): seq<ServerMessage>
  {
    seq(|history|, k requires 0 <= k < |history| => RoomText(r, history[k]))
  }

  /** A heading and the recent texts, oldest first; nothing of an empty room. */
  function Recap(r: RoomId, name: Text, history: seq<Text>): seq<ServerMessage>
  {
    if history == [] then [] else [DirectText("[system] Recent messages in #" + name + ":")] + Texts(r, history)
  }

  lemma GetsKnown(c: Config, s: Server, t: Server, j: SessionId, ms: seq<ServerMessage>)
    requires Gets(c, s, t, j, ms)
    ensures j in s.clients && j in t.clients
  {
  }

  lemma {:induction false} TextsCons(r: RoomId, history: seq<Text>)
    requires history != []
    ensures Texts(r, history) == [RoomText(r, history[0])] + Texts(r, history[1..])
  {
  }

  lemma {:induction false} HistoryGets(c: Config, s: Server, i: SessionId, r: RoomId, history: seq<Text>, j: SessionId)
    requires j in s.clients
    ensures Gets(c, s, DeliverHistory(c, s, i, r, history), j, if j == i then Texts(r, history) else [])
    decreases |history|
  {
    hide Gets, DeliverAll, Texts;
    if history == [] {
      GetsNothing(c, s, s, j);
      NoTexts(r);
    } else {
      var m := RoomText(r, history[0]);
      var told, one := Deliver(c, s, i, m), if j == i then [m] else [];
      DeliverGets(c, s, {i}, m, j);
      GetsKnown(c, s, told, j, one);
      HistoryGets(c, told, i, r, history[1..], j);
      TextsCons(r, history);
      var rest := if j == i then Texts(r, history[1..]) else [];
      GetsThen(c, s, told, DeliverHistory(c, told, i, r, history[1..]), j, one, rest);
      assert one + rest == if j == i then Texts(r, history) else [];
    }
  }

  lemma NoTexts(r: RoomId)
    ensures Texts(r, []) == []
  {
  }

  lemma {:induction false} ReplayGets(c: Config, s: Server, i: SessionId, r: RoomId, name: Text, history: seq<Text>, j: SessionId)
    requires j in s.clients
    ensures Gets(c, s, Replay(c, s, i, r, name, history), j, if j == i then Recap(r, name, history) else [])
  {
    hide Gets, DeliverAll, Texts, DeliverHistory;
    if history == [] {
      GetsNothing(c, s, s, j);
    } else {
      var head := DirectText("[system] Recent messages in #" + name + ":");
      var told, one := Deliver(c, s, i, head), if j == i then [head] else [];
      DeliverGets(c, s, {i}, head, j);
      GetsKnown(c, s, told, j, one);
      HistoryGets(c, told, i, r, history, j);
      var rest := if j == i then Texts(r, history) else [];
      GetsThen(c, s, told, DeliverHistory(c, told, i, r, history), j, one, rest);
      assert one + rest == if j == i then Recap(r, name, history) else [];
    }
  }

  // ---- what does not change while messages are delivered ----

  lemma MembersOfCore(s: Server, t: Server, r: RoomId)
    requires Core(s) == Core(t)
    ensures (r in s.rooms <==> r in t.rooms) && RoomOf(s, r).members == RoomOf(t, r).members && RoomOf(s, r).name == RoomOf(t, r).name
  {
    SameOfCore(s, t);
    hide Core;
  }

  lemma ListsOfCore(c: Config, s: Server, t: Server)
    requires Core(s) == Core(t)
    ensures RoomSummaries(c, s) == RoomSummaries(c, t) && ServerModel.Named(s) == ServerModel.Named(t)
    ensures forall r :: RoomOf(s, r).members == RoomOf(t, r).members
  {
    hide Core, Ordered, RoomOf;
    CoreFields(s, t);
    CoreKeys(s, t);
    NamedOfCore(s, t);
    forall r ensures Summary(c, s, r) == Summary(c, t, r) && RoomOf(s, r).members == RoomOf(t, r).members {
      MembersOfCore(s, t, r);
    }
  }

  lemma NamedOfCore(s: Server, t: Server)
    requires Core(s) == Core(t)
    ensures ServerModel.Named(s) == ServerModel.Named(t)
  {
    SameOfCore(s, t);
    CoreFields(s, t);
    hide Core;
  }

  /** A text and then the users, to the members of a room. */
  ghost function Announced(c: Config, s: Server, r: RoomId, text: Text, j: SessionId): seq<ServerMessage>
  {
    if j in RoomOf(s, r).members then [RoomText(r, text), UserList(r, UserNames(c, s, r))] else []
  }

  /** The room list, to those registered under a nickname. */
  ghost function Listed(c: Config, s: Server, j: SessionId): seq<ServerMessage>
  {
    if j in ServerModel.Named(s) then [RoomList(RoomSummaries(c, s))] else []
  }

  lemma AnnounceGets(c: Config, s: Server, r: RoomId, text: Text, j: SessionId)
    requires j in s.clients
    ensures Gets(c, s, BroadcastUsers(c, BroadcastRoom(c, s, r, text, []), r), j, Announced(c, s, r, text, j))
  {
    hide Gets, BroadcastRoom, BroadcastUsers, UserNames, Core, RoomSummaries;
    var said := BroadcastRoom(c, s, r, text, []);
    var told := BroadcastUsers(c, said, r);
    BroadcastRoomCore(c, s, r, text, []);
    ListsOfCore(c, s, said);
    V.UserNamesOfCore(c, s, said, r);
    SaidGets(c, s, r, text, [], j);
    var a: seq<ServerMessage> := if j in RoomOf(s, r).members then [RoomText(r, text)] else [];
    var b: seq<ServerMessage> := if j in RoomOf(s, r).members then [UserList(r, UserNames(c, s, r))] else [];
    GetsKnown(c, s, said, j, a);
    UsersGets(c, said, r, j);
    GetsThen(c, s, said, told, j, a, b);
    assert a + b == Announced(c, s, r, text, j);
  }

  lemma AnnouncedOfCore(c: Config, s: Server, t: Server, r: RoomId, text: Text, j: SessionId)
    requires Core(s) == Core(t)
    ensures Announced(c, s, r, text, j) == Announced(c, t, r, text, j) && Listed(c, s, j) == Listed(c, t, j)
  {
    hide Core, UserNames, RoomSummaries;
    ListsOfCore(c, s, t);
    V.UserNamesOfCore(c, s, t, r);
  }

  // ---- moving ----

  /** What session `j` is sent when `i` moves: the notice and the new list in the room left, the new
      room and its recent texts for the one that moves, the notice and the new list in the room entered,
      and the room list for everyone registered under a nickname. */
  ghost function MoveMessages(c: Config, s: Server, t: Server, i: SessionId, target: RoomId, announce: bool, j: SessionId)
    : seq<ServerMessage>
    requires i in s.clients && j in s.clients && target in s.rooms
  {
    var x, y, room := s.clients[i], s.clients[j], s.rooms[target];
    var prev := x.activeRoom;
    (if announce && prev != 0 && j != i && y.activeRoom == prev then
       [RoomText(prev, "[system] " + x.nickname + " left for #" + room.name), UserList(prev, UserNames(c, t, prev))]
     else [])
    + (if j == i then [RoomJoined(target, room.name, room.topic)] + Recap(target, room.name, room.recent) else [])
    + (if j == i || y.activeRoom == target then
         [RoomText(target, "[system] " + x.nickname + " joined #" + room.name), UserList(target, UserNames(c, t, target))]
       else [])
    + (if j in s.sessions && y.nickname != [] then [RoomList(RoomSummaries(c, t))] else [])
  }

  lemma ReseatQuiet(c: Config, s: Server, i: SessionId, target: RoomId, j: SessionId)
    requires target in s.rooms && j in s.clients
    ensures Gets(c, s, Reseat(s, i, target), j, [])
  {
  }

  /** Who is where after the change of seat. */
  lemma ReseatMembers(c: Config, s: Server, i: SessionId, target: RoomId, j: SessionId)
    requires Sound(c, s) && i in s.clients && j in s.clients && target in s.rooms && s.clients[i].activeRoom != target
    ensures var t, prev := Reseat(s, i, target), s.clients[i].activeRoom;
      && (j in RoomOf(t, prev).members <==> prev != 0 && j != i && s.clients[j].activeRoom == prev)
      && (j in RoomOf(t, target).members <==> j == i || s.clients[j].activeRoom == target)
      && (j in ServerModel.Named(t) <==> j in s.sessions && s.clients[j].nickname != [])
  {
    hide DistinctNames, Handles, RoomTable;
  }

  lemma FarewellGets(c: Config, s: Server, announce: bool, prev: RoomId, nick: Text, name: Text, j: SessionId)
    requires j in s.clients
    ensures Gets(c, s, C.Farewell(c, s, announce, prev, nick, name), j,
              if announce && prev != 0 then Announced(c, s, prev, LeftFor(nick, name), j) else [])
  {
    hide Gets, BroadcastRoom, BroadcastUsers, Announced;
    if announce && prev != 0 { AnnounceGets(c, s, prev, LeftFor(nick, name), j); }
    else { GetsNothing(c, s, s, j); }
  }

  lemma EnterNoticeGets(c: Config, s: Server, r: RoomId, nick: Text, name: Text, j: SessionId)
    requires j in s.clients
    ensures Gets(c, s, EnterNotice(c, s, r, nick, name), j, Announced(c, s, r, Entered(nick, name), j) + Listed(c, s, j))
  {
    hide Gets, BroadcastRoom, BroadcastUsers, BroadcastRoomLists, Core, Announced;
    var text := Entered(nick, name);
    var told := BroadcastUsers(c, BroadcastRoom(c, s, r, text, []), r);
    AnnounceGets(c, s, r, text, j);
    BroadcastRoomCore(c, s, r, text, []);
    BroadcastUsersCore(c, BroadcastRoom(c, s, r, text, []), r);
    AnnouncedOfCore(c, s, told, r, text, j);
    GetsKnown(c, s, told, j, Announced(c, s, r, text, j));
    ListsGets(c, told, j);
    GetsThen(c, s, told, BroadcastRoomLists(c, told), j, Announced(c, s, r, text, j), Listed(c, s, j));
  }

  /** The three parts of what a move sends. */
  ghost function MoveParts(c: Config, s: Server, seated: Server, i: SessionId, target: RoomId, announce: bool, j: SessionId)
    : seq<ServerMessage>
    requires target in s.rooms
  {
    var prev, nick, room := Of(s, i).activeRoom, Of(s, i).nickname, s.rooms[target];
    (if announce && prev != 0 then Announced(c, seated, prev, LeftFor(nick, room.name), j) else [])
    + (if j == i then [RoomJoined(target, room.name, room.topic)] + Recap(target, room.name, room.recent) else [])
    + (Announced(c, seated, target, Entered(nick, room.name), j) + Listed(c, seated, j))
  }

  lemma MovePartsGets(c: Config, s: Server, i: SessionId, target: RoomId, announce: bool, j: SessionId)
    requires target in s.rooms && j in s.clients
    ensures Gets(c, s, MoveSession(c, s, i, target, announce), j, MoveParts(c, s, Reseat(s, i, target), i, target, announce, j))
  {
    hide Gets, Core, Reseat, C.Farewell, Replay, DeliverAll, EnterNotice, MoveSession, Announced, Listed, Recap;
    var prev, nick, room, seated := Of(s, i).activeRoom, Of(s, i).nickname, s.rooms[target], Reseat(s, i, target);
    var joined := RoomJoined(target, room.name, room.topic);
    C.MoveIs(c, s, i, target, announce);
    ReseatQuiet(c, s, i, target, j);
    GetsKnown(c, s, seated, j, []);
    FarewellGets(c, seated, announce, prev, nick, room.name, j);
    var told := C.Farewell(c, seated, announce, prev, nick, room.name);
    var a: seq<ServerMessage> := if announce && prev != 0 then Announced(c, seated, prev, LeftFor(nick, room.name), j) else [];
    GetsThen(c, s, seated, told, j, [], a);
    assert [] + a == a;
    GetsKnown(c, seated, told, j, a);
    C.FarewellCore(c, seated, announce, prev, nick, room.name);
    var shown := EnteredShown(c, told, i, target, room, j);
    var b: seq<ServerMessage> := if j == i then [joined] + Recap(target, room.name, room.recent) else [];
    GetsThen(c, s, told, shown, j, a, b);
    GetsKnown(c, s, shown, j, a + b);
    AnnouncedOfCore(c, seated, shown, target, Entered(nick, room.name), j);
    EnterNoticeGets(c, shown, target, nick, room.name, j);
    GetsThen(c, s, shown, MoveSession(c, s, i, target, announce), j, a + b,
      Announced(c, seated, target, Entered(nick, room.name), j) + Listed(c, seated, j));
  }

  /** What the mover is shown of the new room. */
  lemma EnteredShown(c: Config, s: Server, i: SessionId, target: RoomId, room: Room, j: SessionId) returns (t: Server)
    requires j in s.clients
    ensures t == Replay(c, Deliver(c, s, i, RoomJoined(target, room.name, room.topic)), i, target, room.name, room.recent)
    ensures Core(t) == Core(s)
    ensures Gets(c, s, t, j, if j == i then [RoomJoined(target, room.name, room.topic)] + Recap(target, room.name, room.recent) else [])
  {
    hide Gets, Core, Replay, DeliverAll, Recap;
    var joined := RoomJoined(target, room.name, room.topic);
    var entered := Deliver(c, s, i, joined);
    var one: seq<ServerMessage> := if j == i then [joined] else [];
    DeliverGets(c, s, {i}, joined, j);
    DeliverAllCore(c, s, {i}, joined);
    GetsKnown(c, s, entered, j, one);
    t := Replay(c, entered, i, target, room.name, room.recent);
    var recap: seq<ServerMessage> := if j == i then Recap(target, room.name, room.recent) else [];
    ReplayGets(c, entered, i, target, room.name, room.recent, j);
    ReplayCore(c, entered, i, target, room.name, room.recent);
    GetsThen(c, s, entered, t, j, one, recap);
    assert one + recap == if j == i then [joined] + Recap(target, room.name, room.recent) else [];
  }

  lemma MoveMessagesAre(c: Config, s: Server, t: Server, i: SessionId, target: RoomId, announce: bool, j: SessionId)
    requires Sound(c, s) && i in s.clients && j in s.clients && target in s.rooms && s.clients[i].activeRoom != target
    requires Core(t) == Core(Reseat(s, i, target))
    ensures MoveMessages(c, s, t, i, target, announce, j) == MoveParts(c, s, Reseat(s, i, target), i, target, announce, j)
  {
    hide Sound, Core, Reseat, UserNames, RoomSummaries, Recap;
    var seated, prev := Reseat(s, i, target), s.clients[i].activeRoom;
    ListsOfCore(c, seated, t);
    V.UserNamesOfCore(c, seated, t, target);
    V.UserNamesOfCore(c, seated, t, prev);
    ReseatMembers(c, s, i, target, j);
  }

  lemma MoveGets(c: Config, s: Server, i: SessionId, target: RoomId, announce: bool, j: SessionId)
    requires Sound(c, s) && i in s.clients && j in s.clients && target in s.rooms && s.clients[i].activeRoom != target
    ensures var t := MoveSession(c, s, i, target, announce);
            Gets(c, s, t, j, MoveMessages(c, s, t, i, target, announce, j))
  {
    hide Sound, Gets, Core, Reseat, MoveSession, MoveMessages, MoveParts;
    MovePartsGets(c, s, i, target, announce, j);
    MoveSessionCore(c, s, i, target, announce);
    MoveMessagesAre(c, s, MoveSession(c, s, i, target, announce), i, target, announce, j);
  }

  /** What session `j` is sent when the host moves. */
  ghost function HostMoveMessages(c: Config, s: Server, t: Server, target: RoomId, j: SessionId): seq<ServerMessage>
    requires j in s.clients && target in s.rooms
  {
    var prev, y, name := s.localRoomId, s.clients[j], s.rooms[target].name;
    (if prev != 0 && y.activeRoom == prev then
       [RoomText(prev, "[system] " + c.localNickname + " left for #" + name), UserList(prev, UserNames(c, t, prev))]
     else [])
    + (if y.activeRoom == target then
         [RoomText(target, "[system] " + c.localNickname + " joined #" + name), UserList(target, UserNames(c, t, target))]
       else [])
    + (if j in s.sessions && y.nickname != [] then [RoomList(RoomSummaries(c, t))] else [])
  }

  /** Who is in a room and who has a nickname. */
  lemma MemberWhere(c: Config, s: Server, r: RoomId, j: SessionId)
    requires Sound(c, s) && j in s.clients
    ensures j in RoomOf(s, r).members <==> r != 0 && s.clients[j].activeRoom == r
    ensures j in ServerModel.Named(s) <==> j in s.sessions && s.clients[j].nickname != []
  {
    hide DistinctNames, Handles, RoomTable;
  }

  lemma AnnouncedIs(c: Config, s: Server, r: RoomId, text: Text, j: SessionId)
    requires Sound(c, s) && j in s.clients
    ensures Announced(c, s, r, text, j) ==
      if r != 0 && s.clients[j].activeRoom == r then [RoomText(r, text), UserList(r, UserNames(c, s, r))] else []
    ensures Listed(c, s, j) == if j in s.sessions && s.clients[j].nickname != [] then [RoomList(RoomSummaries(c, s))] else []
  {
    hide Sound, UserNames, RoomSummaries;
    MemberWhere(c, s, r, j);
  }

  lemma HostPlaced(c: Config, s: Server, target: RoomId)
    requires Sound(c, s) && target in s.rooms
    ensures Sound(c, s.(localRoomId := target)) && target != 0
  {
    var t := s.(localRoomId := target);
    assert SameSeats(s, t) && SameHandles(s, t) && SameNicknames(s, t) && RoomTable(t);
    hide Seats, DistinctNames, Handles, RoomTable, SameSeats, SameHandles, SameNicknames;
    SeatsKept(s, t);
    HandlesKept(s, t);
    NicknamesKept(c, s, t);
  }

  lemma HostMoveParts(c: Config, s: Server, target: RoomId, j: SessionId)
    requires target in s.rooms && j in s.clients
    ensures var prev, name, moved := s.localRoomId, s.rooms[target].name, s.(localRoomId := target);
      Gets(c, s, MoveLocal(c, s, target), j,
        (if prev != 0 then Announced(c, moved, prev, LeftFor(c.localNickname, name), j) else [])
        + (Announced(c, moved, target, Entered(c.localNickname, name), j) + Listed(c, moved, j)))
  {
    hide Gets, Core, C.Farewell, EnterNotice, MoveLocal, Announced, Listed;
    var prev, name, moved := s.localRoomId, s.rooms[target].name, s.(localRoomId := target);
    MoveLocalIs(c, s, target);
    GetsNothing(c, s, moved, j);
    FarewellGets(c, moved, true, prev, c.localNickname, name, j);
    C.FarewellCore(c, moved, true, prev, c.localNickname, name);
    var told := C.Farewell(c, moved, true, prev, c.localNickname, name);
    var a: seq<ServerMessage> := if prev != 0 then Announced(c, moved, prev, LeftFor(c.localNickname, name), j) else [];
    GetsThen(c, s, moved, told, j, [], a);
    assert [] + a == a;
    GetsKnown(c, s, told, j, a);
    AnnouncedOfCore(c, moved, told, target, Entered(c.localNickname, name), j);
    EnterNoticeGets(c, told, target, c.localNickname, name, j);
    GetsThen(c, s, told, MoveLocal(c, s, target), j, a,
      Announced(c, moved, target, Entered(c.localNickname, name), j) + Listed(c, moved, j));
  }

  lemma HostMoveGets(c: Config, s: Server, target: RoomId, j: SessionId)
    requires Sound(c, s) && target in s.rooms && j in s.clients
    ensures var t := MoveLocal(c, s, target); Gets(c, s, t, j, HostMoveMessages(c, s, t, target, j))
  {
    hide Gets, Core, MoveLocal, Announced, Listed, Sound, UserNames, RoomSummaries;
    var t, prev, name, moved := MoveLocal(c, s, target), s.localRoomId, s.rooms[target].name, s.(localRoomId := target);
    HostMoveParts(c, s, target, j);
    MoveLocalCore(c, s, target);
    HostPlaced(c, s, target);
    AnnouncedIs(c, moved, prev, LeftFor(c.localNickname, name), j);
    AnnouncedIs(c, moved, target, Entered(c.localNickname, name), j);
    ListsOfCore(c, moved, t);
    V.UserNamesOfCore(c, moved, t, target);
    V.UserNamesOfCore(c, moved, t, prev);
    var a, b, d :=
      if prev != 0 then Announced(c, moved, prev, LeftFor(c.localNickname, name), j) else [],
      Announced(c, moved, target, Entered(c.localNickname, name), j), Listed(c, moved, j);
    assert a + (b + d) == a + b + d;
  }

  // ---- leaving ----

  /** What session `j` is sent when `i` leaves the server. */
  ghost function DepartMessages(c: Config, s: Server, t: Server, i: SessionId, announce: bool, j: SessionId): seq<ServerMessage>
    requires i in s.clients && j in s.clients
  {
    var x, y := s.clients[i], s.clients[j];
    var prev := x.activeRoom;
    if prev == 0 || j == i then []
    else
      (if y.activeRoom == prev && announce && x.nickname != [] then [RoomText(prev, "[system] " + x.nickname + " left")] else [])
      + (if y.activeRoom == prev then [UserList(prev, UserNames(c, t, prev))] else [])
      + (if j in s.sessions && y.nickname != [] then [RoomList(RoomSummaries(c, t))] else [])
  }

  lemma UnseatQuiet(c: Config, s: Server, i: SessionId, j: SessionId)
    requires j in s.clients
    ensures Gets(c, s, Unseat(s, i), j, [])
  {
  }

  lemma UnseatMembers(c: Config, s: Server, i: SessionId, j: SessionId)
    requires Seats(s) && i in s.clients && j in s.clients && s.clients[i].activeRoom != 0
    ensures var t, prev := Unseat(s, i), s.clients[i].activeRoom;
      && (j in RoomOf(t, prev).members <==> j != i && s.clients[j].activeRoom == prev)
      && (j in ServerModel.Named(t) <==> j != i && j in s.sessions && s.clients[j].nickname != [])
  {
  }

  lemma DepartedGets(c: Config, s: Server, prev: RoomId, say: bool, nick: Text, j: SessionId)
    requires j in s.clients
    ensures Gets(c, s, C.Departed(c, s, prev, say, nick), j, LeaveMessages(c, s, prev, say, nick, j))
  {
    hide Gets, Core, BroadcastRoom, BroadcastUsers, BroadcastRoomLists, UserNames, RoomSummaries;
    var told := if say then BroadcastRoom(c, s, prev, Left(nick), []) else s;
    var shown := BroadcastUsers(c, told, prev);
    var a: seq<ServerMessage>, b: seq<ServerMessage> :=
      (if j in RoomOf(s, prev).members && say then [RoomText(prev, Left(nick))] else []),
      (if j in RoomOf(s, prev).members then [UserList(prev, UserNames(c, s, prev))] else []);
    if say {
      SaidGets(c, s, prev, Left(nick), [], j);
      BroadcastRoomCore(c, s, prev, Left(nick), []);
    } else {
      GetsNothing(c, s, s, j);
    }
    GetsKnown(c, s, told, j, a);
    ListsOfCore(c, s, told);
    V.UserNamesOfCore(c, s, told, prev);
    UsersGets(c, told, prev, j);
    BroadcastUsersCore(c, told, prev);
    GetsThen(c, s, told, shown, j, a, b);
    GetsKnown(c, s, shown, j, a + b);
    ListsOfCore(c, s, shown);
    ListsGets(c, shown, j);
    GetsThen(c, s, shown, BroadcastRoomLists(c, shown), j, a + b, Listed(c, s, j));
  }

  /** The same before the departure is announced. */
  ghost function LeaveMessages(c: Config, out: Server, prev: RoomId, say: bool, nick: Text, j: SessionId): seq<ServerMessage>
  {
    (if j in RoomOf(out, prev).members && say then [RoomText(prev, Left(nick))] else [])
    + (if j in RoomOf(out, prev).members then [UserList(prev, UserNames(c, out, prev))] else [])
    + Listed(c, out, j)
  }

  lemma DepartMessagesAre(c: Config, s: Server, t: Server, i: SessionId, announce: bool, j: SessionId)
    requires Seats(s) && i in s.clients && j in s.clients && s.clients[i].activeRoom != 0
    requires Core(t) == Core(Unseat(s, i))
    ensures var x := s.clients[i];
      DepartMessages(c, s, t, i, announce, j) == LeaveMessages(c, Unseat(s, i), x.activeRoom, announce && x.nickname != [], x.nickname, j)
  {
    hide Seats, Core, Unseat, UserNames, RoomSummaries;
    ListsOfCore(c, Unseat(s, i), t);
    V.UserNamesOfCore(c, Unseat(s, i), t, s.clients[i].activeRoom);
    UnseatMembers(c, s, i, j);
  }

  lemma DepartGets(c: Config, s: Server, i: SessionId, announce: bool, j: SessionId)
    requires Seats(s) && i in s.clients && j in s.clients
    ensures var t := Depart(c, s, i, announce); Gets(c, s, t, j, DepartMessages(c, s, t, i, announce, j))
  {
    hide Seats, Gets, Core, Unseat, Depart, C.Departed, UserNames, RoomSummaries, LeaveMessages;
    var prev, nick, out, t := s.clients[i].activeRoom, s.clients[i].nickname, Unseat(s, i), Depart(c, s, i, announce);
    C.DepartIs(c, s, i, announce);
    UnseatQuiet(c, s, i, j);
    GetsKnown(c, s, out, j, []);
    if prev != 0 {
      NoRoomZero(s);
      DepartCore(c, s, i, announce);
      DepartMessagesAre(c, s, t, i, announce, j);
      DepartedGets(c, out, prev, announce && nick != [], nick, j);
      var ms := LeaveMessages(c, out, prev, announce && nick != [], nick, j);
      assert [] + ms == ms;
      GetsThen(c, s, out, t, j, [], ms);
    }
  }

  lemma NoRoomZero(s: Server)
    requires Seats(s)
    ensures 0 !in s.rooms
  {
  }

  /** What session `j` is sent when `i` is kicked or banned. */
  ghost function ExpelMessages(c: Config, s: Server, t: Server, i: SessionId, nick: Text, reason: Text, j: SessionId)
    : seq<ServerMessage>
    requires i in s.clients && j in s.clients
  {
    (if j == i then [Kick(nick, reason)] else []) + DepartMessages(c, s, t, i, false, j)
  }

  lemma CloseQuiet(c: Config, s: Server, i: SessionId, j: SessionId)
    requires j in s.clients && i in s.clients
    ensures Gets(c, s, Close(s, i), j, []) && Gets(c, s, Stop(s, i), j, [])
    ensures Close(s, i).sessions == s.sessions && j in Close(s, i).clients && i in Close(s, i).clients
    ensures Close(s, i).clients[j].activeRoom == s.clients[j].activeRoom && Close(s, i).clients[j].nickname == s.clients[j].nickname
    ensures Close(s, i).clients[i].activeRoom == s.clients[i].activeRoom && Close(s, i).clients[i].nickname == s.clients[i].nickname
  {
  }

  lemma ToldKept(c: Config, s: Server, i: SessionId, m: ServerMessage, j: SessionId)
    requires Seats(s) && i in s.clients && j in s.clients
    ensures var t := Close(Deliver(c, s, i, m), i);
      && Seats(t) && i in t.clients && j in t.clients && t.sessions == s.sessions
      && t.clients[j].activeRoom == s.clients[j].activeRoom && t.clients[j].nickname == s.clients[j].nickname
      && t.clients[i].activeRoom == s.clients[i].activeRoom && t.clients[i].nickname == s.clients[i].nickname
      && Gets(c, s, t, j, if j == i then [m] else [])
  {
    hide Seats, Gets, Core, DeliverAll, Close;
    var told := Deliver(c, s, i, m);
    DeliverGets(c, s, {i}, m, j);
    DeliverAllCore(c, s, {i}, m);
    SameOfCore(s, told);
    CoreFields(s, told);
    CloseQuiet(c, told, i, j);
    ToldSeats(c, s, i, m);
    var ms: seq<ServerMessage> := if j == i then [m] else [];
    GetsThen(c, s, told, Close(told, i), j, ms, []);
    assert ms + [] == ms;
  }

  lemma ExpelGets(c: Config, s: Server, i: SessionId, nick: Text, reason: Text, j: SessionId)
    requires Seats(s) && i in s.clients && j in s.clients
    ensures var t := Expel(c, s, i, nick, reason); Gets(c, s, t, j, ExpelMessages(c, s, t, i, nick, reason, j))
  {
    hide Seats, Gets, Depart, DeliverAll, Close, UserNames, RoomSummaries;
    var m, told := Kick(nick, reason), Close(Deliver(c, s, i, Kick(nick, reason)), i);
    ToldKept(c, s, i, m, j);
    DepartGets(c, told, i, false, j);
    var t := Depart(c, told, i, false);
    assert DepartMessages(c, told, t, i, false, j) == DepartMessages(c, s, t, i, false, j);
    GetsThen(c, s, told, t, j, if j == i then [m] else [], DepartMessages(c, s, t, i, false, j));
  }

  /** What session `j` is sent when a message ends session `i`. */
  lemma DropGets(c: Config, s: Server, i: SessionId, m: ServerMessage, j: SessionId)
    requires Seats(s) && i in s.clients && j in s.clients
    ensures var t := Drop(c, s, i, m); Gets(c, s, t, j, (if j == i then [m] else []) + DepartMessages(c, s, t, i, false, j))
  {
    hide Seats, Gets, Depart, DeliverAll, Close, Stop, UserNames, RoomSummaries, Core;
    var told := Close(Deliver(c, s, i, m), i);
    ToldKept(c, s, i, m, j);
    DepartGets(c, told, i, false, j);
    var out := Depart(c, told, i, false);
    var t := Stop(out, i);
    var ms: seq<ServerMessage> := (if j == i then [m] else []) + DepartMessages(c, s, out, i, false, j);
    assert DepartMessages(c, told, out, i, false, j) == DepartMessages(c, s, out, i, false, j);
    GetsThen(c, s, told, out, j, if j == i then [m] else [], DepartMessages(c, s, out, i, false, j));
    GetsKnown(c, s, out, j, ms);
    DepartKnows(c, told, i);
    StoppedLists(c, out, i, s.clients[i].activeRoom);
    CloseQuiet(c, out, i, j);
    GetsThen(c, s, out, t, j, ms, []);
    assert ms + [] == ms;
  }

  lemma DepartKnows(c: Config, s: Server, i: SessionId)
    requires Seats(s) && i in s.clients
    ensures i in Depart(c, s, i, false).clients
  {
    NoRoomZero(s);
    hide Seats, Depart, Core, Unseat;
    DepartCore(c, s, i, false);
    UnseatFields(s, i);
    CoreKeys(Unseat(s, i), Depart(c, s, i, false));
  }

  lemma StoppedLists(c: Config, s: Server, i: SessionId, r: RoomId)
    requires i in s.clients
    ensures UserNames(c, Stop(s, i), r) == UserNames(c, s, r) && RoomSummaries(c, Stop(s, i)) == RoomSummaries(c, s)
  {
    var t := Stop(s, i);
    assert t.rooms == s.rooms && t.localRoomId == s.localRoomId;
    hide UserNames, Ordered;
    V.SameUsers(c, s, t, r);
    forall q ensures Summary(c, t, q) == Summary(c, s, q) {
    }
  }

  // ---- what rooms remember ----

  /** The recent texts after one more. */
  function Kept(c: Config, recent: seq<Text>, text: Text): seq<Text>
  {
    var all := recent + [text];
    if |all| > c.historyLimit then all[1..] else all
  }

  /** The recent texts of a room after some are said, in it or elsewhere. */
  function Recalled(c: Config, recent: seq<Text>, said: seq<Said>, r: RoomId): seq<Text>
  {
    if said == [] then recent
    else
      var n := |said| - 1;
      var before := Recalled(c, recent, said[..n], r);
      if said[n].room == r then Kept(c, before, said[n].text) else before
  }

  /** From `s` to `t` every room remembers these texts, and nothing else. */
  ghost predicate Remembers(c: Config, s: Server, t: Server, said: seq<Said>)
  {
    t.rooms.Keys == s.rooms.Keys && forall q :: q in s.rooms ==> t.rooms[q].recent == Recalled(c, s.rooms[q].recent, said, q)
  }

  lemma RecentKept(s: Server, t: Server)
    requires SameRecord(s, t)
    ensures t.rooms.Keys == s.rooms.Keys && forall q :: q in s.rooms ==> t.rooms[q].recent == s.rooms[q].recent
  {
    hide Unmanned;
    forall q | q in s.rooms ensures t.rooms[q].recent == s.rooms[q].recent { UnmannedKeeps(s.rooms[q], t.rooms[q]); }
  }

  lemma {:induction false} SayAllRemembers(c: Config, s: Server, said: seq<Said>)
    ensures Remembers(c, s, SayAll(c, s, said), said)
    decreases |said|
  {
    hide BroadcastRoom;
    if said != [] {
      var n := |said| - 1;
      var before := SayAll(c, s, said[..n]);
      SayAllRemembers(c, s, said[..n]);
      if said[n].room in before.rooms { SaidFields(c, before, said[n].room, said[n].text, said[n].nickname); }
      else { NothingSaid(c, before, said[n].room, said[n].text, said[n].nickname); }
    }
  }

  lemma NothingSaid(c: Config, s: Server, r: RoomId, text: Text, nick: Text)
    requires r !in s.rooms
    ensures BroadcastRoom(c, s, r, text, nick) == s
  {
  }

  lemma {:induction false} LeadsRemembers(c: Config, s: Server, t: Server, said: seq<Said>)
    requires Leads(c, s, t, said)
    ensures Remembers(c, s, t, said)
  {
    hide SayAll, Recalled, SameRecord;
    SayAllRemembers(c, s, said);
    RecentKept(SayAll(c, s, said), t);
  }
}
