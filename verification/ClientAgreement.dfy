/** Every action, and so every step, leaves every client's view in agreement with the server. */
module ClientAgreement {
  import opened Octets
  import opened Messages
  import opened ServerModel
  import opened ServerStructure
  import opened ServerActions
  import opened ServerSafety
  import opened ServerReach
  import opened ClientView

  // ---- announcements ----

  lemma ActiveOfCore(s: Server, t: Server, j: SessionId)
    requires Core(s) == Core(t) && j in s.clients
    ensures j in t.clients && t.clients[j].activeRoom == s.clients[j].activeRoom
    ensures s.rooms.Keys == t.rooms.Keys
  {
    hide Core;
    SameOfCore(s, t);
  }

  /** A text and then the users of room `r`. */
  lemma AnnounceView(c: Config, s: Server, r: RoomId, msg: Text, j: SessionId)
    requires Shaped(s) && GoodCodec(c) && j in s.clients && Tuned(c, s, j) && r in s.rooms
    requires s.clients[j].activeRoom == r || Fresh(c, s, j)
    ensures var t := BroadcastUsers(c, BroadcastRoom(c, s, r, msg, []), r);
            j in t.clients && Tuned(c, t, j) && Fresh(c, t, j) && Core(t) == Core(s)
  {
    hide Shaped, GoodCodec, Tuned, Fresh, Core, BroadcastRoom, BroadcastUsers;
    var mid := BroadcastRoom(c, s, r, msg, []);
    BroadcastRoomCore(c, s, r, msg, []);
    BroadcastUsersCore(c, mid, r);
    SoundlessSaid(c, s, r, msg, j);
    ShapedOfCore(s, mid);
    ActiveOfCore(s, mid, j);
    TunedShown(c, mid, r, j);
    FreshShown(c, mid, r, j);
  }

  lemma SoundlessSaid(c: Config, s: Server, r: RoomId, msg: Text, j: SessionId)
    requires Shaped(s) && j in s.clients && Tuned(c, s, j)
    ensures var t := BroadcastRoom(c, s, r, msg, []);
            j in t.clients && Tuned(c, t, j) && (Fresh(c, s, j) ==> Fresh(c, t, j))
  {
    hide Shaped, Tuned, Fresh, BroadcastRoom;
    TunedSaid(c, s, r, msg, [], j);
    if Fresh(c, s, j) { FreshSaid(c, s, r, msg, [], j); }
  }

  lemma EnterNoticeView(c: Config, s: Server, r: RoomId, nick: Text, name: Text, j: SessionId)
    requires Shaped(s) && GoodCodec(c) && j in s.clients && Tuned(c, s, j) && r in s.rooms
    requires s.clients[j].activeRoom == r || Fresh(c, s, j)
    ensures var t := EnterNotice(c, s, r, nick, name); j in t.clients && Tuned(c, t, j) && Fresh(c, t, j)
  {
    hide Shaped, GoodCodec, Tuned, Fresh, Core, BroadcastRoom, BroadcastUsers, BroadcastRoomLists;
    var msg := "[system] " + nick + " joined #" + name;
    AnnounceView(c, s, r, msg, j);
    var told := BroadcastUsers(c, BroadcastRoom(c, s, r, msg, []), r);
    ShapedOfCore(s, told);
    ListShown(c, told, j);
  }

  lemma LeaveNoticeView(c: Config, s: Server, r: RoomId, nick: Text, name: Text, j: SessionId)
    requires Shaped(s) && GoodCodec(c) && j in s.clients && Tuned(c, s, j) && r in s.rooms
    ensures var t := LeaveNotice(c, s, r, nick, name);
            j in t.clients && Tuned(c, t, j) && (s.clients[j].activeRoom == r || Fresh(c, s, j) ==> Fresh(c, t, j))
  {
    hide Shaped, GoodCodec, Tuned, Fresh, Core, BroadcastRoom, BroadcastUsers;
    var msg := "[system] " + nick + " left for #" + name;
    if s.clients[j].activeRoom == r || Fresh(c, s, j) {
      AnnounceView(c, s, r, msg, j);
    } else {
      SoundlessSaid(c, s, r, msg, j);
      BroadcastRoomCore(c, s, r, msg, []);
      ShapedOfCore(s, BroadcastRoom(c, s, r, msg, []));
      TunedShown(c, BroadcastRoom(c, s, r, msg, []), r, j);
    }
  }

  // ---- the sessions that stay where they are ----

  lemma ReseatMembers(s: Server, i: SessionId, target: RoomId, r: RoomId)
    requires i in s.clients && target in s.rooms && r in s.rooms && r != target && r != s.clients[i].activeRoom
    ensures r in Reseat(s, i, target).rooms && Reseat(s, i, target).rooms[r].members == s.rooms[r].members
  {
  }

  lemma UnseatMembers(s: Server, i: SessionId, r: RoomId)
    requires i in s.clients && r in s.rooms && r != s.clients[i].activeRoom
    ensures r in Unseat(s, i).rooms && Unseat(s, i).rooms[r].members == s.rooms[r].members
  {
  }

  /** A client whose room has the same users as before still shows them. */
  lemma FreshSame(c: Config, s: Server, t: Server, j: SessionId)
    requires j in s.clients && j in t.clients && Fresh(c, s, j)
    requires t.clients[j].activeRoom == s.clients[j].activeRoom && t.clients[j].outbox == s.clients[j].outbox
    requires s.clients[j].activeRoom != 0 ==> UserNames(c, t, s.clients[j].activeRoom) == UserNames(c, s, s.clients[j].activeRoom)
    ensures Fresh(c, t, j)
  {
  }

  lemma ReseatFresh(c: Config, s: Server, i: SessionId, target: RoomId, j: SessionId)
    requires i in s.clients && target in s.rooms && j in s.clients && j != i && Fresh(c, s, j)
    requires s.clients[j].activeRoom !in {target, s.clients[i].activeRoom} - {0}
    requires s.clients[j].activeRoom == 0 || s.clients[j].activeRoom in s.rooms
    ensures Fresh(c, Reseat(s, i, target), j)
  {
    var t, r := Reseat(s, i, target), s.clients[j].activeRoom;
    hide Fresh, Reseat, UserNames;
    ReseatFields(s, i, target);
    if r != 0 {
      ReseatMembers(s, i, target, r);
      SameUsers(c, s, t, r);
    }
    FreshSame(c, s, t, j);
  }

  lemma ReseatOther(c: Config, s: Server, i: SessionId, target: RoomId, j: SessionId)
    requires Shaped(s) && i in s.clients && target in s.rooms && j in s.clients && j != i
    requires Tuned(c, s, j) && Fresh(c, s, j)
    ensures var t := Reseat(s, i, target);
      && j in t.clients && t.clients[j] == s.clients[j] && Tuned(c, t, j)
      && (s.clients[j].activeRoom !in {target, s.clients[i].activeRoom} - {0} ==> Fresh(c, t, j))
  {
    assert s.clients[j].activeRoom == 0 || s.clients[j].activeRoom in s.rooms;
    hide Shaped, Tuned, Fresh, Reseat;
    ReseatFields(s, i, target);
    TunedSame(c, s, Reseat(s, i, target), j);
    if s.clients[j].activeRoom !in {target, s.clients[i].activeRoom} - {0} { ReseatFresh(c, s, i, target, j); }
  }

  lemma UnseatOther(c: Config, s: Server, i: SessionId, j: SessionId)
    requires Shaped(s) && i in s.clients && j in s.clients && j != i
    requires Tuned(c, s, j) && Fresh(c, s, j)
    ensures var t := Unseat(s, i);
      && j in t.clients && t.clients[j] == s.clients[j] && Tuned(c, t, j)
      && (s.clients[j].activeRoom !in {s.clients[i].activeRoom} - {0} ==> Fresh(c, t, j))
  {
    var t, r := Unseat(s, i), s.clients[j].activeRoom;
    assert r != 0 ==> r in s.rooms;
    hide Shaped, Tuned, Fresh, Unseat, UserNames;
    UnseatFields(s, i);
    TunedSame(c, s, t, j);
    if r == 0 {
      FreshSame(c, s, t, j);
    } else if r != s.clients[i].activeRoom {
      UnseatMembers(s, i, r);
      SameUsers(c, s, t, r);
      FreshSame(c, s, t, j);
    }
  }

  lemma {:induction false} DeliverHistoryOther(c: Config, s: Server, i: SessionId, r: RoomId, history: seq<Text>, j: SessionId)
    requires j in s.clients && j != i
    ensures var t := DeliverHistory(c, s, i, r, history);
            j in t.clients && t.clients[j] == s.clients[j] && t.rooms == s.rooms
    decreases |history|
  {
    hide DeliverAll;
    if history != [] {
      OutDelivered(c, s, {i}, RoomText(r, history[0]), j);
      DeliverHistoryOther(c, Deliver(c, s, i, RoomText(r, history[0])), i, r, history[1..], j);
    }
  }

  lemma {:induction false} ReplayOther(c: Config, s: Server, i: SessionId, r: RoomId, name: Text, history: seq<Text>, j: SessionId)
    requires j in s.clients && j != i
    ensures var t := Replay(c, s, i, r, name, history);
            j in t.clients && t.clients[j] == s.clients[j] && t.rooms == s.rooms
  {
    hide DeliverAll, DeliverHistory;
    if history != [] {
      var head := DirectText("[system] Recent messages in #" + name + ":");
      OutDelivered(c, s, {i}, head, j);
      DeliverHistoryOther(c, Deliver(c, s, i, head), i, r, history, j);
    }
  }

  /** What the mover is sent changes nothing for another session. */
  lemma {:induction false} IntroOther(c: Config, s: Server, i: SessionId, m: ServerMessage, r: RoomId, name: Text, history: seq<Text>, j: SessionId)
    requires j in s.clients && j != i && Tuned(c, s, j)
    ensures var t := Replay(c, Deliver(c, s, i, m), i, r, name, history);
            j in t.clients && Tuned(c, t, j) && (Fresh(c, s, j) ==> Fresh(c, t, j)) && Core(t) == Core(s)
  {
    hide DeliverAll, Replay, Tuned, Fresh, Core, UserNames;
    var told := Deliver(c, s, i, m);
    var t := Replay(c, told, i, r, name, history);
    OutDelivered(c, s, {i}, m, j);
    ReplayOther(c, told, i, r, name, history, j);
    DeliverAllCore(c, s, {i}, m);
    ReplayCore(c, told, i, r, name, history);
    TunedSame(c, s, t, j);
    if Fresh(c, s, j) {
      UserNamesOfCore(c, s, t, s.clients[j].activeRoom);
      FreshSame(c, s, t, j);
    }
  }

  ghost function Farewell(c: Config, s: Server, announce: bool, prev: RoomId, nick: Text, name: Text): Server
  {
    if announce && prev != 0 then LeaveNotice(c, s, prev, nick, name) else s
  }

  lemma FarewellView(c: Config, s: Server, announce: bool, prev: RoomId, nick: Text, name: Text, j: SessionId)
    requires Shaped(s) && GoodCodec(c) && j in s.clients && Tuned(c, s, j)
    requires prev == 0 || (prev in s.rooms && announce)
    ensures var t := Farewell(c, s, announce, prev, nick, name);
      && j in t.clients && Tuned(c, t, j) && Core(t) == Core(s)
      && (Fresh(c, s, j) || (s.clients[j].activeRoom == prev != 0) ==> Fresh(c, t, j))
  {
    hide Shaped, GoodCodec, Tuned, Fresh, Core, LeaveNotice;
    if announce && prev != 0 {
      LeaveNoticeView(c, s, prev, nick, name, j);
      LeaveNoticeCore(c, s, prev, nick, name);
    }
  }

  lemma MoveIs(c: Config, s: Server, i: SessionId, target: RoomId, announce: bool)
    requires target in s.rooms
    ensures var prev, nick, room := Of(s, i).activeRoom, Of(s, i).nickname, s.rooms[target];
      var told := Farewell(c, Reseat(s, i, target), announce, prev, nick, room.name);
      MoveSession(c, s, i, target, announce) ==
        EnterNotice(c, Replay(c, Deliver(c, told, i, RoomJoined(target, room.name, room.topic)), i, target, room.name, room.recent),
          target, nick, room.name)
  {
    hide LeaveNotice, EnterNotice, Replay, DeliverAll, Reseat;
  }

  lemma ReseatShaped(s: Server, i: SessionId, target: RoomId)
    requires Shaped(s) && i in s.clients && target in s.rooms && s.clients[i].nickname != []
    ensures Shaped(Reseat(s, i, target))
  {
    hide Seats, Handles, RoomTable, SameNicknames, SameTable, Reseat;
    ReseatSame(s, i, target);
    ReseatSeats(s, i, target);
    ReseatHandles(s, i, target);
    TableKept(s, Reseat(s, i, target));
  }

  /** From the mover's new seat to the point where it has been introduced. */
  lemma {:induction false} ShownOther(c: Config, seated: Server, i: SessionId, announce: bool, prev: RoomId, nick: Text, m: ServerMessage,
                   target: RoomId, name: Text, history: seq<Text>, j: SessionId)
    requires Shaped(seated) && GoodCodec(c) && j in seated.clients && j != i && Tuned(c, seated, j)
    requires prev == 0 || (prev in seated.rooms && announce)
    requires target in seated.rooms
    requires seated.clients[j].activeRoom !in {target, prev} - {0} ==> Fresh(c, seated, j)
    ensures var t := Replay(c, Deliver(c, Farewell(c, seated, announce, prev, nick, name), i, m), i, target, name, history);
      && Shaped(t) && j in t.clients && Tuned(c, t, j) && target in t.rooms
      && (t.clients[j].activeRoom == target || Fresh(c, t, j))
  {
    hide Shaped, GoodCodec, Tuned, Fresh, Core, Farewell, Replay, DeliverAll;
    FarewellView(c, seated, announce, prev, nick, name, j);
    var told := Farewell(c, seated, announce, prev, nick, name);
    ActiveOfCore(seated, told, j);
    IntroOther(c, told, i, m, target, name, history, j);
    var shown := Replay(c, Deliver(c, told, i, m), i, target, name, history);
    ShapedOfCore(seated, shown);
    ActiveOfCore(seated, shown, j);
  }

  lemma MoveOther(c: Config, s: Server, i: SessionId, target: RoomId, announce: bool, j: SessionId)
    requires Shaped(s) && GoodCodec(c) && i in s.clients && s.clients[i].nickname != [] && target in s.rooms
    requires announce || s.clients[i].activeRoom == 0
    requires j in s.clients && j != i && Tuned(c, s, j) && Fresh(c, s, j)
    ensures var t := MoveSession(c, s, i, target, announce); j in t.clients && Tuned(c, t, j) && Fresh(c, t, j)
  {
    var prev, nick, room := s.clients[i].activeRoom, s.clients[i].nickname, s.rooms[target];
    assert prev == 0 || prev in s.rooms;
    hide Shaped, GoodCodec, Tuned, Fresh, Reseat, Farewell, Replay, DeliverAll, EnterNotice, MoveSession;
    MoveIs(c, s, i, target, announce);
    ReseatFields(s, i, target);
    ReseatShaped(s, i, target);
    ReseatOther(c, s, i, target, j);
    var seated, joined := Reseat(s, i, target), RoomJoined(target, room.name, room.topic);
    ShownOther(c, seated, i, announce, prev, nick, joined, target, room.name, room.recent, j);
    var told := Farewell(c, seated, announce, prev, nick, room.name);
    EnterNoticeView(c, Replay(c, Deliver(c, told, i, joined), i, target, room.name, room.recent), target, nick, room.name, j);
  }

  // ---- the session that moves ----

  /** Everything but the room. */
  ghost predicate Attentive(c: Config, s: Server, i: SessionId)
  {
    AllClean(c, Out(s, i)) && Out(s, i) != [] && Follows(Sees(s, i))
  }

  lemma SaidToOthers(c: Config, s: Server, r: RoomId, msg: Text, i: SessionId)
    requires r in s.rooms && i in s.clients && i !in s.rooms[r].members
    ensures var t := BroadcastRoom(c, s, r, msg, []); i in t.clients && t.clients[i] == s.clients[i]
    ensures BroadcastRoom(c, s, r, msg, []).rooms.Keys == s.rooms.Keys
    ensures r in BroadcastRoom(c, s, r, msg, []).rooms && BroadcastRoom(c, s, r, msg, []).rooms[r].members == s.rooms[r].members
  {
  }

  lemma ShownToOthers(c: Config, s: Server, r: RoomId, i: SessionId)
    requires r in s.rooms && i in s.clients && i !in s.rooms[r].members
    ensures var t := BroadcastUsers(c, s, r); i in t.clients && t.clients[i] == s.clients[i]
  {
    hide UserNames;
  }

  lemma FarewellToOthers(c: Config, s: Server, announce: bool, prev: RoomId, nick: Text, name: Text, i: SessionId)
    requires i in s.clients && (prev in s.rooms ==> i !in s.rooms[prev].members)
    ensures var t := Farewell(c, s, announce, prev, nick, name); i in t.clients && t.clients[i] == s.clients[i]
  {
    hide BroadcastRoom, BroadcastUsers;
    if announce && prev != 0 {
      var msg := "[system] " + nick + " left for #" + name;
      if prev in s.rooms {
        SaidToOthers(c, s, prev, msg, i);
        ShownToOthers(c, BroadcastRoom(c, s, prev, msg, []), prev, i);
      } else {
        NoRoom(c, s, prev, msg);
      }
    }
  }

  lemma NoRoom(c: Config, s: Server, r: RoomId, msg: Text)
    requires r !in s.rooms
    ensures BroadcastRoom(c, s, r, msg, []) == s && BroadcastUsers(c, s, r) == s
  {
  }

  lemma JoinedConsumed(v: View, r: RoomId, room: Room)
    requires Follows(v)
    ensures Follows(Consume(v, RoomJoined(r, room.name, room.topic)))
    ensures RoomAgrees(Consume(v, RoomJoined(r, room.name, room.topic)), r, room)
  {
  }

  lemma Joined(c: Config, s: Server, i: SessionId, r: RoomId)
    requires Shaped(s) && GoodCodec(c) && i in s.clients && s.clients[i].activeRoom == r && Attentive(c, s, i)
    requires r in s.rooms
    ensures var t := Deliver(c, s, i, RoomJoined(r, s.rooms[r].name, s.rooms[r].topic));
            i in t.clients && Tuned(c, t, i) && t.rooms == s.rooms
  {
    var m := RoomJoined(r, s.rooms[r].name, s.rooms[r].topic);
    assert c.encodes(m) && Clean(m);
    hide Shaped, GoodCodec, DeliverAll, Posted, ViewOf, Consume, Clean, Follows;
    OutDelivered(c, s, {i}, m, i);
    PostedKeeps(s.clients[i], m);
    ViewOfPosted(s.clients[i], m);
    JoinedConsumed(ViewOf(s.clients[i].outbox), r, s.rooms[r]);
  }

  lemma {:induction false} DeliverHistoryTuned(c: Config, s: Server, i: SessionId, r: RoomId, history: seq<Text>)
    requires i in s.clients && Tuned(c, s, i) && IsAwake(s, i) && s.clients[i].activeRoom == r != 0
    ensures var t := DeliverHistory(c, s, i, r, history); i in t.clients && Tuned(c, t, i)
    decreases |history|
  {
    hide Tuned, DeliverAll, Posted;
    if history != [] {
      var m := RoomText(r, history[0]);
      TunedDelivered(c, s, {i}, m, i);
      OutDelivered(c, s, {i}, m, i);
      PostedKeeps(s.clients[i], m);
      DeliverHistoryTuned(c, Deliver(c, s, i, m), i, r, history[1..]);
    }
  }

  lemma {:induction false} ReplayTuned(c: Config, s: Server, i: SessionId, r: RoomId, name: Text, history: seq<Text>)
    requires i in s.clients && Tuned(c, s, i) && IsAwake(s, i) && s.clients[i].activeRoom == r != 0
    ensures var t := Replay(c, s, i, r, name, history); i in t.clients && Tuned(c, t, i)
  {
    hide Tuned, DeliverAll, Posted, DeliverHistory;
    if history != [] {
      var m := DirectText("[system] Recent messages in #" + name + ":");
      TunedDelivered(c, s, {i}, m, i);
      OutDelivered(c, s, {i}, m, i);
      PostedKeeps(s.clients[i], m);
      DeliverHistoryTuned(c, Deliver(c, s, i, m), i, r, history);
    }
  }

  lemma Vacated(s: Server, i: SessionId, target: RoomId)
    requires i in s.clients && target in s.rooms && s.clients[i].activeRoom != target
    ensures var prev, t := s.clients[i].activeRoom, Reseat(s, i, target);
            prev in t.rooms ==> i !in t.rooms[prev].members
  {
  }

  lemma TunedIsAttentive(c: Config, s: Server, i: SessionId)
    requires i in s.clients && Tuned(c, s, i) && s.clients[i].nickname != []
    ensures Attentive(c, s, i)
  {
  }

  lemma NamesOfCore(s: Server, t: Server, r: RoomId)
    requires Core(s) == Core(t) && r in s.rooms
    ensures r in t.rooms && t.rooms[r].name == s.rooms[r].name && t.rooms[r].topic == s.rooms[r].topic
  {
    hide Core;
    SameOfCore(s, t);
  }

  lemma MoveMover(c: Config, s: Server, i: SessionId, target: RoomId, announce: bool)
    requires Shaped(s) && GoodCodec(c) && i in s.clients && s.clients[i].nickname != [] && target in s.rooms
    requires s.clients[i].activeRoom != target && Tuned(c, s, i)
    ensures var t := MoveSession(c, s, i, target, announce); i in t.clients && Tuned(c, t, i) && Fresh(c, t, i)
  {
    var prev, nick, room := s.clients[i].activeRoom, s.clients[i].nickname, s.rooms[target];
    var seated := Reseat(s, i, target);
    assert target != 0;
    TunedIsAttentive(c, s, i);
    ReseatFields(s, i, target);
    Vacated(s, i, target);
    MoveIs(c, s, i, target, announce);
    ReseatShaped(s, i, target);
    hide Shaped, GoodCodec, Tuned, Fresh, Core, Reseat, Farewell, Replay, DeliverAll, EnterNotice, AllClean, Follows, ViewOf;
    FarewellToOthers(c, seated, announce, prev, nick, room.name, i);
    FarewellCore(c, seated, announce, prev, nick, room.name);
    var told := Farewell(c, seated, announce, prev, nick, room.name);
    ShapedOfCore(seated, told);
    NamesOfCore(seated, told, target);
    Joined(c, told, i, target);
    var joined := RoomJoined(target, room.name, room.topic);
    var entered := Deliver(c, told, i, joined);
    DeliverBare(c, told, i, joined);
    DeliverAllCore(c, told, {i}, joined);
    ReplayTuned(c, entered, i, target, room.name, room.recent);
    ReplayCore(c, entered, i, target, room.name, room.recent);
    var shown := Replay(c, entered, i, target, room.name, room.recent);
    ShapedOfCore(seated, shown);
    ActiveOfCore(seated, shown, i);
    EnterNoticeView(c, shown, target, nick, room.name, i);
  }

  lemma FarewellCore(c: Config, s: Server, announce: bool, prev: RoomId, nick: Text, name: Text)
    ensures Core(Farewell(c, s, announce, prev, nick, name)) == Core(s)
  {
    hide Core, LeaveNotice;
    LeaveNoticeCore(c, s, prev, nick, name);
  }

  // ---- departure ----

  ghost function Departed(c: Config, out: Server, prev: RoomId, say: bool, nick: Text): Server
  {
    var told := if say then BroadcastRoom(c, out, prev, "[system] " + nick + " left", []) else out;
    BroadcastRoomLists(c, BroadcastUsers(c, told, prev))
  }

  lemma DepartIs(c: Config, s: Server, i: SessionId, announce: bool)
    requires Seats(s) && i in s.clients
    ensures var prev, nick := s.clients[i].activeRoom, s.clients[i].nickname;
            Depart(c, s, i, announce) ==
              if prev == 0 then Unseat(s, i) else Departed(c, Unseat(s, i), prev, announce && nick != [], nick)
  {
    hide BroadcastRoom, BroadcastUsers, BroadcastRoomLists;
    var prev := s.clients[i].activeRoom;
    if prev != 0 { assert i in s.rooms[prev].members; }
  }

  lemma DepartedView(c: Config, s: Server, prev: RoomId, say: bool, nick: Text, j: SessionId)
    requires Shaped(s) && GoodCodec(c) && j in s.clients && Tuned(c, s, j) && prev in s.rooms
    requires s.clients[j].activeRoom == prev || Fresh(c, s, j)
    ensures var t := Departed(c, s, prev, say, nick); j in t.clients && Tuned(c, t, j) && Fresh(c, t, j)
  {
    hide Shaped, GoodCodec, Tuned, Fresh, Core, BroadcastRoom, BroadcastUsers, BroadcastRoomLists;
    var msg := "[system] " + nick + " left";
    if say {
      AnnounceView(c, s, prev, msg, j);
      var told := BroadcastUsers(c, BroadcastRoom(c, s, prev, msg, []), prev);
      ShapedOfCore(s, told);
      ListShown(c, told, j);
    } else {
      TunedShown(c, s, prev, j);
      FreshShown(c, s, prev, j);
      BroadcastUsersCore(c, s, prev);
      ShapedOfCore(s, BroadcastUsers(c, s, prev));
      ListShown(c, BroadcastUsers(c, s, prev), j);
    }
  }

  lemma UnseatShaped(s: Server, i: SessionId)
    requires Shaped(s) && i in s.clients
    ensures Shaped(Unseat(s, i))
  {
    hide Seats, Handles, RoomTable, SameHandles, SameNicknames, SameTable, Unseat;
    UnseatSame(s, i);
    UnseatSeats(s, i);
    HandlesKept(s, Unseat(s, i));
    TableKept(s, Unseat(s, i));
  }

  lemma UnseatSelf(c: Config, s: Server, i: SessionId)
    requires i in s.clients && Tuned(c, s, i)
    ensures i in Unseat(s, i).clients && Tuned(c, Unseat(s, i), i) && Fresh(c, Unseat(s, i), i)
  {
    UnseatFields(s, i);
    hide Unseat, AllClean, ViewOf, UserNames;
  }

  lemma DepartView(c: Config, s: Server, i: SessionId, announce: bool, j: SessionId)
    requires Shaped(s) && GoodCodec(c) && i in s.clients
    requires j in s.clients && Tuned(c, s, j) && Fresh(c, s, j)
    ensures var t := Depart(c, s, i, announce); j in t.clients && Tuned(c, t, j) && Fresh(c, t, j)
  {
    var prev, nick := s.clients[i].activeRoom, s.clients[i].nickname;
    assert prev != 0 ==> prev in s.rooms;
    DepartIs(c, s, i, announce);
    UnseatFields(s, i);
    hide Shaped, GoodCodec, Tuned, Fresh, Departed, Unseat, Depart;
    UnseatShaped(s, i);
    if j == i { UnseatSelf(c, s, i); } else { UnseatOther(c, s, i, j); }
    if prev != 0 { DepartedView(c, Unseat(s, i), prev, announce && nick != [], nick, j); }
  }
}
