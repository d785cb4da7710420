/** What a client makes of the messages it reads: its active room, the room's name and topic, and
    the users shown. Every session's client agrees with the server. */
module ClientView {
  import opened Octets
  import opened Messages
  import opened Ordering
  import opened ServerModel
  import opened ServerStructure
  import opened ServerActions
  import opened ServerSafety
  import opened ServerReach

  /** `reading` until a message other than `Hello` comes first; `discarded` once a room's text has
      been filtered out because the client had another room active. */
  datatype View = View(
    reading: bool, negotiated: bool, room: RoomId, name: Text, topic: Text, users: seq<Text>, discarded: bool)

  const BLANK := View(true, false, 0, [], [], [], false)

  function Consume(v: View, m: ServerMessage): View
  {
    if !v.reading then v
    else if m.Hello? then v.(negotiated := m.version == VERSION)
    else if !v.negotiated then v.(reading := false)
    else
      match m
      case RoomJoined(id, name, topic) => v.(room := id, name := name, topic := topic, users := [])
      case RoomTopic(id, topic) => if id == v.room then v.(topic := topic) else v
      case UserList(id, names) => if id == v.room then v.(users := names) else v
      case RoomText(id, _) => if id == v.room then v else v.(discarded := true)
      case _ => v
  }

  /** The view after consuming every message handed to the session's write queue. */
  function ViewOf(messages: seq<ServerMessage>): View
  {
    if messages == [] then BLANK
    else Consume(ViewOf(messages[..|messages| - 1]), messages[|messages| - 1])
  }

  lemma ViewOfPosted(x: Session, m: ServerMessage)
    ensures ViewOf(Posted(x, m).outbox) == Consume(ViewOf(x.outbox), m)
  {
    var all := x.outbox + [m];
    assert all[..|all| - 1] == x.outbox;
  }

  /** What the codec promises the server: the room announcements it makes always have frames, and a
      kick of a nameless session has none. */
  ghost predicate GoodCodec(c: Config)
  {
    && c.encodes(ServerMessage.Hello(VERSION))
    && (forall id, name, topic ::
          1 <= id <= MAX_U64 && IsValidRoomName(name) && IsValidRoomTopic(topic) ==>
            c.encodes(RoomJoined(id, name, topic)) && c.encodes(RoomTopic(id, topic)))
    && (forall reason :: !c.encodes(Kick([], reason)))
    && (c.localNickname == [] || IsValidNickname(c.localNickname))
  }

  // ---- agreement ----

  function Out(s: Server, j: SessionId): seq<ServerMessage> { Of(s, j).outbox }

  function Sees(s: Server, j: SessionId): View { ViewOf(Out(s, j)) }

  ghost predicate AllClean(c: Config, out: seq<ServerMessage>)
  {
    forall k :: 0 <= k < |out| ==> c.encodes(out[k]) && Clean(out[k])
  }

  predicate Follows(v: View) { v.reading && v.negotiated && !v.discarded }

  predicate RoomAgrees(v: View, r: RoomId, room: Room) { v.room == r && v.name == room.name && v.topic == room.topic }

  /** Session `j`'s client has discarded nothing, and has the session's room, name and topic. */
  ghost predicate Tuned(c: Config, s: Server, j: SessionId)
  {
    var out, v, r := Out(s, j), Sees(s, j), Of(s, j).activeRoom;
    && AllClean(c, out)
    && (Of(s, j).phase == Reading || Of(s, j).nickname != [] || r != 0 ==> out != [])
    && (out != [] ==> Follows(v))
    && (r != 0 ==> r in s.rooms && RoomAgrees(v, r, s.rooms[r]))
  }

  /** It shows the room's users, unless the list has no frame. */
  ghost predicate Fresh(c: Config, s: Server, j: SessionId)
  {
    var r := Of(s, j).activeRoom;
    r != 0 && c.encodes(UserList(r, UserNames(c, s, r))) ==> Sees(s, j).users == UserNames(c, s, r)
  }

  ghost predicate InView(c: Config, s: Server)
  {
    forall j :: j in s.clients ==> Tuned(c, s, j) && Fresh(c, s, j)
  }

  // ---- one delivery ----

  /** A message that leaves the room, name and topic of a client of room `r` with `topic`. */
  predicate Harmless(m: ServerMessage, r: RoomId, topic: Text)
  {
    match m
    case Hello(_) => false
    case RoomJoined(_, _, _) => false
    case RoomTopic(id, t) => id == r != 0 && t == topic
    case RoomText(id, _) => id == r != 0
    case _ => true
  }

  lemma HarmlessConsumed(v: View, m: ServerMessage, r: RoomId, room: Room)
    requires Follows(v) && Harmless(m, r, room.topic) && (r != 0 ==> RoomAgrees(v, r, room))
    ensures Follows(Consume(v, m)) && (r != 0 ==> RoomAgrees(Consume(v, m), r, room))
  {
  }

  lemma OutDelivered(c: Config, s: Server, to: set<SessionId>, m: ServerMessage, j: SessionId)
    requires j in s.clients
    ensures var t := DeliverAll(c, s, to, m);
      && j in t.clients && t.rooms == s.rooms
      && t.clients[j] == if j in to && c.encodes(m) then Posted(s.clients[j], m) else s.clients[j]
  {
  }

  lemma PostedKeeps(x: Session, m: ServerMessage)
    ensures var y := Posted(x, m);
      && y.nickname == x.nickname && y.phase == x.phase && y.activeRoom == x.activeRoom
      && y.outbox == x.outbox + [m]
  {
  }

  lemma TunedDelivered(c: Config, s: Server, to: set<SessionId>, m: ServerMessage, j: SessionId)
    requires j in s.clients && Tuned(c, s, j)
    requires j in to ==> Clean(m) && IsAwake(s, j) && Harmless(m, Of(s, j).activeRoom, RoomOf(s, Of(s, j).activeRoom).topic)
    ensures j in DeliverAll(c, s, to, m).clients && Tuned(c, DeliverAll(c, s, to, m), j)
  {
    hide DeliverAll, Posted, Consume, ViewOf, Clean, Harmless;
    OutDelivered(c, s, to, m, j);
    if j in to && c.encodes(m) {
      var x, r := s.clients[j], s.clients[j].activeRoom;
      PostedKeeps(x, m);
      ViewOfPosted(x, m);
      HarmlessConsumed(ViewOf(x.outbox), m, r, RoomOf(s, r));
    }
  }

  lemma UserNamesOfCore(c: Config, s: Server, t: Server, r: RoomId)
    requires Core(s) == Core(t)
    ensures UserNames(c, s, r) == UserNames(c, t, r)
  {
    SameOfCore(s, t);
    SameUsers(c, s, t, r);
  }

  lemma {:induction false} NicknamesSame(s: Server, t: Server, ids: seq<SessionId>)
    requires forall i :: i in ids ==> Of(s, i).nickname == Of(t, i).nickname
    ensures Nicknames(s, ids) == Nicknames(t, ids)
  {
    if ids != [] { NicknamesSame(s, t, ids[1..]); }
  }

  lemma SameUsers(c: Config, s: Server, t: Server, r: RoomId)
    requires s.clients.Keys == t.clients.Keys && (r in s.rooms <==> r in t.rooms)
    requires RoomOf(s, r).members == RoomOf(t, r).members && (HasHost(c, s, r) <==> HasHost(c, t, r))
    requires forall i :: i in s.clients && i in RoomOf(s, r).members ==> s.clients[i].nickname == t.clients[i].nickname
    ensures UserNames(c, s, r) == UserNames(c, t, r)
  {
    hide Sort, Ordered;
    var ids := Ordered(RoomOf(s, r).members);
    forall i | i in ids ensures Of(s, i).nickname == Of(t, i).nickname {
    }
    NicknamesSame(s, t, ids);
  }

  lemma FreshDelivered(c: Config, s: Server, to: set<SessionId>, m: ServerMessage, j: SessionId)
    requires j in s.clients && Fresh(c, s, j)
    requires j in to ==> !m.RoomJoined? && (m.UserList? && Of(s, j).activeRoom == m.roomId ==> m.nicknames == UserNames(c, s, m.roomId))
    requires j in to && m.UserList? && Of(s, j).activeRoom != 0 ==> Sees(s, j).room == Of(s, j).activeRoom
    ensures Fresh(c, DeliverAll(c, s, to, m), j)
  {
    DeliverAllCore(c, s, to, m);
    UserNamesOfCore(c, s, DeliverAll(c, s, to, m), Of(s, j).activeRoom);
    OutDelivered(c, s, to, m, j);
    PostedKeeps(s.clients[j], m);
    ViewOfPosted(s.clients[j], m);
    hide DeliverAll, Posted, ViewOf, UserNames, Core;
  }

  // ---- broadcasts ----

  lemma MemberActive(c: Config, s: Server, r: RoomId, j: SessionId)
    requires Seats(s) && r in s.rooms && j in s.rooms[r].members
    ensures j in s.clients && s.clients[j].activeRoom == r != 0
  {
  }

  lemma RecordedSame(c: Config, s: Server, r: RoomId, msg: Text, nick: Text, j: SessionId)
    requires r in s.rooms && j in s.clients
    ensures var t := BroadcastRoom(c, s, r, msg, nick);
      && j in t.clients && t.rooms.Keys == s.rooms.Keys
      && t.clients[j] == DeliverAll(c, s, s.rooms[r].members, RoomText(r, msg)).clients[j]
      && forall q :: q in s.rooms ==> t.rooms[q].name == s.rooms[q].name && t.rooms[q].topic == s.rooms[q].topic
  {
  }

  lemma TunedSame(c: Config, s: Server, t: Server, j: SessionId)
    requires j in s.clients && j in t.clients && t.clients[j] == s.clients[j] && Tuned(c, s, j)
    requires forall q :: q in s.rooms ==> q in t.rooms && t.rooms[q].name == s.rooms[q].name && t.rooms[q].topic == s.rooms[q].topic
    ensures Tuned(c, t, j)
  {
    hide ViewOf, AllClean;
  }

  lemma TunedSaid(c: Config, s: Server, r: RoomId, msg: Text, nick: Text, j: SessionId)
    requires Shaped(s) && j in s.clients && Tuned(c, s, j)
    ensures var t := BroadcastRoom(c, s, r, msg, nick); j in t.clients && Tuned(c, t, j)
  {
    if r in s.rooms {
      if j in s.rooms[r].members {
        MemberActive(c, s, r, j);
        PendingValid(c, s, j);
      }
      var members, m := s.rooms[r].members, RoomText(r, msg);
      hide Shaped, DeliverAll, BroadcastRoom, Tuned;
      TunedDelivered(c, s, members, m, j);
      RecordedSame(c, s, r, msg, nick, j);
      OutDelivered(c, s, members, m, j);
      TunedSame(c, DeliverAll(c, s, members, m), BroadcastRoom(c, s, r, msg, nick), j);
    }
  }

  lemma FreshSaid(c: Config, s: Server, r: RoomId, msg: Text, nick: Text, j: SessionId)
    requires j in s.clients && Fresh(c, s, j)
    ensures Fresh(c, BroadcastRoom(c, s, r, msg, nick), j)
  {
    if r in s.rooms {
      var members, m := s.rooms[r].members, RoomText(r, msg);
      var mid, t := DeliverAll(c, s, members, m), BroadcastRoom(c, s, r, msg, nick);
      FreshDelivered(c, s, members, m, j);
      RecordedSame(c, s, r, msg, nick, j);
      OutDelivered(c, s, members, m, j);
      BroadcastRoomCore(c, s, r, msg, nick);
      DeliverAllCore(c, s, members, m);
      UserNamesOfCore(c, mid, t, Of(t, j).activeRoom);
      hide DeliverAll, BroadcastRoom, UserNames, ViewOf, Core;
    }
  }

  lemma UserListClean(c: Config, s: Server, r: RoomId)
    requires Shaped(s) && GoodCodec(c)
    ensures Clean(UserList(r, UserNames(c, s, r)))
  {
    var names := Nicknames(s, Ordered(RoomOf(s, r).members)) + if HasHost(c, s, r) then [c.localNickname] else [];
    hide IsValidNickname, Sort, Ordered, DistinctNames, RoomTable;
    NicknamesValid(c, s, Ordered(RoomOf(s, r).members));
    SortValid(names);
  }

  lemma {:induction false} NicknamesValid(c: Config, s: Server, ids: seq<SessionId>)
    requires Handles(s)
    ensures forall k :: 0 <= k < |Nicknames(s, ids)| ==> IsValidNickname(Nicknames(s, ids)[k])
  {
    hide IsValidNickname;
    if ids != [] { NicknamesValid(c, s, ids[1..]); }
  }

  lemma {:induction false} SortValid(names: seq<Text>)
    requires forall k :: 0 <= k < |names| ==> IsValidNickname(names[k])
    ensures forall k :: 0 <= k < |Sort(names)| ==> IsValidNickname(Sort(names)[k])
  {
    hide IsValidNickname, Sort;
    SortSorts(names);
    forall k | 0 <= k < |Sort(names)| ensures IsValidNickname(Sort(names)[k]) {
      assert Sort(names)[k] in multiset(Sort(names));
      assert Sort(names)[k] in multiset(names);
    }
  }

  lemma TunedShown(c: Config, s: Server, r: RoomId, j: SessionId)
    requires Shaped(s) && GoodCodec(c) && j in s.clients && Tuned(c, s, j)
    ensures var t := BroadcastUsers(c, s, r); j in t.clients && Tuned(c, t, j)
  {
    if r in s.rooms {
      UserListClean(c, s, r);
      if j in s.rooms[r].members {
        MemberActive(c, s, r, j);
        PendingValid(c, s, j);
      }
      hide Shaped, GoodCodec, DeliverAll, Tuned, UserNames, Clean;
      TunedDelivered(c, s, s.rooms[r].members, UserList(r, UserNames(c, s, r)), j);
    }
  }

  lemma {:induction false} ShownConsumed(v: View, r: RoomId, names: seq<Text>)
    requires Follows(v) && v.room == r
    ensures Consume(v, UserList(r, names)).users == names
  {
  }

  lemma MembersShown(c: Config, s: Server, r: RoomId, j: SessionId)
    requires Shaped(s) && j in s.clients && Tuned(c, s, j) && s.clients[j].activeRoom == r != 0
    ensures Fresh(c, BroadcastUsers(c, s, r), j)
  {
    var x, m, members := s.clients[j], UserList(r, UserNames(c, s, r)), s.rooms[r].members;
    assert j in members && RoomAgrees(Sees(s, j), r, s.rooms[r]) && Follows(Sees(s, j));
    hide Shaped, DeliverAll, Posted, ViewOf, UserNames, Core, AllClean, Consume;
    BroadcastUsersCore(c, s, r);
    OutDelivered(c, s, members, m, j);
    PostedKeeps(x, m);
    ViewOfPosted(x, m);
    ShownConsumed(ViewOf(x.outbox), r, UserNames(c, s, r));
    UserNamesOfCore(c, s, BroadcastUsers(c, s, r), r);
  }

  /** After a broadcast of the users of `r`, every client in `r` shows them, and the others are as
      before. */
  lemma FreshShown(c: Config, s: Server, r: RoomId, j: SessionId)
    requires Shaped(s) && j in s.clients && Tuned(c, s, j) && r in s.rooms
    requires s.clients[j].activeRoom == r || Fresh(c, s, j)
    ensures Fresh(c, BroadcastUsers(c, s, r), j)
  {
    assert r != 0;
    assert j in s.rooms[r].members ==> s.clients[j].activeRoom == r;
    hide Shaped, Tuned, Fresh, DeliverAll, UserNames;
    if s.clients[j].activeRoom == r { MembersShown(c, s, r, j); }
    else { FreshDelivered(c, s, s.rooms[r].members, UserList(r, UserNames(c, s, r)), j); }
  }

  lemma ListShown(c: Config, s: Server, j: SessionId)
    requires Shaped(s) && j in s.clients && Tuned(c, s, j)
    ensures var t := BroadcastRoomLists(c, s);
            j in t.clients && Tuned(c, t, j) && (Fresh(c, s, j) ==> Fresh(c, t, j))
  {
    RoomListClean(c, s);
    var m := RoomList(RoomSummaries(c, s));
    assert j in Named(s) ==> IsAwake(s, j);
    hide Shaped, DeliverAll, Tuned, Fresh, RoomSummaries, Clean;
    TunedDelivered(c, s, Named(s), m, j);
    if Fresh(c, s, j) { FreshDelivered(c, s, Named(s), m, j); }
  }
}
