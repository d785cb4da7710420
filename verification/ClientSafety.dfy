/** In every reachable state, what a session's client has been sent puts it in agreement with the
    server. */
module ClientSafety {
  import opened Octets
  import opened Messages
  import opened Ordering
  import opened Tables
  import opened ServerModel
  import opened ServerStructure
  import opened ServerActions
  import opened ServerPlans
  import opened ServerSafety
  import opened ServerReach
  import opened ClientView
  import opened ClientAgreement
  import R = Rosters
  import A = Admission

  // ---- the host ----

  lemma HostMoved(c: Config, s: Server, target: RoomId, j: SessionId)
    requires Shaped(s) && target in s.rooms && j in s.clients && Tuned(c, s, j) && Fresh(c, s, j)
    ensures var t := s.(localRoomId := target);
      && Shaped(t) && Tuned(c, t, j)
      && (s.clients[j].activeRoom !in {target, s.localRoomId} - {0} ==> Fresh(c, t, j))
  {
    var t, r := s.(localRoomId := target), s.clients[j].activeRoom;
    assert SameSeats(s, t) && SameHandles(s, t) && RoomTable(t);
    hide Seats, Handles, RoomTable, SameSeats, SameHandles, Tuned, Fresh, UserNames;
    SeatsKept(s, t);
    HandlesKept(s, t);
    TunedSame(c, s, t, j);
    if r !in {target, s.localRoomId} - {0} {
      if r != 0 { SameUsers(c, s, t, r); }
      FreshSame(c, s, t, j);
    }
  }

  lemma MoveLocalIs(c: Config, s: Server, target: RoomId)
    requires target in s.rooms
    ensures var name := s.rooms[target].name;
            MoveLocal(c, s, target) ==
              EnterNotice(c, Farewell(c, s.(localRoomId := target), true, s.localRoomId, c.localNickname, name),
                target, c.localNickname, name)
  {
    hide LeaveNotice, EnterNotice;
  }

  lemma HostToldFrom(c: Config, moved: Server, prev: RoomId, target: RoomId, name: Text, j: SessionId)
    requires Shaped(moved) && GoodCodec(c) && target in moved.rooms && (prev == 0 || prev in moved.rooms)
    requires j in moved.clients && Tuned(c, moved, j)
    requires moved.clients[j].activeRoom !in {target, prev} - {0} ==> Fresh(c, moved, j)
    ensures var told := Farewell(c, moved, true, prev, c.localNickname, name);
      && Shaped(told) && target in told.rooms && j in told.clients && Tuned(c, told, j)
      && (told.clients[j].activeRoom == target || Fresh(c, told, j))
  {
    hide Shaped, GoodCodec, Tuned, Fresh, Core, Farewell;
    FarewellView(c, moved, true, prev, c.localNickname, name, j);
    var told := Farewell(c, moved, true, prev, c.localNickname, name);
    ShapedOfCore(moved, told);
    ActiveOfCore(moved, told, j);
  }

  lemma HostTold(c: Config, s: Server, target: RoomId, name: Text, j: SessionId)
    requires Shaped(s) && GoodCodec(c) && target in s.rooms
    requires j in s.clients && Tuned(c, s, j) && Fresh(c, s, j)
    ensures var told := Farewell(c, s.(localRoomId := target), true, s.localRoomId, c.localNickname, name);
      && Shaped(told) && target in told.rooms && j in told.clients && Tuned(c, told, j)
      && (told.clients[j].activeRoom == target || Fresh(c, told, j))
  {
    assert s.localRoomId == 0 || s.localRoomId in s.rooms;
    hide Shaped, GoodCodec, Tuned, Fresh, Farewell;
    HostMoved(c, s, target, j);
    HostToldFrom(c, s.(localRoomId := target), s.localRoomId, target, name, j);
  }

  lemma MoveLocalView(c: Config, s: Server, target: RoomId, j: SessionId)
    requires Shaped(s) && GoodCodec(c) && target in s.rooms
    requires j in s.clients && Tuned(c, s, j) && Fresh(c, s, j)
    ensures var t := MoveLocal(c, s, target); j in t.clients && Tuned(c, t, j) && Fresh(c, t, j)
  {
    hide Shaped, GoodCodec, Tuned, Fresh, EnterNotice, Farewell, MoveLocal;
    var name := s.rooms[target].name;
    MoveLocalIs(c, s, target);
    HostTold(c, s, target, name, j);
    var told := Farewell(c, s.(localRoomId := target), true, s.localRoomId, c.localNickname, name);
    EnterNoticeView(c, told, target, c.localNickname, name, j);
  }

  lemma PlaceView(c: Config, s: Server, j: SessionId)
    requires Shaped(s) && GoodCodec(c) && s.localRoomId == 0 && LOBBY in s.rooms
    requires j in s.clients && Tuned(c, s, j) && Fresh(c, s, j)
    ensures var t := BroadcastUsers(c, s.(localRoomId := LOBBY), LOBBY);
            j in t.clients && Tuned(c, t, j) && Fresh(c, t, j)
  {
    hide Shaped, GoodCodec, Tuned, Fresh, BroadcastUsers;
    var placed := s.(localRoomId := LOBBY);
    HostMoved(c, s, LOBBY, j);
    assert placed.clients[j].activeRoom == LOBBY || Fresh(c, placed, j);
    TunedShown(c, placed, LOBBY, j);
    FreshShown(c, placed, LOBBY, j);
  }

  // ---- topics ----

  lemma RetitledIs(c: Config, s: Server, r: RoomId, topic: Text, j: SessionId)
    requires r in s.rooms && j in s.clients
    ensures var t := Retitled(c, s, r, topic);
      && j in t.clients && t.rooms == s.rooms[r := s.rooms[r].(topic := topic)]
      && t.clients[j] ==
           if j in s.rooms[r].members && c.encodes(RoomTopic(r, topic)) then Posted(s.clients[j], RoomTopic(r, topic))
           else s.clients[j]
  {
    var renamed := Written(WithRoom(s, r, s.rooms[r].(topic := topic)), TopicWrite(r, topic));
    assert renamed.clients == s.clients && renamed.rooms == s.rooms[r := s.rooms[r].(topic := topic)];
    hide DeliverAll, Posted, Written, WithRoom;
    OutDelivered(c, renamed, s.rooms[r].members, RoomTopic(r, topic), j);
  }

  lemma TopicPosted(c: Config, x: Session, r: RoomId, topic: Text)
    requires AllClean(c, x.outbox) && Follows(ViewOf(x.outbox)) && ViewOf(x.outbox).room == r
    requires c.encodes(RoomTopic(r, topic))
    ensures var y := Posted(x, RoomTopic(r, topic));
      && AllClean(c, y.outbox) && y.outbox != [] && Follows(ViewOf(y.outbox))
      && ViewOf(y.outbox) == ViewOf(x.outbox).(topic := topic)
  {
    PostedKeeps(x, RoomTopic(r, topic));
    ViewOfPosted(x, RoomTopic(r, topic));
    hide Posted, ViewOf;
  }

  /** What `Tuned` comes to for a session seated in room `r`. */
  lemma SeatedTuned(c: Config, s: Server, j: SessionId, r: RoomId)
    requires j in s.clients && s.clients[j].activeRoom == r != 0
    ensures Tuned(c, s, j) <==>
              && AllClean(c, s.clients[j].outbox) && s.clients[j].outbox != [] && Follows(ViewOf(s.clients[j].outbox))
              && r in s.rooms && RoomAgrees(ViewOf(s.clients[j].outbox), r, s.rooms[r])
  {
    hide AllClean, Follows, ViewOf, RoomAgrees;
  }

  lemma RetitleMember(c: Config, s: Server, r: RoomId, topic: Text, j: SessionId)
    requires Shaped(s) && GoodCodec(c) && r in s.rooms && IsValidRoomTopic(topic)
    requires j in s.clients && s.clients[j].activeRoom == r && Tuned(c, s, j)
    ensures var t := Retitled(c, s, r, topic);
            j in t.clients && Tuned(c, t, j) && Sees(t, j).users == Sees(s, j).users
  {
    assert r != 0 && j in s.rooms[r].members && c.encodes(RoomTopic(r, topic));
    hide Shaped, GoodCodec, Retitled, Posted, ViewOf, AllClean, Follows, IsValidRoomTopic, Tuned;
    SeatedTuned(c, s, j, r);
    RetitledIs(c, s, r, topic, j);
    TopicPosted(c, s.clients[j], r, topic);
    PostedKeeps(s.clients[j], RoomTopic(r, topic));
    SeatedTuned(c, Retitled(c, s, r, topic), j, r);
  }

  lemma RetitleOther(c: Config, s: Server, r: RoomId, topic: Text, j: SessionId)
    requires Shaped(s) && r in s.rooms && j in s.clients && s.clients[j].activeRoom != r && Tuned(c, s, j)
    ensures var t := Retitled(c, s, r, topic);
            j in t.clients && Tuned(c, t, j) && Sees(t, j).users == Sees(s, j).users
  {
    var renamed := Written(WithRoom(s, r, s.rooms[r].(topic := topic)), TopicWrite(r, topic));
    assert renamed.clients == s.clients && renamed.rooms == s.rooms[r := s.rooms[r].(topic := topic)];
    assert j !in s.rooms[r].members;
    hide Shaped, DeliverAll, Posted, ViewOf, Written, WithRoom, AllClean;
    OutDelivered(c, renamed, s.rooms[r].members, RoomTopic(r, topic), j);
  }

  lemma RetitleUsers(c: Config, s: Server, r: RoomId, topic: Text, q: RoomId)
    requires r in s.rooms
    ensures UserNames(c, Retitled(c, s, r, topic), q) == UserNames(c, s, q)
  {
    var renamed := Written(WithRoom(s, r, s.rooms[r].(topic := topic)), TopicWrite(r, topic));
    assert UserNames(c, renamed, q) == UserNames(c, s, q) by {
      hide UserNames;
      SameUsers(c, s, renamed, q);
    }
    hide DeliverAll, UserNames, Written, WithRoom, Core;
    DeliverAllCore(c, renamed, s.rooms[r].members, RoomTopic(r, topic));
    UserNamesOfCore(c, renamed, Retitled(c, s, r, topic), q);
  }

  lemma RetitledActive(c: Config, s: Server, r: RoomId, topic: Text, j: SessionId)
    requires r in s.rooms && j in s.clients
    ensures var t := Retitled(c, s, r, topic); j in t.clients && t.clients[j].activeRoom == s.clients[j].activeRoom
  {
    var renamed := Written(WithRoom(s, r, s.rooms[r].(topic := topic)), TopicWrite(r, topic));
    hide DeliverAll, Posted;
    OutDelivered(c, renamed, s.rooms[r].members, RoomTopic(r, topic), j);
    PostedKeeps(s.clients[j], RoomTopic(r, topic));
  }

  lemma RetitleView(c: Config, s: Server, r: RoomId, topic: Text, j: SessionId)
    requires Shaped(s) && GoodCodec(c) && r in s.rooms && IsValidRoomTopic(topic)
    requires j in s.clients && Tuned(c, s, j) && Fresh(c, s, j)
    ensures var t := Retitled(c, s, r, topic); j in t.clients && Tuned(c, t, j) && Fresh(c, t, j)
  {
    hide Shaped, GoodCodec, Tuned, Retitled, UserNames, ViewOf, IsValidRoomTopic;
    if s.clients[j].activeRoom == r { RetitleMember(c, s, r, topic, j); } else { RetitleOther(c, s, r, topic, j); }
    RetitleUsers(c, s, r, topic, s.clients[j].activeRoom);
    RetitledActive(c, s, r, topic, j);
  }

  // ---- bans ----

  lemma Undelivered(c: Config, s: Server, to: set<SessionId>, m: ServerMessage)
    requires !c.encodes(m)
    ensures DeliverAll(c, s, to, m) == s
  {
  }

  lemma KickTold(c: Config, s: Server, i: SessionId, nick: Text, reason: Text, j: SessionId)
    requires Shaped(s) && GoodCodec(c) && i in s.clients && s.clients[i].nickname == nick
    requires j in s.clients && Tuned(c, s, j) && Fresh(c, s, j)
    ensures var t := Deliver(c, s, i, Kick(nick, reason));
            Shaped(t) && j in t.clients && i in t.clients && Tuned(c, t, j) && Fresh(c, t, j)
  {
    var m := Kick(nick, reason);
    PendingValid(c, s, i);
    assert nick == [] ==> !c.encodes(m);
    hide Shaped, Tuned, Fresh, DeliverAll, Core, GoodCodec, IsValidNickname;
    if nick == [] {
      Undelivered(c, s, {i}, m);
    } else {
      TunedDelivered(c, s, {i}, m, j);
      FreshDelivered(c, s, {i}, m, j);
    }
    DeliverAllCore(c, s, {i}, m);
    ShapedOfCore(s, Deliver(c, s, i, m));
    OutDelivered(c, s, {i}, m, i);
  }

  lemma ClosedView(c: Config, s: Server, i: SessionId, j: SessionId)
    requires Shaped(s) && i in s.clients && j in s.clients && Tuned(c, s, j) && Fresh(c, s, j)
    ensures var t := Close(s, i); Shaped(t) && j in t.clients && i in t.clients && Tuned(c, t, j) && Fresh(c, t, j)
  {
    PendingValid(c, s, i);
    hide Shaped, Tuned, Fresh, Close, IsValidNickname;
    FlagView(c, s, i, s.clients[i].(closing := true), j);
    CloseIs(s, i);
  }

  lemma KickView(c: Config, s: Server, i: SessionId, nick: Text, reason: Text, j: SessionId)
    requires Shaped(s) && GoodCodec(c) && i in s.clients && s.clients[i].nickname == nick
    requires j in s.clients && Tuned(c, s, j) && Fresh(c, s, j)
    ensures var t := Close(Deliver(c, s, i, Kick(nick, reason)), i);
            Shaped(t) && j in t.clients && i in t.clients && Tuned(c, t, j) && Fresh(c, t, j)
  {
    hide Shaped, Tuned, Fresh, DeliverAll, GoodCodec, Close;
    KickTold(c, s, i, nick, reason, j);
    ClosedView(c, Deliver(c, s, i, Kick(nick, reason)), i, j);
  }

  lemma CloseIs(s: Server, i: SessionId)
    requires i in s.clients
    ensures Close(s, i) == With(s, i, s.clients[i].(closing := true)) && i in Close(s, i).clients
  {
  }

  /** A change of a session's flags that wakes no one. */
  lemma FlagView(c: Config, s: Server, i: SessionId, x: Session, j: SessionId)
    requires Shaped(s) && i in s.clients && j in s.clients && Tuned(c, s, j) && Fresh(c, s, j)
    requires x.nickname == s.clients[i].nickname && x.activeRoom == s.clients[i].activeRoom && x.outbox == s.clients[i].outbox
    requires x.phase == Reading ==> s.clients[i].phase == Reading || s.clients[i].outbox != []
    requires x.pendingNickname != [] ==> IsValidNickname(x.pendingNickname)
    ensures Shaped(With(s, i, x)) && j in With(s, i, x).clients && Tuned(c, With(s, i, x), j) && Fresh(c, With(s, i, x), j)
  {
    var t := With(s, i, x);
    FlagTuned(c, s, i, x, j);
    FlagShaped(s, i, x);
    hide Tuned, ViewOf, UserNames, Shaped;
    SameUsers(c, s, t, s.clients[j].activeRoom);
    FreshSame(c, s, t, j);
  }

  lemma FlagShaped(s: Server, i: SessionId, x: Session)
    requires Shaped(s) && i in s.clients
    requires x.activeRoom == s.clients[i].activeRoom && x.nickname == s.clients[i].nickname
    requires x.pendingNickname != [] ==> IsValidNickname(x.pendingNickname)
    ensures Shaped(With(s, i, x))
  {
    var t := With(s, i, x);
    assert SameSeats(s, t) && SameTable(s, t);
    WithHandles(s, i, x);
    hide Seats, Handles, RoomTable, SameSeats, SameTable, With;
    SeatsKept(s, t);
    TableKept(s, t);
  }

  lemma FlagTuned(c: Config, s: Server, i: SessionId, x: Session, j: SessionId)
    requires i in s.clients && j in s.clients && Tuned(c, s, j)
    requires x.nickname == s.clients[i].nickname && x.activeRoom == s.clients[i].activeRoom && x.outbox == s.clients[i].outbox
    requires x.phase == Reading ==> s.clients[i].phase == Reading || s.clients[i].outbox != []
    ensures j in With(s, i, x).clients && Tuned(c, With(s, i, x), j)
  {
    hide ViewOf, AllClean;
  }

  lemma BanStoredView(c: Config, s: Server, nick: Text, reason: Text, j: SessionId)
    requires Shaped(s) && j in s.clients && Tuned(c, s, j) && Fresh(c, s, j)
    ensures var t := BanStored(s, nick, reason);
            Shaped(t) && t.clients == s.clients && Tuned(c, t, j) && Fresh(c, t, j)
  {
    var t := BanStored(s, nick, reason);
    assert SameSeats(s, t) && SameTable(s, t) && SameHandles(s, t);
    hide Seats, Handles, RoomTable, SameSeats, SameTable, SameHandles, Tuned, Fresh, UserNames;
    SeatsKept(s, t);
    HandlesKept(s, t);
    TableKept(s, t);
    TunedSame(c, s, t, j);
    SameUsers(c, s, t, s.clients[j].activeRoom);
    FreshSame(c, s, t, j);
  }

  lemma ExpelView(c: Config, s: Server, i: SessionId, nick: Text, why: Text, j: SessionId)
    requires Shaped(s) && GoodCodec(c) && i in s.clients && s.clients[i].nickname == nick
    requires j in s.clients && Tuned(c, s, j) && Fresh(c, s, j)
    ensures var t := Expel(c, s, i, nick, why); j in t.clients && Tuned(c, t, j) && Fresh(c, t, j)
  {
    hide Shaped, Tuned, Fresh, GoodCodec, Depart, Close, DeliverAll;
    KickView(c, s, i, nick, why, j);
    DepartView(c, Close(Deliver(c, s, i, Kick(nick, why)), i), i, false, j);
  }

  lemma VictimIs(c: Config, e: Input, s: Server, a: Action)
    requires Sound(c, s) && Allowed(c, e, s, a) && a.BanAway? && a.victim.Some?
    ensures a.victim.value in s.clients && s.clients[a.victim.value].nickname == a.nickname
  {
  }

  lemma BanAwayView(c: Config, e: Input, s: Server, a: Action, j: SessionId)
    requires Sound(c, s) && GoodCodec(c) && Allowed(c, e, s, a) && a.BanAway?
    requires j in s.clients && Tuned(c, s, j) && Fresh(c, s, j)
    ensures var t := Do(c, s, a); j in t.clients && Tuned(c, t, j) && Fresh(c, t, j)
  {
    hide Sound, Shaped, Tuned, Fresh, GoodCodec, Allowed, Expel, BanStored, BanReason;
    SoundIsShaped(c, s);
    BanStoredView(c, s, a.nickname, a.reason, j);
    if a.victim.Some? {
      VictimIs(c, e, s, a);
      ExpelView(c, BanStored(s, a.nickname, a.reason), a.victim.value, a.nickname, BanReason(a.reason), j);
    }
  }

  // ---- sessions that begin ----

  lemma EnterUsers(c: Config, s: Server, i: SessionId, r: RoomId)
    requires Seats(s) && i in s.clients && s.clients[i].activeRoom == 0
    ensures UserNames(c, Admit(s, i), r) == UserNames(c, s, r)
  {
    var t := Admit(s, i);
    assert t.rooms == s.rooms && t.localRoomId == s.localRoomId && t.clients == s.clients[i := Admitted(s.clients[i])];
    assert i !in RoomOf(s, r).members;
    hide UserNames, Admit;
    SameUsers(c, s, t, r);
  }

  lemma EnterIs(s: Server, i: SessionId)
    requires i in s.clients
    ensures var t := Admit(s, i); t.rooms == s.rooms && t.clients == s.clients[i := Admitted(s.clients[i])]
  {
  }

  lemma EnteredTuned(c: Config, s: Server, i: SessionId)
    requires i in s.clients && Tuned(c, s, i) && s.clients[i].phase == Reading
    ensures i in Admit(s, i).clients && Tuned(c, Admit(s, i), i)
  {
    hide AllClean, ViewOf, Follows, RoomAgrees, Admit;
    EnterIs(s, i);
  }

  lemma EnterView(c: Config, e: Input, s: Server, i: SessionId, j: SessionId)
    requires Sound(c, s) && Allowed(c, e, s, Enter(i)) && Tuned(c, s, i)
    requires j in s.clients && Tuned(c, s, j) && Fresh(c, s, j)
    ensures var t := Admit(s, i); j in t.clients && Tuned(c, t, j) && Fresh(c, t, j)
  {
    assert s.clients[i].phase == Reading && s.clients[i].activeRoom == 0 && Seats(s);
    hide Sound, Seats, Allowed, Admit, Tuned, Fresh, UserNames;
    EnterIs(s, i);
    EnterUsers(c, s, i, s.clients[j].activeRoom);
    if j == i { EnteredTuned(c, s, i); } else { TunedSame(c, s, Admit(s, i), j); }
    FreshSame(c, s, Admit(s, i), j);
  }

  lemma HelloFirst(c: Config, i: SessionId, x: Session)
    requires c.encodes(ServerMessage.Hello(VERSION)) && AllClean(c, x.outbox) && (x.outbox != [] ==> Follows(ViewOf(x.outbox)))
    ensures var out := Posted(x, ServerMessage.Hello(VERSION)).outbox;
            AllClean(c, out) && Follows(ViewOf(out))
  {
    ViewOfPosted(x, ServerMessage.Hello(VERSION));
    if x.outbox == [] { assert ViewOf(x.outbox) == BLANK; }
  }

  lemma HelloKeepsRoom(x: Session)
    ensures var v, w := ViewOf(x.outbox), ViewOf(Posted(x, ServerMessage.Hello(VERSION)).outbox);
            w.room == v.room && w.name == v.name && w.topic == v.topic && w.users == v.users
  {
    ViewOfPosted(x, ServerMessage.Hello(VERSION));
  }

  lemma OpenUsers(c: Config, s: Server, i: SessionId, r: RoomId)
    requires i in s.clients
    ensures UserNames(c, Do(c, s, Open(i)), r) == UserNames(c, s, r)
  {
    var mid := With(s, i, s.clients[i].(phase := Reading));
    SameUsers(c, s, mid, r);
    hide Core, UserNames, DeliverAll;
    DeliverAllCore(c, mid, {i}, ServerMessage.Hello(VERSION));
    UserNamesOfCore(c, mid, Do(c, s, Open(i)), r);
  }

  lemma OpenIs(c: Config, s: Server, i: SessionId, j: SessionId)
    requires GoodCodec(c) && i in s.clients && j in s.clients
    ensures var t := Do(c, s, Open(i));
      && j in t.clients && t.rooms == s.rooms
      && t.clients[j] ==
           if j == i then Posted(s.clients[i].(phase := Reading), ServerMessage.Hello(VERSION)) else s.clients[j]
  {
    hide DeliverAll, Posted;
    OutDelivered(c, With(s, i, s.clients[i].(phase := Reading)), {i}, ServerMessage.Hello(VERSION), j);
  }

  lemma OpenSelf(c: Config, s: Server, i: SessionId)
    requires GoodCodec(c) && i in s.clients && Tuned(c, s, i) && Fresh(c, s, i)
    ensures var t := Do(c, s, Open(i)); i in t.clients && Tuned(c, t, i) && Fresh(c, t, i)
  {
    var y := s.clients[i].(phase := Reading);
    assert c.encodes(ServerMessage.Hello(VERSION));
    OpenUsers(c, s, i, y.activeRoom);
    OpenIs(c, s, i, i);
    PostedKeeps(y, ServerMessage.Hello(VERSION));
    assert AllClean(c, y.outbox) && (y.outbox != [] ==> Follows(ViewOf(y.outbox)));
    HelloFirst(c, i, y);
    HelloKeepsRoom(y);
    hide Do, GoodCodec, UserNames, AllClean, ViewOf, Posted, Follows;
  }

  lemma OpenView(c: Config, s: Server, i: SessionId, j: SessionId)
    requires GoodCodec(c) && i in s.clients
    requires j in s.clients && Tuned(c, s, j) && Fresh(c, s, j)
    ensures var t := Do(c, s, Open(i)); j in t.clients && Tuned(c, t, j) && Fresh(c, t, j)
  {
    hide Do, GoodCodec, Tuned, Fresh, UserNames, Posted;
    if j == i {
      OpenSelf(c, s, i);
    } else {
      OpenIs(c, s, i, j);
      OpenUsers(c, s, i, s.clients[j].activeRoom);
      TunedSame(c, s, Do(c, s, Open(i)), j);
      FreshSame(c, s, Do(c, s, Open(i)), j);
    }
  }

  lemma NewcomerView(c: Config, s: Server, i: SessionId)
    requires i !in s.clients
    ensures var t := Enrolled(s, i); i in t.clients && Tuned(c, t, i) && Fresh(c, t, i)
  {
    hide UserNames;
  }

  lemma EnrollView(c: Config, s: Server, i: SessionId, j: SessionId)
    requires Shaped(s) && i !in s.clients && j in s.clients && Tuned(c, s, j) && Fresh(c, s, j)
    ensures var t := Enrolled(s, i); j in t.clients && Tuned(c, t, j) && Fresh(c, t, j)
  {
    hide Shaped, Tuned, Fresh, UserNames, Enrolled, RoomOf;
    var t, r := Enrolled(s, i), s.clients[j].activeRoom;
    StrangerSitsNowhere(s, i, r);
    EnrolledIs(s, i, j);
    TunedSame(c, s, t, j);
    NewcomerUsers(c, s, i, r);
    FreshSame(c, s, t, j);
  }

  lemma StrangerSitsNowhere(s: Server, i: SessionId, r: RoomId)
    requires Shaped(s) && i !in s.clients
    ensures i !in RoomOf(s, r).members
  {
    hide Handles, RoomTable;
  }

  lemma EnrolledIs(s: Server, i: SessionId, j: SessionId)
    requires i !in s.clients && j in s.clients
    ensures var t := Enrolled(s, i); j in t.clients && t.clients[j] == s.clients[j] && t.rooms == s.rooms
  {
  }

  lemma NewcomerUsers(c: Config, s: Server, i: SessionId, r: RoomId)
    requires i !in s.clients && i !in RoomOf(s, r).members
    ensures UserNames(c, Enrolled(s, i), r) == UserNames(c, s, r)
  {
    hide Sort, Ordered;
    var ids := Ordered(RoomOf(s, r).members);
    assert forall k :: k in ids ==> Of(s, k) == Of(Enrolled(s, i), k);
    NicknamesSame(s, Enrolled(s, i), ids);
  }

  lemma FoundView(c: Config, s: Server, name: Text, owner: Text, j: SessionId)
    requires Shaped(s) && s.nextRoomId !in s.rooms && j in s.clients && Tuned(c, s, j) && Fresh(c, s, j)
    ensures var t := AddRoom(s, name, owner); j in t.clients && Tuned(c, t, j) && Fresh(c, t, j)
  {
    var t, r := AddRoom(s, name, owner), s.clients[j].activeRoom;
    assert r == 0 || r in s.rooms;
    assert t.clients == s.clients && t.localRoomId == s.localRoomId;
    assert forall q :: q in s.rooms ==> q in t.rooms && t.rooms[q] == s.rooms[q];
    hide Shaped, Tuned, Fresh, UserNames, AddRoom;
    TunedSame(c, s, t, j);
    if r != 0 { SameUsers(c, s, t, r); }
    FreshSame(c, s, t, j);
  }

  lemma LedgerView(c: Config, s: Server, t: Server, j: SessionId)
    requires t.clients == s.clients && t.rooms == s.rooms && t.localRoomId == s.localRoomId
    requires j in s.clients && Tuned(c, s, j) && Fresh(c, s, j)
    ensures Tuned(c, t, j) && Fresh(c, t, j)
  {
    hide Tuned, Fresh, UserNames;
    TunedSame(c, s, t, j);
    SameUsers(c, s, t, s.clients[j].activeRoom);
    FreshSame(c, s, t, j);
  }

  // ---- every action ----

  lemma TalkView(c: Config, e: Input, s: Server, a: Action, j: SessionId)
    requires Shaped(s) && GoodCodec(c) && Allowed(c, e, s, a) && IsTalk(a)
    requires j in s.clients && Tuned(c, s, j) && Fresh(c, s, j)
    ensures var t := Do(c, s, a); j in t.clients && Tuned(c, t, j) && Fresh(c, t, j)
  {
    match a
    case Tell(to, m) =>
      hide Shaped, GoodCodec, Tuned, Fresh, DeliverAll, Clean;
      TunedDelivered(c, s, to, m, j);
      FreshDelivered(c, s, to, m, j);
    case ShowTopic(i) => TopicShownView(c, s, i, j);
    case Say(r, text, nick) =>
      hide Shaped, GoodCodec, Tuned, Fresh, BroadcastRoom;
      TunedSaid(c, s, r, text, nick, j);
      FreshSaid(c, s, r, text, nick, j);
    case ShowUsers(r) =>
      hide Shaped, GoodCodec, Tuned, Fresh;
      TunedShown(c, s, r, j);
      if r in s.rooms { FreshShown(c, s, r, j); }
    case ShowRooms =>
      hide Shaped, GoodCodec, Tuned, Fresh, BroadcastRoomLists;
      ListShown(c, s, j);
  }

  lemma SeatHasId(s: Server, i: SessionId)
    requires Shaped(s) && i in s.clients && s.clients[i].activeRoom in s.rooms
    ensures s.clients[i].activeRoom != 0
  {
    hide Handles, RoomTable;
  }

  lemma TopicShownView(c: Config, s: Server, i: SessionId, j: SessionId)
    requires Shaped(s) && i in s.clients && s.clients[i].activeRoom in s.rooms
    requires j in s.clients && Tuned(c, s, j) && Fresh(c, s, j)
    ensures var t := Do(c, s, ShowTopic(i)); j in t.clients && Tuned(c, t, j) && Fresh(c, t, j)
  {
    hide Shaped, Tuned, Fresh, DeliverAll;
    SeatHasId(s, i);
    PendingValid(c, s, i);
    var m := RoomTopic(Of(s, i).activeRoom, RoomOf(s, Of(s, i).activeRoom).topic);
    TunedDelivered(c, s, {i}, m, j);
    FreshDelivered(c, s, {i}, m, j);
  }

  lemma FlagActionView(c: Config, e: Input, s: Server, a: Action, j: SessionId)
    requires Sound(c, s) && Allowed(c, e, s, a) && IsFlagAction(a)
    requires j in s.clients && Tuned(c, s, j) && Fresh(c, s, j)
    ensures var t := Do(c, s, a); j in t.clients && Tuned(c, t, j) && Fresh(c, t, j)
  {
    SoundIsShaped(c, s);
    hide Sound, Shaped, Tuned, Fresh, With, Do, Allowed, IsValidNickname;
    var x := FlagActionIs(c, e, s, a);
    FlagView(c, s, a.id, x, j);
  }

  lemma LedgerActionView(c: Config, s: Server, a: Action, j: SessionId)
    requires a.LiftBan? || a.Register?
    requires j in s.clients && Tuned(c, s, j) && Fresh(c, s, j)
    ensures var t := Do(c, s, a); j in t.clients && Tuned(c, t, j) && Fresh(c, t, j)
  {
    hide Tuned, Fresh;
    LedgerView(c, s, Do(c, s, a), j);
  }

  lemma FoundFree(c: Config, s: Server)
    requires Sound(c, s)
    ensures s.nextRoomId !in s.rooms
  {
    hide IsValidRoomName, IsValidRoomTopic, Lower;
  }

  lemma MoveView(c: Config, e: Input, s: Server, a: Action, j: SessionId)
    requires Sound(c, s) && GoodCodec(c) && Allowed(c, e, s, a) && a.Move?
    requires j in s.clients && Tuned(c, s, j) && Fresh(c, s, j)
    ensures var t := Do(c, s, a); j in t.clients && Tuned(c, t, j) && Fresh(c, t, j)
  {
    SoundIsShaped(c, s);
    hide Sound, Shaped, GoodCodec, Tuned, Fresh, MoveSession;
    if a.id == j { MoveMover(c, s, j, a.target, a.announce); }
    else { MoveOther(c, s, a.id, a.target, a.announce, j); }
  }

  lemma PlaceIs(c: Config, e: Input, s: Server)
    requires Sound(c, s) && Allowed(c, e, s, PlaceHost)
    ensures LOBBY in s.rooms && s.localRoomId == 0
    ensures Do(c, s, PlaceHost) == BroadcastUsers(c, s.(localRoomId := LOBBY), LOBBY)
  {
    LobbyExists(c, s);
    hide Sound, BroadcastUsers;
  }

  lemma MoveHostIs(c: Config, e: Input, s: Server, target: RoomId)
    requires Allowed(c, e, s, MoveHost(target))
    ensures target in s.rooms && Do(c, s, MoveHost(target)) == MoveLocal(c, s, target)
  {
    hide MoveLocal;
  }

  lemma HostActionView(c: Config, e: Input, s: Server, a: Action, j: SessionId)
    requires Sound(c, s) && GoodCodec(c) && Allowed(c, e, s, a) && (a.PlaceHost? || a.MoveHost?)
    requires j in s.clients && Tuned(c, s, j) && Fresh(c, s, j)
    ensures var t := Do(c, s, a); j in t.clients && Tuned(c, t, j) && Fresh(c, t, j)
  {
    hide Sound, Shaped, GoodCodec, Tuned, Fresh, BroadcastUsers, MoveLocal, Do, Allowed;
    SoundIsShaped(c, s);
    match a
    case PlaceHost =>
      PlaceIs(c, e, s);
      PlaceView(c, s, j);
    case MoveHost(target) =>
      MoveHostIs(c, e, s, target);
      MoveLocalView(c, s, target, j);
  }

  lemma RoomActionIs(c: Config, e: Input, s: Server, a: Action)
    requires Sound(c, s) && Allowed(c, e, s, a) && (a.Found? || a.Retitle?)
    ensures s.nextRoomId !in s.rooms && Shaped(s)
    ensures a.Found? ==> Do(c, s, a) == AddRoom(s, a.name, a.owner)
    ensures a.Retitle? ==> a.room in s.rooms && IsValidRoomTopic(a.topic) && Do(c, s, a) == Retitled(c, s, a.room, a.topic)
  {
    SoundIsShaped(c, s);
    FoundFree(c, s);
    hide Sound, Shaped, CreationError, AddRoom, Retitled, IsValidRoomTopic;
  }

  lemma RoomActionView(c: Config, e: Input, s: Server, a: Action, j: SessionId)
    requires Sound(c, s) && GoodCodec(c) && Allowed(c, e, s, a) && (a.Found? || a.Retitle?)
    requires j in s.clients && Tuned(c, s, j) && Fresh(c, s, j)
    ensures var t := Do(c, s, a); j in t.clients && Tuned(c, t, j) && Fresh(c, t, j)
  {
    hide Sound, Shaped, GoodCodec, Tuned, Fresh, AddRoom, Retitled, IsValidRoomTopic, Do, Allowed;
    RoomActionIs(c, e, s, a);
    if a.Found? { FoundView(c, s, a.name, a.owner, j); } else { RetitleView(c, s, a.room, a.topic, j); }
  }

  lemma SessionActionIs(c: Config, e: Input, s: Server, a: Action)
    requires Sound(c, s) && Allowed(c, e, s, a) && (a.Go? || a.Open? || a.Enroll?)
    ensures Shaped(s) && (a.Enroll? <==> a.id !in s.clients)
    ensures a.Go? ==> Do(c, s, a) == Depart(c, s, a.id, a.announce)
    ensures a.Enroll? ==> Do(c, s, a) == Enrolled(s, a.id)
  {
    SoundIsShaped(c, s);
    hide Sound, Shaped, Depart, DeliverAll, With;
  }

  lemma SessionActionView(c: Config, e: Input, s: Server, a: Action, j: SessionId)
    requires Sound(c, s) && GoodCodec(c) && Allowed(c, e, s, a) && (a.Go? || a.Open? || a.Enroll?)
    requires j in s.clients && Tuned(c, s, j) && Fresh(c, s, j)
    ensures var t := Do(c, s, a); j in t.clients && Tuned(c, t, j) && Fresh(c, t, j)
  {
    hide Sound, Shaped, GoodCodec, Tuned, Fresh, Depart, Enrolled, Do, Allowed;
    SessionActionIs(c, e, s, a);
    match a
    case Go(i, announce) => DepartView(c, s, i, announce, j);
    case Open(i) => OpenView(c, s, i, j);
    case Enroll(i) => EnrollView(c, s, i, j);
  }

  lemma EnteringView(c: Config, e: Input, s: Server, i: SessionId, j: SessionId)
    requires Sound(c, s) && Allowed(c, e, s, Enter(i)) && InView(c, s) && j in s.clients
    ensures var t := Admit(s, i); j in t.clients && Tuned(c, t, j) && Fresh(c, t, j)
  {
    assert i in s.clients;
    hide Sound, Allowed, Admit, Tuned, Fresh;
    EnterView(c, e, s, i, j);
  }

  lemma ActionView(c: Config, e: Input, s: Server, a: Action, j: SessionId)
    requires Sound(c, s) && GoodCodec(c) && Allowed(c, e, s, a)
    requires InView(c, s) && j in s.clients
    ensures var t := Do(c, s, a); j in t.clients && Tuned(c, t, j) && Fresh(c, t, j)
  {
    SoundIsShaped(c, s);
    hide Sound, Shaped, GoodCodec, Tuned, Fresh;
    if IsTalk(a) { hide Do, Allowed; TalkView(c, e, s, a, j); }
    else if IsFlagAction(a) { hide Do, Allowed; FlagActionView(c, e, s, a, j); }
    else if a.BanAway? { hide Do, Allowed; BanAwayView(c, e, s, a, j); }
    else if a.LiftBan? || a.Register? { hide Do, Allowed; LedgerActionView(c, s, a, j); }
    else if a.Move? { hide Do, Allowed; MoveView(c, e, s, a, j); }
    else if a.Enter? { hide Allowed; EnteringView(c, e, s, a.id, j); }
    else if a.PlaceHost? || a.MoveHost? { hide Do, Allowed; HostActionView(c, e, s, a, j); }
    else if a.Found? || a.Retitle? { hide Do, Allowed; RoomActionView(c, e, s, a, j); }
    else { hide Do, Allowed; SessionActionView(c, e, s, a, j); }
  }

  // ---- every step ----

  lemma Newcomer(c: Config, s: Server, a: Action, j: SessionId)
    requires a == Enroll(j) && j !in s.clients
    ensures Tuned(c, Do(c, s, a), j) && Fresh(c, Do(c, s, a), j)
  {
    hide Tuned, Fresh;
    NewcomerView(c, s, j);
  }

  lemma ActionInView(c: Config, e: Input, s: Server, a: Action)
    requires Sound(c, s) && GoodCodec(c) && Allowed(c, e, s, a) && InView(c, s)
    ensures InView(c, Do(c, s, a))
  {
    hide Sound, GoodCodec, Do, Allowed, Tuned, Fresh;
    var t := Do(c, s, a);
    forall j | j in t.clients ensures Tuned(c, t, j) && Fresh(c, t, j) {
      if j in s.clients { ActionView(c, e, s, a, j); }
      else {
        Strangers(c, e, s, a, j);
        Newcomer(c, s, a, j);
      }
    }
  }

  lemma LoudStrangers(c: Config, s: Server, a: Action, j: SessionId)
    requires !A.IsQuiet(a) && j in Do(c, s, a).clients && j !in s.clients
    ensures a == Enroll(j)
  {
  }

  lemma QuietStrangers(c: Config, e: Input, s: Server, a: Action, j: SessionId)
    requires Sound(c, s) && Allowed(c, e, s, a) && A.IsQuiet(a) && j in Do(c, s, a).clients
    ensures j in s.clients
  {
    hide Sound, Allowed, Do;
    A.QuietCreds(c, e, s, a);
  }

  /** Only an accepted connection brings a session object. */
  lemma Strangers(c: Config, e: Input, s: Server, a: Action, j: SessionId)
    requires Sound(c, s) && Allowed(c, e, s, a) && j in Do(c, s, a).clients
    ensures j in s.clients || a == Enroll(j)
  {
    hide Sound, Allowed, Do;
    if A.IsQuiet(a) { QuietStrangers(c, e, s, a, j); }
    else if j !in s.clients { LoudStrangers(c, s, a, j); }
  }

  lemma {:induction false} PlanInView(c: Config, e: Input, s: Server, p: Plan)
    requires Sound(c, s) && GoodCodec(c) && Legal(c, e, s, p) && InView(c, s)
    ensures InView(c, Run(c, s, p))
    decreases p
  {
    hide Sound, Allowed, Do, InView, GoodCodec;
    match p
    case Skip =>
    case One(a) => ActionInView(c, e, s, a);
    case Then(q, r) =>
      PlanInView(c, e, s, q);
      PlanSound(c, e, s, q);
      PlanInView(c, e, Run(c, s, q), r);
  }

  lemma StepInView(c: Config, s: Server, e: Input)
    requires Sound(c, s) && GoodCodec(c) && Enabled(c, s, e) && InView(c, s)
    ensures InView(c, Step(c, s, e))
  {
    hide Legal, PlanOf, Run, Step, Sound, Enabled, InView, GoodCodec;
    PlanLegal(c, s, e);
    PlanInView(c, e, s, PlanOf(c, s, e));
    PlanRuns(c, s, e);
  }

  /** The client of session `j` shows exactly who is in its room, if the list of them has a frame. */
  ghost predicate ShowsOccupants(c: Config, s: Server, j: SessionId, v: View)
    requires j in s.clients
  {
    var r := s.clients[j].activeRoom;
    exists users :: R.ListsUsers(c, s, r, users) && (c.encodes(UserList(r, users)) ==> v.users == users)
  }

  lemma FreshShowsOccupants(c: Config, s: Server, j: SessionId)
    requires Sound(c, s) && j in s.clients && s.clients[j].activeRoom != 0 && Fresh(c, s, j)
    ensures ShowsOccupants(c, s, j, Sees(s, j))
  {
    var r := s.clients[j].activeRoom;
    assert r in s.rooms;
    hide Seats, Handles, DistinctNames, RoomTable, UserNames, ViewOf, R.ListsUsers;
    R.UserListIs(c, s, r);
  }

  /** For every session in a room, in every reachable state: a client that has consumed everything
      delivered to it has the session's room, name and topic, shows who is there if their list has a
      frame, and has discarded no room text. */
  lemma {:induction false} RunInView(c: Config, states: seq<Server>, inputs: seq<Input>, n: nat)
    requires IsRun(c, states, inputs) && Sound(c, states[0]) && GoodCodec(c) && InView(c, states[0]) && n <= |inputs|
    ensures InView(c, states[n])
    ensures forall j :: j in states[n].clients && states[n].clients[j].activeRoom != 0 ==>
              ShowsOccupants(c, states[n], j, Sees(states[n], j))
  {
    hide Sound, Step, Enabled, GoodCodec, Tuned, Fresh, ShowsOccupants, ViewOf;
    if n > 0 {
      RunInView(c, states, inputs, n - 1);
      RunSound(c, states, inputs, n - 1);
      StepInView(c, states[n - 1], inputs[n - 1]);
    }
    RunSound(c, states, inputs, n);
    forall j | j in states[n].clients && states[n].clients[j].activeRoom != 0
      ensures ShowsOccupants(c, states[n], j, Sees(states[n], j))
    {
      FreshShowsOccupants(c, states[n], j);
    }
  }
}
