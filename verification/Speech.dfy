/** What an action does to the part of the state that is stored: it changes the books at most once,
    and then broadcasts some texts. */
module Speech {
  import opened Octets
  import opened Messages
  import opened Tables
  import opened ServerModel
  import opened ServerStructure
  import opened ServerActions
  import opened ServerSafety
  import opened Persistence
  import C = ClientAgreement

  datatype Said = Said(room: RoomId, text: Text, nickname: Text)

  function SayAll(c: Config, s: Server, said: seq<Said>): Server
    decreases |said|
  {
    if said == [] then s
    else
      var n := |said| - 1;
      BroadcastRoom(c, SayAll(c, s, said[..n]), said[n].room, said[n].text, said[n].nickname)
  }

  /** What is stored in `t` is what broadcasting the texts in `s` leaves. */
  ghost predicate Leads(c: Config, s: Server, t: Server, said: seq<Said>) { SameRecord(SayAll(c, s, said), t) }

  // ---- the texts of an action ----

  function LeftFor(nick: Text, name: Text): Text { "[system] " + nick + " left for #" + name }

  function Entered(nick: Text, name: Text): Text { "[system] " + nick + " joined #" + name }

  function Left(nick: Text): Text { "[system] " + nick + " left" }

  function MoveTexts(prev: RoomId, target: RoomId, announce: bool, nick: Text, name: Text): seq<Said>
  {
    (if announce && prev != 0 then [Said(prev, LeftFor(nick, name), [])] else []) + [Said(target, Entered(nick, name), [])]
  }

  function TextsOf(c: Config, s: Server, a: Action): seq<Said>
  {
    match a
    case Say(r, text, nick) => [Said(r, text, nick)]
    case Move(i, target, announce) =>
      MoveTexts(Of(s, i).activeRoom, target, announce, Of(s, i).nickname, RoomOf(s, target).name)
    case MoveHost(target) => MoveTexts(s.localRoomId, target, true, c.localNickname, RoomOf(s, target).name)
    case Go(i, announce) =>
      var x := Of(s, i);
      if announce && x.nickname != [] && x.activeRoom != 0 then [Said(x.activeRoom, Left(x.nickname), [])] else []
    case _ => []
  }

  /** The change of rooms, topics, bindings or bans, and its write. */
  function Booked(s: Server, a: Action): Server
  {
    match a
    case Enter(i) => Bind(s, Of(s, i).pendingNickname, Of(s, i).pendingKey)
    case Register(nick, key) => Bind(s, nick, key)
    case Found(name, owner) => AddRoom(s, name, owner)
    case Retitle(r, topic) =>
      if r in s.rooms then Written(WithRoom(s, r, s.rooms[r].(topic := topic)), TopicWrite(r, topic)) else s
    case BanAway(nick, reason, _) => BanStored(s, nick, reason)
    case LiftBan(nick) => Unban(s, nick)
    case _ => s
  }

  // ---- what leaves the record alone ----

  lemma DeliverRecord(c: Config, s: Server, to: set<SessionId>, m: ServerMessage)
    ensures SameRecord(s, DeliverAll(c, s, to, m))
  {
    hide PostAll;
  }

  lemma SameSelf(s: Server)
    ensures SameRecord(s, s)
  {
  }

  lemma UsersRecord(c: Config, s: Server, r: RoomId)
    ensures SameRecord(s, BroadcastUsers(c, s, r))
  {
    hide SameRecord, UserNames;
    if r in s.rooms { DeliverRecord(c, s, s.rooms[r].members, UserList(r, UserNames(c, s, r))); }
    else { SameSelf(s); }
  }

  lemma ListsRecord(c: Config, s: Server)
    ensures SameRecord(s, BroadcastRoomLists(c, s))
  {
    hide SameRecord, RoomSummaries;
    DeliverRecord(c, s, ServerModel.Named(s), RoomList(RoomSummaries(c, s)));
  }

  lemma {:induction false} HistoryRecord(c: Config, s: Server, i: SessionId, r: RoomId, history: seq<Text>)
    ensures SameRecord(s, DeliverHistory(c, s, i, r, history))
    decreases |history|
  {
    hide SameRecord, DeliverAll;
    if history == [] {
      SameSelf(s);
    } else {
      var told := Deliver(c, s, i, RoomText(r, history[0]));
      DeliverRecord(c, s, {i}, RoomText(r, history[0]));
      HistoryRecord(c, told, i, r, history[1..]);
      SameRecordTransitive(s, told, DeliverHistory(c, told, i, r, history[1..]));
    }
  }

  lemma {:induction false} ReplayRecord(c: Config, s: Server, i: SessionId, r: RoomId, name: Text, history: seq<Text>)
    ensures SameRecord(s, Replay(c, s, i, r, name, history))
  {
    hide SameRecord, DeliverAll, DeliverHistory;
    var head := DirectText("[system] Recent messages in #" + name + ":");
    SameSelf(s);
    DeliverRecord(c, s, {i}, head);
    HistoryRecord(c, Deliver(c, s, i, head), i, r, history);
    SameRecordTransitive(s, Deliver(c, s, i, head), DeliverHistory(c, Deliver(c, s, i, head), i, r, history));
  }

  lemma SeatRecord(s: Server, i: SessionId, target: RoomId)
    ensures target in s.rooms ==> SameRecord(s, Reseat(s, i, target))
    ensures SameRecord(s, Unseat(s, i))
  {
  }

  lemma WithRecord(s: Server, i: SessionId, x: Session)
    ensures SameRecord(s, With(s, i, x))
  {
  }

  lemma HostRecord(s: Server, r: RoomId)
    ensures SameRecord(s, s.(localRoomId := r))
  {
  }

  // ---- saying more ----

  lemma SaidAlike(c: Config, s: Server, t: Server, r: RoomId, text: Text, nick: Text)
    requires SameRecord(s, t)
    ensures SameRecord(BroadcastRoom(c, s, r, text, nick), BroadcastRoom(c, t, r, text, nick))
  {
    if r in s.rooms {
      SaidFields(c, s, r, text, nick);
      SaidFields(c, t, r, text, nick);
      UnmannedKeeps(s.rooms[r], t.rooms[r]);
      RoomsAlike(s.rooms[r], t.rooms[r], Bounded(s.rooms[r].recent + [text], c.historyLimit));
      hide BroadcastRoom, Unmanned, Bounded;
    }
  }

  lemma RoomsAlike(a: Room, b: Room, recent: seq<Text>)
    requires Unmanned(a) == Unmanned(b)
    ensures Unmanned(a.(recent := recent)) == Unmanned(b.(recent := recent))
  {
    assert Unmanned(a).(recent := recent) == Unmanned(b).(recent := recent);
  }

  lemma LeadsStart(c: Config, s: Server, t: Server)
    requires SameRecord(s, t)
    ensures Leads(c, s, t, [])
  {
  }

  lemma {:induction false} LeadsSame(c: Config, s: Server, t: Server, u: Server, said: seq<Said>)
    requires Leads(c, s, t, said) && SameRecord(t, u)
    ensures Leads(c, s, u, said)
  {
    hide SameRecord, SayAll;
    SameRecordTransitive(SayAll(c, s, said), t, u);
  }

  lemma {:induction false} LeadsSaid(c: Config, s: Server, t: Server, said: seq<Said>, r: RoomId, text: Text, nick: Text)
    requires Leads(c, s, t, said)
    ensures Leads(c, s, BroadcastRoom(c, t, r, text, nick), said + [Said(r, text, nick)])
  {
    hide SameRecord, BroadcastRoom;
    SaidAlike(c, SayAll(c, s, said), t, r, text, nick);
    assert (said + [Said(r, text, nick)])[..|said|] == said;
  }

  lemma {:induction false} LeadsAnnounced(c: Config, s: Server, t: Server, said: seq<Said>, r: RoomId, text: Text)
    requires Leads(c, s, t, said)
    ensures Leads(c, s, BroadcastUsers(c, BroadcastRoom(c, t, r, text, []), r), said + [Said(r, text, [])])
  {
    hide Leads, SameRecord, BroadcastRoom, BroadcastUsers;
    LeadsSaid(c, s, t, said, r, text, []);
    UsersRecord(c, BroadcastRoom(c, t, r, text, []), r);
    LeadsSame(c, s, BroadcastRoom(c, t, r, text, []), BroadcastUsers(c, BroadcastRoom(c, t, r, text, []), r),
      said + [Said(r, text, [])]);
  }

  lemma {:induction false} LeadsListed(c: Config, s: Server, t: Server, said: seq<Said>)
    requires Leads(c, s, t, said)
    ensures Leads(c, s, BroadcastRoomLists(c, t), said)
  {
    hide Leads, SameRecord, BroadcastRoomLists;
    ListsRecord(c, t);
    LeadsSame(c, s, t, BroadcastRoomLists(c, t), said);
  }

  lemma {:induction false} LeadsEntered(c: Config, s: Server, t: Server, said: seq<Said>, r: RoomId, nick: Text, name: Text)
    requires Leads(c, s, t, said)
    ensures Leads(c, s, EnterNotice(c, t, r, nick, name), said + [Said(r, Entered(nick, name), [])])
  {
    hide Leads, BroadcastRoom, BroadcastUsers, BroadcastRoomLists;
    var text := Entered(nick, name);
    LeadsAnnounced(c, s, t, said, r, text);
    LeadsListed(c, s, BroadcastUsers(c, BroadcastRoom(c, t, r, text, []), r), said + [Said(r, text, [])]);
  }

  lemma {:induction false} LeadsLeft(c: Config, s: Server, t: Server, prev: RoomId, announce: bool, nick: Text, name: Text)
    requires SameRecord(s, t)
    ensures Leads(c, s, C.Farewell(c, t, announce, prev, nick, name),
              if announce && prev != 0 then [Said(prev, LeftFor(nick, name), [])] else [])
  {
    LeadsStart(c, s, t);
    hide Leads, SameRecord, BroadcastRoom, BroadcastUsers;
    LeadsAnnounced(c, s, t, [], prev, LeftFor(nick, name));
    assert [] + [Said(prev, LeftFor(nick, name), [])] == [Said(prev, LeftFor(nick, name), [])];
  }

  // ---- every action ----

  lemma MoveLeads(c: Config, s: Server, i: SessionId, target: RoomId, announce: bool)
    requires target in s.rooms
    ensures Leads(c, s, MoveSession(c, s, i, target, announce),
              MoveTexts(Of(s, i).activeRoom, target, announce, Of(s, i).nickname, s.rooms[target].name))
  {
    hide Leads, SameRecord, Reseat, C.Farewell, Replay, DeliverAll, EnterNotice, MoveSession;
    var prev, nick, room := Of(s, i).activeRoom, Of(s, i).nickname, s.rooms[target];
    var seated, joined := Reseat(s, i, target), RoomJoined(target, room.name, room.topic);
    C.MoveIs(c, s, i, target, announce);
    SeatRecord(s, i, target);
    LeadsLeft(c, s, seated, prev, announce, nick, room.name);
    var told := C.Farewell(c, seated, announce, prev, nick, room.name);
    var entered := Deliver(c, told, i, joined);
    var shown := Replay(c, entered, i, target, room.name, room.recent);
    DeliverRecord(c, told, {i}, joined);
    ReplayRecord(c, entered, i, target, room.name, room.recent);
    SameRecordTransitive(told, entered, shown);
    var left := if announce && prev != 0 then [Said(prev, LeftFor(nick, room.name), [])] else [];
    LeadsSame(c, s, told, shown, left);
    LeadsEntered(c, s, shown, left, target, nick, room.name);
  }

  lemma MoveHostLeads(c: Config, s: Server, target: RoomId)
    requires target in s.rooms
    ensures Leads(c, s, MoveLocal(c, s, target), MoveTexts(s.localRoomId, target, true, c.localNickname, s.rooms[target].name))
  {
    var prev, name, moved := s.localRoomId, s.rooms[target].name, s.(localRoomId := target);
    var told := C.Farewell(c, moved, true, prev, c.localNickname, name);
    MoveLocalIs(c, s, target);
    hide Leads, SameRecord, C.Farewell, EnterNotice, MoveLocal;
    HostRecord(s, target);
    LeadsLeft(c, s, moved, prev, true, c.localNickname, name);
    var left := if prev != 0 then [Said(prev, LeftFor(c.localNickname, name), [])] else [];
    LeadsEntered(c, s, told, left, target, c.localNickname, name);
  }

  lemma MoveLocalIs(c: Config, s: Server, target: RoomId)
    requires target in s.rooms
    ensures var name := s.rooms[target].name;
            MoveLocal(c, s, target) ==
              EnterNotice(c, C.Farewell(c, s.(localRoomId := target), true, s.localRoomId, c.localNickname, name), target,
                c.localNickname, name)
  {
    hide LeaveNotice, EnterNotice;
  }

  lemma DepartLeads(c: Config, s: Server, i: SessionId, announce: bool)
    requires Seats(s) && i in s.clients
    ensures Leads(c, s, Depart(c, s, i, announce), TextsOf(c, s, Go(i, announce)))
  {
    hide Leads, SameRecord, Seats, Unseat, Depart, BroadcastRoom, BroadcastUsers, BroadcastRoomLists;
    var prev, nick, out := s.clients[i].activeRoom, s.clients[i].nickname, Unseat(s, i);
    C.DepartIs(c, s, i, announce);
    SeatRecord(s, i, 0);
    LeadsStart(c, s, out);
    if prev != 0 {
      if announce && nick != [] {
        LeadsAnnounced(c, s, out, [], prev, Left(nick));
        assert [] + [Said(prev, Left(nick), [])] == [Said(prev, Left(nick), [])];
        LeadsListed(c, s, BroadcastUsers(c, BroadcastRoom(c, out, prev, Left(nick), []), prev), [Said(prev, Left(nick), [])]);
      } else {
        UsersRecord(c, out, prev);
        LeadsSame(c, s, out, BroadcastUsers(c, out, prev), []);
        LeadsListed(c, s, BroadcastUsers(c, out, prev), []);
      }
    }
  }

  /** An expulsion says nothing. */
  lemma ExpelLeads(c: Config, s: Server, i: SessionId, nick: Text, reason: Text)
    requires Seats(s) && i in s.clients
    ensures SameRecord(s, Expel(c, s, i, nick, reason))
  {
    hide SameRecord, Seats, Depart, DeliverAll, Close;
    var told := Deliver(c, s, i, Kick(nick, reason));
    DeliverRecord(c, s, {i}, Kick(nick, reason));
    CloseRecord(told, i);
    SameRecordTransitive(s, told, Close(told, i));
    ToldSeats(c, s, i, Kick(nick, reason));
    DepartLeads(c, Close(told, i), i, false);
    SameRecordTransitive(s, Close(told, i), Expel(c, s, i, nick, reason));
  }

  lemma CloseRecord(s: Server, i: SessionId)
    ensures SameRecord(s, Close(s, i))
  {
  }

  lemma ToldSeats(c: Config, s: Server, i: SessionId, m: ServerMessage)
    requires Seats(s) && i in s.clients
    ensures Seats(Close(Deliver(c, s, i, m), i)) && i in Close(Deliver(c, s, i, m), i).clients
  {
    hide Seats, Core, DeliverAll;
    var told := Deliver(c, s, i, m);
    DeliverAllCore(c, s, {i}, m);
    SameOfCore(s, told);
    SeatsKept(s, told);
    ClosedSeats(told, i);
    SeatsKept(told, Close(told, i));
  }

  lemma ClosedSeats(s: Server, i: SessionId)
    ensures SameSeats(s, Close(s, i)) && Close(s, i).clients.Keys == s.clients.Keys
  {
  }

  lemma BannedSeats(s: Server, nick: Text, reason: Text)
    requires Seats(s)
    ensures Seats(BanStored(s, nick, reason)) && BanStored(s, nick, reason).clients == s.clients
  {
    var banned := BanStored(s, nick, reason);
    assert SameSeats(s, banned);
    hide Seats, SameSeats;
    SeatsKept(s, banned);
  }

  lemma SoundSeats(c: Config, s: Server)
    requires Sound(c, s)
    ensures Seats(s) && s.sessions <= s.clients.Keys
  {
  }

  lemma VictimExists(c: Config, e: Input, s: Server, a: Action)
    requires Sound(c, s) && Allowed(c, e, s, a) && a.BanAway?
    ensures a.victim.Some? ==> a.victim.value in s.clients
  {
  }

  lemma BanAwayRecord(c: Config, e: Input, s: Server, a: Action)
    requires Sound(c, s) && Allowed(c, e, s, a) && a.BanAway?
    ensures SameRecord(Booked(s, a), Do(c, s, a))
  {
    hide Sound, Seats, Allowed, Expel, BanStored, BanReason, SameRecord;
    SoundSeats(c, s);
    VictimExists(c, e, s, a);
    BannedSeats(s, a.nickname, a.reason);
    if a.victim.Some? { ExpelLeads(c, BanStored(s, a.nickname, a.reason), a.victim.value, a.nickname, BanReason(a.reason)); }
    else { SameSelf(BanStored(s, a.nickname, a.reason)); }
  }

  lemma EnterRecord(c: Config, s: Server, i: SessionId)
    ensures SameRecord(Booked(s, Enter(i)), Admit(s, i))
  {
    var x := Of(s, i);
    hide Bind, With, SameRecord;
    WithRecord(Bind(s, x.pendingNickname, x.pendingKey), i,
      x.(nickname := x.pendingNickname, pendingNickname := [], pendingKey := [], pendingChallenge := []));
  }

  lemma BookRecord(c: Config, s: Server, a: Action)
    requires a.Enter? || a.Register? || a.Found? || a.Retitle? || a.LiftBan?
    ensures SameRecord(Booked(s, a), Do(c, s, a))
  {
    hide SameRecord, Admit, Bind, AddRoom, Unban, DeliverAll, WithRoom, Written;
    match a
    case Enter(i) => EnterRecord(c, s, i);
    case Retitle(r, topic) =>
      var renamed := Booked(s, a);
      SameSelf(s);
      if r in s.rooms { DeliverRecord(c, renamed, s.rooms[r].members, RoomTopic(r, topic)); }
    case _ => SameSelf(Do(c, s, a));
  }

  lemma FlagRecord(c: Config, s: Server, a: Action)
    requires IsFlagAction(a) || a.Open? || a.Enroll?
    ensures SameRecord(s, Do(c, s, a))
  {
    hide PostAll;
  }

  lemma ShowRecord(c: Config, s: Server, a: Action)
    requires IsTalk(a) && !a.Say?
    ensures SameRecord(s, Do(c, s, a))
  {
    hide SameRecord;
    match a
    case Tell(to, m) => DeliverRecord(c, s, to, m);
    case ShowTopic(i) => DeliverRecord(c, s, {i}, RoomTopic(Of(s, i).activeRoom, RoomOf(s, Of(s, i).activeRoom).topic));
    case ShowUsers(r) => UsersRecord(c, s, r);
    case ShowRooms => ListsRecord(c, s);
  }

  lemma PlaceRecord(c: Config, s: Server)
    ensures SameRecord(s, Do(c, s, PlaceHost))
  {
    hide SameRecord, BroadcastUsers;
    var placed := s.(localRoomId := LOBBY);
    HostRecord(s, LOBBY);
    UsersRecord(c, placed, LOBBY);
    SameRecordTransitive(s, placed, BroadcastUsers(c, placed, LOBBY));
  }

  lemma SeatActionIs(c: Config, e: Input, s: Server, a: Action)
    requires Allowed(c, e, s, a) && (a.Move? || a.Go?)
    ensures a.id in s.clients && (a.Move? ==> a.target in s.rooms && RoomOf(s, a.target) == s.rooms[a.target])
    ensures Do(c, s, a) == if a.Move? then MoveSession(c, s, a.id, a.target, a.announce) else Depart(c, s, a.id, a.announce)
  {
    hide MoveSession, Depart;
  }

  lemma SeatLeads(c: Config, e: Input, s: Server, a: Action)
    requires Sound(c, s) && Allowed(c, e, s, a) && (a.Move? || a.Go?)
    ensures Leads(c, s, Do(c, s, a), TextsOf(c, s, a))
  {
    SoundSeats(c, s);
    SeatActionIs(c, e, s, a);
    hide Sound, Seats, MoveSession, Depart, Do, Allowed, Leads, MoveTexts;
    if a.Move? { MoveLeads(c, s, a.id, a.target, a.announce); } else { DepartLeads(c, s, a.id, a.announce); }
  }

  lemma HostLeads(c: Config, e: Input, s: Server, a: Action)
    requires Allowed(c, e, s, a) && (a.PlaceHost? || a.MoveHost?)
    ensures Leads(c, s, Do(c, s, a), TextsOf(c, s, a))
  {
    hide Leads, MoveLocal, MoveTexts, SameRecord;
    match a
    case PlaceHost =>
      PlaceRecord(c, s);
      hide Do;
      LeadsStart(c, s, Do(c, s, PlaceHost));
    case MoveHost(target) => MoveHostLeads(c, s, target);
  }

  lemma SayLeads(c: Config, s: Server, r: RoomId, text: Text, nick: Text)
    ensures Leads(c, s, BroadcastRoom(c, s, r, text, nick), [Said(r, text, nick)])
  {
    SameSelf(s);
    LeadsStart(c, s, s);
    hide Leads, SameRecord, BroadcastRoom;
    LeadsSaid(c, s, s, [], r, text, nick);
    assert [] + [Said(r, text, nick)] == [Said(r, text, nick)];
  }

  lemma QuietIs(c: Config, s: Server, a: Action)
    ensures !a.Say? && !a.Move? && !a.Go? && !a.MoveHost? ==> TextsOf(c, s, a) == []
    ensures !a.Enter? && !a.Register? && !a.Found? && !a.Retitle? && !a.BanAway? && !a.LiftBan? ==> Booked(s, a) == s
  {
  }

  /** Every action, as far as the record goes, is a change of the books followed by its texts. */
  lemma ActionLeads(c: Config, e: Input, s: Server, a: Action)
    requires Sound(c, s) && Allowed(c, e, s, a)
    ensures Leads(c, Booked(s, a), Do(c, s, a), TextsOf(c, s, a))
  {
    QuietIs(c, s, a);
    hide Sound, Allowed, Leads, SameRecord, BroadcastRoom, TextsOf, Booked;
    if a.Say? { SayIs(c, s, a); SayLeads(c, s, a.room, a.text, a.nickname); }
    else {
      hide Do;
      if a.Move? || a.Go? { SeatLeads(c, e, s, a); }
      else if a.PlaceHost? || a.MoveHost? { HostLeads(c, e, s, a); }
      else {
        if IsTalk(a) { ShowRecord(c, s, a); }
        else if IsFlagAction(a) || a.Open? || a.Enroll? { FlagRecord(c, s, a); }
        else if a.BanAway? { BanAwayRecord(c, e, s, a); }
        else { BookRecord(c, s, a); }
        LeadsStart(c, Booked(s, a), Do(c, s, a));
      }
    }
  }

  lemma SayIs(c: Config, s: Server, a: Action)
    requires a.Say?
    ensures TextsOf(c, s, a) == [Said(a.room, a.text, a.nickname)]
  {
  }
}
