/** What is left of a session that goes: who is told, what the room it was in remembers, and that
    everyone else stays. */
module Departures {
  import opened Messages
  import opened Ordering
  import opened ServerModel
  import opened ServerStructure
  import opened ServerActions
  import opened Speech
  import opened Deliveries
  import opened Entrance
  import opened Moves
  import V = ClientView

  /** Session `i` is out of the registry and of its room, and is `x` now; nobody else is elsewhere. */
  ghost predicate Vacated(s: Server, t: Server, i: SessionId, x: Session)
    requires i in s.clients
  {
    && t.clients.Keys == s.clients.Keys && t.sessions == s.sessions - {i} && t.bans == s.bans && t.identities == s.identities
    && t.nextRoomId == s.nextRoomId && t.localRoomId == s.localRoomId && t.rooms.Keys == s.rooms.Keys
    && (forall j :: j in s.clients ==> Bare(t.clients[j]) == Bare(if j == i then x else s.clients[j]))
    && forall q :: q in s.rooms ==>
         && t.rooms[q].name == s.rooms[q].name && t.rooms[q].topic == s.rooms[q].topic && t.rooms[q].owner == s.rooms[q].owner
         && t.rooms[q].members == if q == s.clients[i].activeRoom then s.rooms[q].members - {i} else s.rooms[q].members
  }

  function Changed(s: Server, i: SessionId, x: Session): Server { s.(clients := s.clients[i := x]) }

  lemma VacatedFields(s: Server, i: SessionId, x: Session)
    requires Seats(s) && i in s.clients && x.activeRoom == s.clients[i].activeRoom
    ensures Vacated(s, Unseat(Changed(s, i, x), i), i, x.(activeRoom := 0))
  {
    UnseatParts(s, i, x);
    hide Seats, Unseat, Bare;
  }

  lemma UnseatParts(s: Server, i: SessionId, x: Session)
    requires Seats(s) && i in s.clients && x.activeRoom == s.clients[i].activeRoom
    ensures var u, r := Unseat(Changed(s, i, x), i), s.clients[i].activeRoom;
      && u.clients == s.clients[i := x.(activeRoom := 0)] && u.sessions == s.sessions - {i}
      && u.bans == s.bans && u.identities == s.identities && u.nextRoomId == s.nextRoomId && u.localRoomId == s.localRoomId
      && u.rooms.Keys == s.rooms.Keys
      && forall q :: q in s.rooms ==> u.rooms[q] == if q == r then s.rooms[q].(members := s.rooms[q].members - {i}) else s.rooms[q]
  {
  }

  lemma VacatedOfCore(s: Server, t: Server, i: SessionId, x: Session)
    requires Seats(s) && i in s.clients && x.activeRoom == s.clients[i].activeRoom
    requires Core(t) == Core(Unseat(Changed(s, i, x), i))
    ensures Vacated(s, t, i, x.(activeRoom := 0))
  {
    hide Seats, Core, Unseat, Bare, BareRoom;
    var u := Unseat(Changed(s, i, x), i);
    VacatedFields(s, i, x);
    CoreKeys(u, t);
    CoreFields(u, t);
    forall q | q in s.rooms
      ensures t.rooms[q].name == u.rooms[q].name && t.rooms[q].topic == u.rooms[q].topic
      ensures t.rooms[q].owner == u.rooms[q].owner && t.rooms[q].members == u.rooms[q].members
    {
      BareRoomIs(u.rooms[q], t.rooms[q]);
    }
  }

  // ---- leaving for good ----

  /** Session `i` has been told `told` and is gone; its room has been told, aloud if `announce` says so
      and it had a nickname. */
  ghost predicate HasLeft(c: Config, s: Server, t: Server, i: SessionId, announce: bool, told: seq<ServerMessage>, closing: bool)
    requires i in s.clients
  {
    var x := s.clients[i];
    && Vacated(s, t, i, x.(closing := closing, phase := Stopped, activeRoom := 0))
    && (forall j :: j in s.clients ==> Gets(c, s, t, j, (if j == i then told else []) + DepartMessages(c, s, t, i, announce, j)))
    && Remembers(c, s, t, LeavingNotice(x, announce))
  }

  function LeavingNotice(x: Session, announce: bool): seq<Said>
  {
    if announce && x.nickname != [] && x.activeRoom != 0 then [Said(x.activeRoom, "[system] " + x.nickname + " left", [])] else []
  }

  function Told(c: Config, x: Session, told: seq<ServerMessage>, closing: bool): Session
  {
    x.(closing := closing, outbox := x.outbox + Framed(c, told))
  }

  function Ended(s: Server, i: SessionId, closing: bool): Server
    requires i in s.clients
  {
    Changed(s, i, s.clients[i].(closing := closing, phase := Stopped))
  }

  lemma VacatedThen(s: Server, t: Server, i: SessionId, x: Session, closing: bool)
    requires i in s.clients && Vacated(s, t, i, x)
    ensures i in t.clients && Vacated(s, Ended(t, i, closing), i, x.(closing := closing, phase := Stopped))
  {
    BareChange(t.clients[i], x, closing);
    hide Bare;
  }

  lemma BareChange(x: Session, y: Session, closing: bool)
    requires Bare(x) == Bare(y)
    ensures Bare(x.(closing := closing, phase := Stopped)) == Bare(y.(closing := closing, phase := Stopped))
  {
    assert Bare(x).(closing := closing, phase := Stopped) == Bare(y).(closing := closing, phase := Stopped);
  }

  lemma EndedLists(c: Config, s: Server, i: SessionId, closing: bool, r: RoomId)
    requires i in s.clients
    ensures UserNames(c, Ended(s, i, closing), r) == UserNames(c, s, r)
    ensures RoomSummaries(c, Ended(s, i, closing)) == RoomSummaries(c, s)
  {
    hide UserNames, RoomSummaries;
    StoppedLists(c, s, i, r);
    ClosedLists(c, Stop(s, i), i, closing, r);
    assert Ended(s, i, closing) == Changed(Stop(s, i), i, Stop(s, i).clients[i].(closing := closing));
  }

  lemma ClosedLists(c: Config, s: Server, i: SessionId, closing: bool, r: RoomId)
    requires i in s.clients
    ensures var t := Changed(s, i, s.clients[i].(closing := closing));
            UserNames(c, t, r) == UserNames(c, s, r) && RoomSummaries(c, t) == RoomSummaries(c, s)
  {
    var t := Changed(s, i, s.clients[i].(closing := closing));
    hide UserNames, Ordered;
    V.SameUsers(c, s, t, r);
    forall q ensures Summary(c, t, q) == Summary(c, s, q) {
    }
  }

  lemma ToldSeated(c: Config, s: Server, i: SessionId, told: seq<ServerMessage>, closing: bool)
    requires Seats(s) && i in s.clients
    ensures var u := Changed(s, i, Told(c, s.clients[i], told, closing));
      && Seats(u) && 0 !in u.rooms
      && forall j :: j in s.clients ==> Gets(c, s, u, j, if j == i then told else [])
  {
    var u := Changed(s, i, Told(c, s.clients[i], told, closing));
    NoRoomZero(s);
    assert SameSeats(s, u);
    hide Seats, SameSeats;
    SeatsKept(s, u);
  }

  lemma DepartMessagesKept(c: Config, s: Server, u: Server, t: Server, v: Server, i: SessionId, announce: bool, j: SessionId)
    requires i in s.clients && j in s.clients && i in u.clients && j in u.clients && u.sessions == s.sessions
    requires u.clients[i].activeRoom == s.clients[i].activeRoom && u.clients[i].nickname == s.clients[i].nickname
    requires u.clients[j].activeRoom == s.clients[j].activeRoom && u.clients[j].nickname == s.clients[j].nickname
    requires UserNames(c, t, s.clients[i].activeRoom) == UserNames(c, v, s.clients[i].activeRoom)
    requires RoomSummaries(c, t) == RoomSummaries(c, v)
    ensures DepartMessages(c, u, t, i, announce, j) == DepartMessages(c, s, v, i, announce, j)
  {
    hide UserNames, RoomSummaries;
  }

  lemma LeftGets(c: Config, s: Server, i: SessionId, announce: bool, told: seq<ServerMessage>, first: bool, closing: bool, j: SessionId)
    requires Seats(s) && i in s.clients && j in s.clients
    ensures var d := Depart(c, Changed(s, i, Told(c, s.clients[i], told, first)), i, announce);
      i in d.clients
      && Gets(c, s, Ended(d, i, closing), j,
           (if j == i then told else []) + DepartMessages(c, s, Ended(d, i, closing), i, announce, j))
  {
    hide Seats, Core, Depart, Gets, UserNames, RoomSummaries, Framed, Unseat, DepartMessages, Vacated;
    var x := Told(c, s.clients[i], told, first);
    var u := Changed(s, i, x);
    ToldSeated(c, s, i, told, first);
    var d := Depart(c, u, i, announce);
    DepartCore(c, u, i, announce);
    VacatedOfCore(s, d, i, x);
    VacatedThen(s, d, i, x.(activeRoom := 0), closing);
    var t := Ended(d, i, closing);
    EndedLists(c, d, i, closing, s.clients[i].activeRoom);
    DepartMessagesKept(c, s, u, d, t, i, announce, j);
    DepartGets(c, u, i, announce, j);
    var a: seq<ServerMessage>, b := if j == i then told else [], DepartMessages(c, s, t, i, announce, j);
    GetsThen(c, s, u, d, j, a, b);
    GetsKnown(c, s, d, j, a + b);
    GetsNothing(c, d, t, j);
    GetsThen(c, s, d, t, j, a + b, []);
    assert a + b + [] == a + b;
  }

  lemma LeavingSaid(c: Config, s: Server, i: SessionId, announce: bool)
    requires i in s.clients
    ensures TextsOf(c, s, Go(i, announce)) == LeavingNotice(s.clients[i], announce)
  {
  }

  lemma LeftRemembers(c: Config, s: Server, i: SessionId, announce: bool, told: seq<ServerMessage>, first: bool, closing: bool)
    requires Seats(s) && i in s.clients
    ensures var d := Depart(c, Changed(s, i, Told(c, s.clients[i], told, first)), i, announce);
      i in d.clients ==> Remembers(c, s, Ended(d, i, closing), LeavingNotice(s.clients[i], announce))
  {
    hide Seats, Depart, Framed, TextsOf, LeavingNotice, Leads, Recalled, Gets;
    var x := Told(c, s.clients[i], told, first);
    var u := Changed(s, i, x);
    ToldSeated(c, s, i, told, first);
    DepartLeads(c, u, i, announce);
    LeavingSaid(c, u, i, announce);
    LeadsRemembers(c, u, Depart(c, u, i, announce), LeavingNotice(x, announce));
    SameNotice(s.clients[i], x, announce);
  }

  lemma SameNotice(x: Session, y: Session, announce: bool)
    requires x.nickname == y.nickname && x.activeRoom == y.activeRoom
    ensures LeavingNotice(x, announce) == LeavingNotice(y, announce)
  {
  }

  lemma LeftIs(c: Config, s: Server, i: SessionId, announce: bool, told: seq<ServerMessage>, first: bool, closing: bool)
    requires Seats(s) && i in s.clients
    ensures var d := Depart(c, Changed(s, i, Told(c, s.clients[i], told, first)), i, announce);
            i in d.clients && HasLeft(c, s, Ended(d, i, closing), i, announce, told, closing)
  {
    hide Seats, Core, Depart, Gets, Framed, Unseat, DepartMessages, Vacated, Remembers;
    var x := Told(c, s.clients[i], told, first);
    var u := Changed(s, i, x);
    ToldSeated(c, s, i, told, first);
    DepartCore(c, u, i, announce);
    VacatedOfCore(s, Depart(c, u, i, announce), i, x);
    VacatedThen(s, Depart(c, u, i, announce), i, x.(activeRoom := 0), closing);
    VacatedBare(s, Ended(Depart(c, u, i, announce), i, closing), i,
      x.(closing := closing, phase := Stopped, activeRoom := 0),
      s.clients[i].(closing := closing, phase := Stopped, activeRoom := 0));
    LeftRemembers(c, s, i, announce, told, first, closing);
    forall j | j in s.clients
      ensures var t := Ended(Depart(c, u, i, announce), i, closing);
              Gets(c, s, t, j, (if j == i then told else []) + DepartMessages(c, s, t, i, announce, j))
    {
      LeftGets(c, s, i, announce, told, first, closing, j);
    }
  }

  lemma VacatedBare(s: Server, t: Server, i: SessionId, x: Session, y: Session)
    requires i in s.clients && Vacated(s, t, i, x) && x.(outbox := y.outbox) == y
    ensures Vacated(s, t, i, y)
  {
    assert Bare(x) == Bare(y);
  }

  // ---- the three ways of going ----

  /** A session that is dropped is told why, closed after that, and gone without a word in its room. */
  lemma DropExactly(c: Config, s: Server, i: SessionId, m: ServerMessage)
    requires Seats(s) && i in s.clients
    ensures HasLeft(c, s, Drop(c, s, i, m), i, false, [m], true)
  {
    hide Seats, DeliverAll, Depart, Framed, HasLeft;
    DeliverOne(c, s, i, m);
    var u := Changed(s, i, Told(c, s.clients[i], [m], true));
    assert Close(Deliver(c, s, i, m), i) == u;
    LeftIs(c, s, i, false, [m], true, true);
    DepartStays(c, s, i, false, [m], true);
    StopIs(Depart(c, u, i, false), i);
  }

  lemma DepartStays(c: Config, s: Server, i: SessionId, announce: bool, told: seq<ServerMessage>, first: bool)
    requires Seats(s) && i in s.clients
    ensures var d := Depart(c, Changed(s, i, Told(c, s.clients[i], told, first)), i, announce);
            i in d.clients && d.clients[i].closing == first
  {
    hide Seats, Core, Depart, Gets, Framed, Unseat;
    var x := Told(c, s.clients[i], told, first);
    var u := Changed(s, i, x);
    ToldSeated(c, s, i, told, first);
    DepartCore(c, u, i, announce);
    VacatedOfCore(s, Depart(c, u, i, announce), i, x);
    BareClosing(Depart(c, u, i, announce).clients[i], x.(activeRoom := 0));
  }

  lemma BareClosing(x: Session, y: Session)
    requires Bare(x) == Bare(y)
    ensures x.closing == y.closing
  {
    assert Bare(x).closing == x.closing;
  }

  lemma StopIs(s: Server, i: SessionId)
    requires i in s.clients
    ensures Stop(s, i) == Ended(s, i, s.clients[i].closing) && Stop(Close(s, i), i) == Ended(s, i, true)
  {
    assert s.clients[i := s.clients[i].(closing := true)][i := s.clients[i].(closing := true, phase := Stopped)]
        == s.clients[i := s.clients[i].(closing := true, phase := Stopped)];
  }

  lemma NothingTold(c: Config, s: Server, i: SessionId)
    requires i in s.clients
    ensures Changed(s, i, Told(c, s.clients[i], [], s.clients[i].closing)) == s
  {
    assert s.clients[i].outbox + [] == s.clients[i].outbox;
    assert s.clients[i := s.clients[i]] == s.clients;
  }

  /** A session whose connection fails is gone; its room hears of it if it had a nickname, unless the
      server closed the connection. */
  lemma LostExactly(c: Config, s: Server, i: SessionId, announce: bool)
    requires Seats(s) && i in s.clients
    ensures HasLeft(c, s, Step(c, s, ReadFailed(i, announce)), i, announce, [], s.clients[i].closing)
    ensures HasLeft(c, s, Step(c, s, HandshakeDone(i, false)), i, false, [], s.clients[i].closing)
  {
    hide Seats, Depart, Framed, HasLeft;
    var closing := s.clients[i].closing;
    NothingTold(c, s, i);
    LeftIs(c, s, i, announce, [], closing, closing);
    LeftIs(c, s, i, false, [], closing, closing);
    DepartStays(c, s, i, announce, [], closing);
    DepartStays(c, s, i, false, [], closing);
    StopIs(Depart(c, s, i, announce), i);
    StopIs(Depart(c, s, i, false), i);
  }

  /** A session that says goodbye is closed and gone, and its room hears of it if it had a nickname. */
  lemma DisconnectExactly(c: Config, s: Server, i: SessionId, env: Env)
    requires Seats(s) && i in s.clients && MayCommand(c, s.clients[i])
    ensures HasLeft(c, s, Step(c, s, Received(i, Disconnect, env)), i, true, [], true)
  {
    hide Seats, Depart, Framed, HasLeft, Step;
    DisconnectStepIs(c, s, i, env);
    NothingTold(c, s, i);
    LeftIs(c, s, i, true, [], s.clients[i].closing, true);
    StopIs(Depart(c, s, i, true), i);
  }

  lemma DisconnectStepIs(c: Config, s: Server, i: SessionId, env: Env)
    requires i in s.clients && MayCommand(c, s.clients[i])
    ensures Step(c, s, Received(i, Disconnect, env)) == Stop(Close(Depart(c, s, i, true), i), i)
  {
    hide Depart, Close, Stop;
  }
}
