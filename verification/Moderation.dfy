/** Topics, kicks and bans: exactly when a request takes effect, and what everyone is told of it. */
module Moderation {
  import opened Octets
  import opened Messages
  import opened Ordering
  import opened Tables
  import opened ServerModel
  import opened ServerStructure
  import opened ServerActions
  import opened ServerPlans
  import opened ServerSafety
  import opened Persistence
  import opened Speech
  import opened Deliveries
  import opened Entrance
  import opened Moves
  import opened Talk
  import opened Departures
  import V = ClientView

  // ---- topics ----

  /** The topic of the room is set, stored, sent to everyone there, and remarked upon. */
  ghost predicate IsRetitled(c: Config, s: Server, t: Server, r: RoomId, actor: Text, topic: Text)
    requires r in s.rooms
  {
    var remark := "[system] " + actor + " changed the topic to: " + topic;
    && t.rooms == s.rooms[r := s.rooms[r].(topic := topic, recent := Kept(c, s.rooms[r].recent, remark))]
    && |t.writes| == |s.writes| + 2 && s.writes + [TopicWrite(r, topic)] <= t.writes
    && t.clients.Keys == s.clients.Keys && (forall j :: j in s.clients ==> Bare(t.clients[j]) == Bare(s.clients[j]))
    && t.sessions == s.sessions && t.bans == s.bans && t.identities == s.identities
    && t.nextRoomId == s.nextRoomId && t.localRoomId == s.localRoomId
    && forall j :: j in s.clients ==>
         Gets(c, s, t, j, if s.clients[j].activeRoom == r then [RoomTopic(r, topic), RoomText(r, remark)] else [])
  }

  /** Why the topic of a room may not be set, if so. */
  function TopicObstacle(s: Server, r: RoomId, actor: Text, privileged: bool, topic: Text): Option<Text>
  {
    if !IsValidRoomTopic(topic) then Some(BAD_TOPIC)
    else if r !in s.rooms then Some("The active room no longer exists")
    else if !privileged && s.rooms[r].owner != actor then Some(NOT_TOPIC_OWNER)
    else None
  }

  lemma SetTopicIs(c: Config, s: Server, r: RoomId, actor: Text, privileged: bool, topic: Text)
    ensures match TopicObstacle(s, r, actor, privileged, topic)
            case Some(error) => SetTopic(c, s, r, actor, privileged, topic) == Refused(error)
            case None =>
              && r in s.rooms
              && SetTopic(c, s, r, actor, privileged, topic)
                 == Done(BroadcastRoom(c, Retitled(c, s, r, topic), r, "[system] " + actor + " changed the topic to: " + topic, []))
  {
    hide IsValidRoomTopic, DeliverAll, BroadcastRoom, WithRoom, Written;
  }

  /** The change itself, before anyone is told. */
  function Retopic(s: Server, r: RoomId, topic: Text): Server
    requires r in s.rooms
  {
    s.(rooms := s.rooms[r := s.rooms[r].(topic := topic)], writes := s.writes + [TopicWrite(r, topic)])
  }

  lemma RetitledFields(c: Config, s: Server, r: RoomId, topic: Text)
    requires r in s.rooms
    ensures Retitled(c, s, r, topic) == DeliverAll(c, Retopic(s, r, topic), s.rooms[r].members, RoomTopic(r, topic))
    ensures var t := Retitled(c, s, r, topic);
      && t.rooms == Retopic(s, r, topic).rooms && t.writes == Retopic(s, r, topic).writes
      && t.(clients := s.clients, rooms := s.rooms, writes := s.writes) == s
  {
    hide PostAll;
  }

  lemma RetitledTold(c: Config, s: Server, r: RoomId, topic: Text, j: SessionId)
    requires Sound(c, s) && r in s.rooms && j in s.clients
    ensures var t := Retitled(c, s, r, topic);
      && Gets(c, s, t, j, if s.clients[j].activeRoom == r then [RoomTopic(r, topic)] else [])
      && j in t.clients && Bare(t.clients[j]) == Bare(s.clients[j])
  {
    RetitledFields(c, s, r, topic);
    MemberWhere(c, s, r, j);
    NextIsNotZero(c, s, r);
    hide Sound, Core, DeliverAll, Retitled, Gets, Bare;
    var u := Retopic(s, r, topic);
    DeliverGets(c, u, s.rooms[r].members, RoomTopic(r, topic), j);
    GetsNothing(c, s, u, j);
    var ms: seq<ServerMessage> := if j in s.rooms[r].members then [RoomTopic(r, topic)] else [];
    GetsThen(c, s, u, Retitled(c, s, r, topic), j, [], ms);
    assert [] + ms == ms;
    DeliverAllCore(c, u, s.rooms[r].members, RoomTopic(r, topic));
    CoreKeys(u, Retitled(c, s, r, topic));
  }

  lemma RetitledKeys(c: Config, s: Server, r: RoomId, topic: Text)
    requires r in s.rooms
    ensures Retitled(c, s, r, topic).clients.Keys == s.clients.Keys
  {
    hide PostAll;
  }

  /** A topic that may be set is. */
  lemma RetitleExactly(c: Config, s: Server, r: RoomId, actor: Text, topic: Text)
    requires Sound(c, s) && r in s.rooms && IsValidRoomTopic(topic)
    ensures var remark := "[system] " + actor + " changed the topic to: " + topic;
            IsRetitled(c, s, BroadcastRoom(c, Retitled(c, s, r, topic), r, remark, []), r, actor, topic)
  {
    hide Sound, BroadcastRoom, Retitled, Gets, Bare, IsValidRoomTopic;
    var remark := "[system] " + actor + " changed the topic to: " + topic;
    var u, t := Retitled(c, s, r, topic), BroadcastRoom(c, Retitled(c, s, r, topic), r, remark, []);
    RetitledFields(c, s, r, topic);
    RetitledKeys(c, s, r, topic);
    RetitleSound(c, s, r, topic);
    BroadcastExactly(c, u, r, remark, []);
    forall j | j in s.clients
      ensures Bare(t.clients[j]) == Bare(s.clients[j])
      ensures Gets(c, s, t, j, if s.clients[j].activeRoom == r then [RoomTopic(r, topic), RoomText(r, remark)] else [])
    {
      RetitledTold(c, s, r, topic, j);
      BareSeat(u.clients[j], s.clients[j]);
      var a: seq<ServerMessage>, b: seq<ServerMessage> :=
        if s.clients[j].activeRoom == r then [RoomTopic(r, topic)] else [],
        if s.clients[j].activeRoom == r then [RoomText(r, remark)] else [];
      GetsThen(c, s, u, t, j, a, b);
      assert a + b == if s.clients[j].activeRoom == r then [RoomTopic(r, topic), RoomText(r, remark)] else [];
    }
  }

  /** A member's request for another topic of its room takes effect exactly when it made the room and
      the topic is valid; otherwise it is told why not. */
  lemma TopicExactly(c: Config, s: Server, i: SessionId, topic: Text, env: Env)
    requires Sound(c, s) && IsMember(c, s, i)
    ensures var t, x := Step(c, s, Received(i, TopicRequest(Some(topic)), env)), s.clients[i];
      match TopicObstacle(s, x.activeRoom, x.nickname, false, topic)
      case Some(error) => OnlyTold(c, s, t, i, ServerError(error))
      case None => x.activeRoom in s.rooms && IsRetitled(c, s, t, x.activeRoom, x.nickname, topic)
  {
    hide Sound, BroadcastRoom, DeliverAll, SetTopic, IsRetitled, Retitled, Sent, IsValidRoomTopic;
    var x := s.clients[i];
    TopicStepIs(c, s, i, topic, env);
    hide Step, MayCommand;
    SetTopicIs(c, s, x.activeRoom, x.nickname, false, topic);
    match TopicObstacle(s, x.activeRoom, x.nickname, false, topic)
    case Some(error) => DeliverOne(c, s, i, ServerError(error));
    case None => RetitleExactly(c, s, x.activeRoom, x.nickname, topic);
  }

  lemma TopicStepIs(c: Config, s: Server, i: SessionId, topic: Text, env: Env)
    requires IsMember(c, s, i)
    ensures var x := s.clients[i];
      Step(c, s, Received(i, TopicRequest(Some(topic)), env)) == Answer(c, s, i, SetTopic(c, s, x.activeRoom, x.nickname, false, topic))
  {
    hide SetTopic, Answer;
  }

  /** The host's request for a topic of its room takes effect exactly when the topic is valid. */
  lemma HostTopicExactly(c: Config, s: Server, topic: Text)
    requires Sound(c, s)
    ensures var t := Step(c, s, SetLocalTopic(topic));
      if IsValidRoomTopic(topic) && s.localRoomId in s.rooms then IsRetitled(c, s, t, s.localRoomId, c.localNickname, topic) else t == s
  {
    hide Sound, BroadcastRoom, SetTopic, IsRetitled, Retitled, IsValidRoomTopic;
    SetTopicIs(c, s, s.localRoomId, c.localNickname, true, topic);
    if IsValidRoomTopic(topic) && s.localRoomId in s.rooms { RetitleExactly(c, s, s.localRoomId, c.localNickname, topic); }
  }

  /** The administrator's for the room of a name, likewise. */
  lemma AdminTopicExactly(c: Config, s: Server, name: Text, topic: Text)
    requires Sound(c, s)
    ensures var t := Step(c, s, SetAdminTopic(name, topic));
      && (forall r :: IsCalled(s, r, name) ==> if IsValidRoomTopic(topic) then IsRetitled(c, s, t, r, "server", topic) else t == s)
      && ((forall r :: !IsCalled(s, r, name)) ==> t == s)
  {
    hide Sound, BroadcastRoom, SetTopic, IsRetitled, Retitled, IsValidRoomTopic, IsCalled, NameExists, FindRoom;
    forall r | IsCalled(s, r, name)
      ensures r in s.rooms
      ensures if IsValidRoomTopic(topic) then IsRetitled(c, s, Step(c, s, SetAdminTopic(name, topic)), r, "server", topic)
              else Step(c, s, SetAdminTopic(name, topic)) == s
    {
      OnlyOneCalled(c, s, r, name);
      CalledIsRoom(s, r, name);
      SetTopicIs(c, s, r, "server", true, topic);
      if IsValidRoomTopic(topic) { RetitleExactly(c, s, r, "server", topic); }
    }
    if forall r :: !IsCalled(s, r, name) { NoneCalled(s, name); }
  }

  // ---- expulsion ----

  /** What session `j` is sent when `p` is put out of its room: the kick, or the new list of users, the
      room list, and the notice with the list again. */
  ghost function ExpulsionMessages(c: Config, s: Server, t: Server, p: SessionId, nick: Text, reason: Text, notice: Text, j: SessionId)
    : seq<ServerMessage>
    requires p in s.clients && j in s.clients
  {
    var r, y := s.clients[p].activeRoom, s.clients[j];
    var users, there := UserList(r, UserNames(c, t, r)), r != 0 && y.activeRoom == r;
    if j == p then [Kick(nick, reason)]
    else
      (if there then [users] else [])
      + (if r != 0 && j in s.sessions && y.nickname != [] then [RoomList(RoomSummaries(c, t))] else [])
      + (if there then [RoomText(r, notice), users] else [])
  }

  /** Session `p` is out of its room and of the registry and told why, and everyone there knows. */
  ghost predicate IsExpelled(c: Config, s: Server, t: Server, p: SessionId, nick: Text, reason: Text, notice: Text)
    requires p in s.clients
  {
    && Vacated(s, t, p, s.clients[p].(closing := true, activeRoom := 0))
    && (forall j :: j in s.clients ==> Gets(c, s, t, j, ExpulsionMessages(c, s, t, p, nick, reason, notice, j)))
    && Remembers(c, s, t, [Said(s.clients[p].activeRoom, notice, [])])
  }

  /** The expulsion and its notice, as the server makes them. */
  ghost function Expulsion(c: Config, s: Server, p: SessionId, nick: Text, reason: Text, notice: Text): Server
    requires p in s.clients
  {
    var r := s.clients[p].activeRoom;
    BroadcastUsers(c, BroadcastRoom(c, Expel(c, s, p, nick, reason), r, notice, []), r)
  }

  lemma ExpulsionCore(c: Config, s: Server, p: SessionId, nick: Text, reason: Text, notice: Text)
    requires Seats(s) && p in s.clients
    ensures Core(Expulsion(c, s, p, nick, reason, notice)) == Core(Unseat(Close(s, p), p))
    ensures Core(Expel(c, s, p, nick, reason)) == Core(Unseat(Close(s, p), p))
  {
    hide Seats, Core, Expel, Unseat, Close, BroadcastRoom, BroadcastUsers;
    var r, out := s.clients[p].activeRoom, Expel(c, s, p, nick, reason);
    NoRoomZero(s);
    ExpelCore(c, s, p, nick, reason);
    BroadcastRoomCore(c, out, r, notice, []);
    BroadcastUsersCore(c, BroadcastRoom(c, out, r, notice, []), r);
  }

  lemma ExpulsionRecent(c: Config, s: Server, p: SessionId, nick: Text, reason: Text, notice: Text)
    requires Seats(s) && p in s.clients
    ensures Remembers(c, s, Expulsion(c, s, p, nick, reason, notice), [Said(s.clients[p].activeRoom, notice, [])])
  {
    hide Seats, Expel, BroadcastRoom, BroadcastUsers, SameRecord, Leads, Recalled;
    var r, out := s.clients[p].activeRoom, Expel(c, s, p, nick, reason);
    ExpelLeads(c, s, p, nick, reason);
    LeadsStart(c, s, out);
    LeadsAnnounced(c, s, out, [], r, notice);
    assert [] + [Said(r, notice, [])] == [Said(r, notice, [])];
    LeadsRemembers(c, s, Expulsion(c, s, p, nick, reason, notice), [Said(r, notice, [])]);
  }

  lemma ExpulsionGets(c: Config, s: Server, p: SessionId, nick: Text, reason: Text, notice: Text, j: SessionId)
    requires Seats(s) && p in s.clients && j in s.clients
    ensures var t := Expulsion(c, s, p, nick, reason, notice); Gets(c, s, t, j, ExpulsionMessages(c, s, t, p, nick, reason, notice, j))
  {
    hide Seats, Core, Expel, Unseat, Close, BroadcastRoom, BroadcastUsers, Gets, ExpulsionMessages, ExpelMessages, Announced;
    var r, out := s.clients[p].activeRoom, Expel(c, s, p, nick, reason);
    var t := Expulsion(c, s, p, nick, reason, notice);
    ExpulsionCore(c, s, p, nick, reason, notice);
    ExpelGets(c, s, p, nick, reason, j);
    GetsKnown(c, s, out, j, ExpelMessages(c, s, out, p, nick, reason, j));
    AnnounceGets(c, out, r, notice, j);
    GetsThen(c, s, out, t, j, ExpelMessages(c, s, out, p, nick, reason, j), Announced(c, out, r, notice, j));
    ExpulsionSplits(c, s, out, t, p, nick, reason, notice, j);
  }

  lemma ExpulsionSplits(c: Config, s: Server, out: Server, t: Server, p: SessionId, nick: Text, reason: Text, notice: Text, j: SessionId)
    requires Seats(s) && p in s.clients && j in s.clients
    requires Core(out) == Core(Unseat(Close(s, p), p)) && Core(t) == Core(out)
    ensures ExpulsionMessages(c, s, t, p, nick, reason, notice, j)
         == ExpelMessages(c, s, out, p, nick, reason, j) + Announced(c, out, s.clients[p].activeRoom, notice, j)
  {
    hide Seats, Core, Unseat, Close, UserNames, RoomSummaries;
    var r := s.clients[p].activeRoom;
    ListsOfCore(c, out, t);
    V.UserNamesOfCore(c, out, t, r);
    MembersOfCore(out, Unseat(Close(s, p), p), r);
    ExpelledMembers(s, p, j);
  }

  lemma ExpelledMembers(s: Server, p: SessionId, j: SessionId)
    requires Seats(s) && p in s.clients && j in s.clients
    ensures var r := s.clients[p].activeRoom;
            j in RoomOf(Unseat(Close(s, p), p), r).members <==> r != 0 && j != p && s.clients[j].activeRoom == r
  {
  }

  lemma ExpulsionExactly(c: Config, s: Server, p: SessionId, nick: Text, reason: Text, notice: Text)
    requires Seats(s) && p in s.clients
    ensures IsExpelled(c, s, Expulsion(c, s, p, nick, reason, notice), p, nick, reason, notice)
  {
    hide Seats, Core, Unseat, Expulsion, Gets, ExpulsionMessages, Vacated, Remembers;
    var t := Expulsion(c, s, p, nick, reason, notice);
    ExpulsionCore(c, s, p, nick, reason, notice);
    VacatedOfCore(s, t, p, s.clients[p].(closing := true));
    ExpulsionRecent(c, s, p, nick, reason, notice);
    forall j | j in s.clients ensures Gets(c, s, t, j, ExpulsionMessages(c, s, t, p, nick, reason, notice, j)) {
      ExpulsionGets(c, s, p, nick, reason, notice, j);
    }
  }

  // ---- kicks ----

  function KickRemark(nick: Text, reason: Text): Text
  {
    if reason == [] then "[system] " + nick + " was kicked" else "[system] " + nick + " was kicked: " + reason
  }

  /** A member of the room under the nickname is expelled, if there is one. */
  ghost predicate IsKickedFrom(c: Config, s: Server, t: Server, r: RoomId, nick: Text, reason: Text)
  {
    if forall j :: !IsHere(s, r, j, nick) then t == s
    else exists p :: p in s.clients && IsHere(s, r, p, nick) && IsExpelled(c, s, t, p, nick, reason, KickRemark(nick, reason))
  }

  lemma KickRemarkIs(nick: Text, reason: Text)
    ensures KickRemark(nick, reason) == "[system] " + nick + " was kicked" + if reason == [] then "" else ": " + reason
  {
    var start: Text := "[system] " + nick;
    assert " was kicked: " == " was kicked" + ": ";
    assert start + " was kicked: " + reason == start + " was kicked" + (": " + reason);
    assert start + " was kicked" + [] == start + " was kicked";
  }

  lemma FirstPickIs(c: Config, s: Server, r: RoomId, n: Text)
    requires Sound(c, s) && r in s.rooms
    ensures IsPick(s, r, n, FirstNamed(s, Ordered(s.rooms[r].members), n))
  {
    hide Sound, FirstNamed, Ordered;
    NextIsNotZero(c, s, r);
    forall j | j in s.clients ensures j in s.rooms[r].members <==> s.clients[j].activeRoom == r {
      MemberWhere(c, s, r, j);
    }
    MembersKnown(c, s, r);
  }

  lemma KickTarget(c: Config, s: Server, r: RoomId, nick: Text, reason: Text) returns (p: Option<SessionId>)
    requires Sound(c, s) && r in s.rooms
    ensures IsPick(s, r, nick, p) && (p.Some? ==> p.value in s.clients)
    ensures KickInRoom(c, s, r, nick, reason) ==
              if p.None? then None else Some(Expulsion(c, s, p.value, nick, reason, KickRemark(nick, reason)))
  {
    FirstPickIs(c, s, r, nick);
    KickRemarkIs(nick, reason);
    hide Sound, Expel, BroadcastRoom, BroadcastUsers, FirstNamed, Ordered, KickRemark;
    p := FirstNamed(s, Ordered(s.rooms[r].members), nick);
    assert RoomOf(s, r).members == s.rooms[r].members;
  }

  lemma KickedExactly(c: Config, s: Server, r: RoomId, nick: Text, reason: Text)
    requires Sound(c, s) && r in s.rooms
    ensures var kicked := KickInRoom(c, s, r, nick, reason);
      && (kicked.None? <==> forall j :: !IsHere(s, r, j, nick))
      && IsKickedFrom(c, s, if kicked.Some? then kicked.value else s, r, nick, reason)
  {
    hide Sound, Seats, KickInRoom, Expulsion, IsExpelled, KickRemark, IsHere;
    SoundSeats(c, s);
    var p := KickTarget(c, s, r, nick, reason);
    if p.Some? { ExpulsionExactly(c, s, p.value, nick, reason, KickRemark(nick, reason)); }
  }

  /** What a member's request for a kick comes to. */
  ghost predicate KickLeadsTo(c: Config, s: Server, t: Server, i: SessionId, nick: Text, reason: Text)
    requires i in s.clients
  {
    var x := s.clients[i];
    if x.activeRoom !in s.rooms || s.rooms[x.activeRoom].owner != x.nickname then OnlyTold(c, s, t, i, ServerError(NOT_CREATOR))
    else if nick == x.nickname then OnlyTold(c, s, t, i, ServerError("You cannot kick yourself"))
    else if forall j :: !IsHere(s, x.activeRoom, j, nick) then OnlyTold(c, s, t, i, ServerError(NotThere(nick)))
    else IsKickedFrom(c, s, t, x.activeRoom, nick, reason)
  }

  function NotThere(nick: Text): Text { "User '" + nick + "' is not in this room" }

  lemma KickStepIs(c: Config, s: Server, i: SessionId, nick: Text, reason: Text, env: Env)
    requires IsMember(c, s, i)
    ensures Step(c, s, Received(i, KickRequest(nick, reason), env)) == Answer(c, s, i, KickFor(c, s, i, nick, reason))
  {
    hide KickFor, Answer;
  }

  lemma KickForReplies(c: Config, s: Server, i: SessionId, nick: Text, reason: Text)
    requires i in s.clients
    ensures var x := s.clients[i];
      KickFor(c, s, i, nick, reason) ==
        if x.activeRoom !in s.rooms || s.rooms[x.activeRoom].owner != x.nickname then Refused(NOT_CREATOR)
        else if nick == x.nickname then Refused("You cannot kick yourself")
        else match KickInRoom(c, s, x.activeRoom, nick, reason)
             case None => Refused(NotThere(nick))
             case Some(t) => Done(t)
  {
    hide KickInRoom;
  }

  /** A member's request for a kick takes effect exactly when it made the room it is in and names
      another who is there; otherwise it is told why not. */
  lemma KickExactly(c: Config, s: Server, i: SessionId, nick: Text, reason: Text, env: Env)
    requires Sound(c, s) && IsMember(c, s, i)
    ensures KickLeadsTo(c, s, Step(c, s, Received(i, KickRequest(nick, reason), env)), i, nick, reason)
  {
    hide Sound, Step, KickFor, KickInRoom, IsKickedFrom, Sent, DeliverAll, MayCommand, NotThere;
    var x := s.clients[i];
    KickStepIs(c, s, i, nick, reason, env);
    KickForReplies(c, s, i, nick, reason);
    DeliverOne(c, s, i, ServerError(NOT_CREATOR));
    DeliverOne(c, s, i, ServerError("You cannot kick yourself"));
    DeliverOne(c, s, i, ServerError(NotThere(nick)));
    if x.activeRoom in s.rooms { KickedExactly(c, s, x.activeRoom, nick, reason); }
  }

  /** The administrator's kick from the room of a name. */
  lemma AdminKickExactly(c: Config, s: Server, name: Text, nick: Text, reason: Text)
    requires Sound(c, s)
    ensures var t := Step(c, s, KickUserInRoom(name, nick, reason));
      && (forall r :: IsCalled(s, r, name) ==> IsKickedFrom(c, s, t, r, nick, reason))
      && ((forall r :: !IsCalled(s, r, name)) ==> t == s)
  {
    hide Sound, KickInRoom, IsKickedFrom, IsCalled, NameExists, FindRoom;
    forall r | IsCalled(s, r, name)
      ensures IsKickedFrom(c, s, Step(c, s, KickUserInRoom(name, nick, reason)), r, nick, reason)
    {
      OnlyOneCalled(c, s, r, name);
      CalledIsRoom(s, r, name);
      KickedExactly(c, s, r, nick, reason);
    }
    if forall r :: !IsCalled(s, r, name) { NoneCalled(s, name); }
  }

  /** The host's kick, from the room the host is in; or, while it is in none, from the room of the
      registered session with the nickname, if there is one. */
  lemma HostKickExactly(c: Config, s: Server, nick: Text, reason: Text)
    requires Sound(c, s)
    ensures var t := Step(c, s, KickUser(nick, reason));
      && (s.localRoomId != 0 ==> IsKickedFrom(c, s, t, s.localRoomId, nick, reason))
      && (s.localRoomId == 0 && nick == [] ==> t == s)
      && (s.localRoomId == 0 && nick != [] ==>
            && (forall p :: p in s.sessions && p in s.clients && s.clients[p].nickname == nick && s.clients[p].activeRoom != 0 ==>
                  IsKickedFrom(c, s, t, s.clients[p].activeRoom, nick, reason))
            && ((forall p :: p in s.sessions && p in s.clients && s.clients[p].nickname == nick ==> s.clients[p].activeRoom == 0) ==>
                  t == s))
  {
    RoomForIs(c, s, nick);
    HostRoomThere(c, s);
    hide Sound, KickInRoom, IsKickedFrom, RoomFor;
    var r := RoomFor(s, nick);
    if r != 0 {
      KickedExactly(c, s, r, nick, reason);
    }
  }

  lemma HostRoomThere(c: Config, s: Server)
    requires Sound(c, s)
    ensures s.localRoomId != 0 ==> s.localRoomId in s.rooms
  {
    hide Seats, DistinctNames, Handles, IsValidRoomName, IsValidRoomTopic, Lower;
  }

  lemma RoomForIs(c: Config, s: Server, nick: Text)
    requires Sound(c, s)
    ensures s.localRoomId != 0 ==> RoomFor(s, nick) == s.localRoomId
    ensures s.localRoomId == 0 && nick != [] ==>
      && (forall p :: p in s.sessions && p in s.clients && s.clients[p].nickname == nick ==> RoomFor(s, nick) == s.clients[p].activeRoom)
      && ((forall p :: p in s.sessions && p in s.clients ==> s.clients[p].nickname != nick) ==> RoomFor(s, nick) == 0)
    ensures s.localRoomId == 0 && nick == [] ==> RoomFor(s, nick) == 0
    ensures RoomFor(s, nick) == 0 || RoomFor(s, nick) in s.rooms
  {
    assert s.sessions <= s.clients.Keys;
    hide RoomTable, Handles, FirstNamed, Ordered;
    var found := FirstNamed(s, Ordered(s.sessions), nick);
    HostRoomThere(c, s);
    if found.Some? {
      assert found.value in s.sessions;
      if nick == [] { NamelessFacts(c, s, found.value); }
    }
    forall p | p in s.sessions ensures p in Ordered(s.sessions) { OrderedHas(s.sessions, p); }
  }

  lemma OrderedHas(s: set<nat>, p: nat)
    requires p in s
    ensures p in Ordered(s)
  {
    hide Ordered;
  }

  // ---- bans ----

  function WithBan(s: Server, nick: Text, reason: Text): Server
  {
    s.(bans := s.bans + {nick}, writes := s.writes + [BanWrite(nick, reason)])
  }

  /** A registered session under the nickname. */
  predicate IsBearer(s: Server, p: SessionId, nick: Text) { p in s.sessions && p in s.clients && s.clients[p].nickname == nick }

  function BanRemark(nick: Text): Text { "[system] " + nick + " has been banned" }

  function BanWords(reason: Text): Text { if reason == [] then "banned" else reason }

  lemma BanStepIs(c: Config, s: Server, nick: Text, reason: Text)
    requires s.sessions <= s.clients.Keys
    ensures var p := FirstNamed(s, Ordered(s.sessions), nick);
      && (p.Some? ==> p.value in WithBan(s, nick, reason).clients)
      && Step(c, s, BanUser(nick, reason)) ==
           if p.None? then WithBan(s, nick, reason)
           else Expulsion(c, WithBan(s, nick, reason), p.value, nick, BanWords(reason), BanRemark(nick))
  {
    hide Step, Ban, Expel, BroadcastRoom, BroadcastUsers, FirstNamed, Ordered, BanStored, BanReason, BanWords, WithBan;
    BanIs(c, s, nick, reason);
    BanUnfolds(c, s, nick, reason);
    BanPartsAre(s, nick, reason);
  }

  lemma BanIs(c: Config, s: Server, nick: Text, reason: Text)
    ensures Step(c, s, BanUser(nick, reason)) == Ban(c, s, nick, reason)
  {
    hide Ban;
  }

  lemma BanPartsAre(s: Server, nick: Text, reason: Text)
    ensures BanStored(s, nick, reason) == WithBan(s, nick, reason) && WithBan(s, nick, reason).clients == s.clients
    ensures BanReason(reason) == BanWords(reason)
  {
  }

  lemma BanPick(s: Server, nick: Text) returns (p: Option<SessionId>)
    requires s.sessions <= s.clients.Keys
    ensures p == FirstNamed(s, Ordered(s.sessions), nick)
    ensures match p
            case Some(j) => IsBearer(s, j, nick)
            case None => forall j :: !IsBearer(s, j, nick)
  {
    hide FirstNamed, Ordered;
    p := FirstNamed(s, Ordered(s.sessions), nick);
    forall j | j in s.sessions ensures j in Ordered(s.sessions) { OrderedHas(s.sessions, j); }
  }

  /** The ban is recorded and stored, and the session registered under the nickname, if there is one, is
      expelled. */
  ghost predicate IsBannedNow(c: Config, s: Server, t: Server, nick: Text, reason: Text)
  {
    var u := WithBan(s, nick, reason);
    if forall j :: !IsBearer(s, j, nick) then t == u
    else exists p :: p in u.clients && IsBearer(s, p, nick) && IsExpelled(c, u, t, p, nick, BanWords(reason), BanRemark(nick))
  }

  lemma BanExactly(c: Config, s: Server, nick: Text, reason: Text)
    requires Sound(c, s)
    ensures IsBannedNow(c, s, Step(c, s, BanUser(nick, reason)), nick, reason)
  {
    hide Sound, Seats, Step, Expulsion, IsExpelled, WithBan, IsBearer, FirstNamed, Ordered;
    SoundSeats(c, s);
    WithBanSeats(s, nick, reason);
    BanStepIs(c, s, nick, reason);
    var p := BanPick(s, nick);
    if p.Some? { ExpulsionExactly(c, WithBan(s, nick, reason), p.value, nick, BanWords(reason), BanRemark(nick)); }
  }

  lemma WithBanSeats(s: Server, nick: Text, reason: Text)
    requires Seats(s)
    ensures Seats(WithBan(s, nick, reason)) && WithBan(s, nick, reason).clients == s.clients
  {
    var t := WithBan(s, nick, reason);
    assert SameSeats(s, t);
    hide Seats, SameSeats;
    SeatsKept(s, t);
  }

  /** Lifting a ban does that, and nothing else. */
  lemma UnbanExactly(c: Config, s: Server, nick: Text)
    ensures Step(c, s, UnbanUser(nick)) ==
      if nick in s.bans then s.(bans := s.bans - {nick}, writes := s.writes + [BanRemove(nick)]) else s
  {
  }
}
