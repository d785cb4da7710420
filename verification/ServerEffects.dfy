/** What a step of the server can touch: which of its actions reach a session's seat, a room's topic
    or a session's quota, and that everything else about them stays. */
module ServerEffects {
  import opened Octets
  import opened Messages
  import opened Ordering
  import opened Tables
  import opened ServerModel
  import opened ServerStructure
  import opened ServerActions
  import opened ServerPlans
  import opened ServerSafety
  import opened ServerReach
  import RateLimit

  /** The room a session is in, a room's topic, or a session's quota queues. */
  datatype Subject = Seat(session: SessionId) | Title(room: RoomId) | Quota(session: SessionId)

  /** The action may change the subject. */
  predicate Hits(a: Action, k: Subject)
  {
    match k
    case Seat(j) =>
      (a.Move? && a.id == j) || (a.Go? && a.id == j) || (a.Enroll? && a.id == j) || (a.BanAway? && a.victim == Some(j))
    case Title(r) => a.Retitle? && a.room == r
    case Quota(j) => (a.Count? && a.id == j) || (a.Enroll? && a.id == j)
  }

  ghost predicate SubjectStays(s: Server, t: Server, k: Subject)
  {
    match k
    case Seat(j) => j in s.clients ==> j in t.clients && t.clients[j].activeRoom == s.clients[j].activeRoom
    case Title(r) => r in s.rooms ==> r in t.rooms && t.rooms[r].topic == s.rooms[r].topic
    case Quota(j) => j in s.clients ==> j in t.clients && t.clients[j].quota == s.clients[j].quota
  }

  /** No room is gone or renamed or has another owner, and the subject is as it was. */
  ghost predicate Steady(s: Server, t: Server, k: Subject)
  {
    && (forall q :: q in s.rooms ==> q in t.rooms && t.rooms[q].name == s.rooms[q].name && t.rooms[q].owner == s.rooms[q].owner)
    && SubjectStays(s, t, k)
  }

  lemma SteadyTransitive(s: Server, t: Server, u: Server, k: Subject)
    requires Steady(s, t, k) && Steady(t, u, k)
    ensures Steady(s, u, k)
  {
  }

  lemma BareQuota(x: Session, y: Session)
    requires Bare(x) == Bare(y)
    ensures x.quota == y.quota
  {
  }

  lemma CoreSteady(s: Server, t: Server, k: Subject)
    requires Core(s) == Core(t)
    ensures Steady(s, t, k)
  {
    SameOfCore(s, t);
    CoreKeys(s, t);
    hide Core, Bare;
    forall q | q in s.rooms ensures t.rooms[q].owner == s.rooms[q].owner {
      assert BareRoom(s.rooms[q]) == BareRoom(t.rooms[q]);
    }
    if k.Quota? && k.session in s.clients { BareQuota(s.clients[k.session], t.clients[k.session]); }
  }

  lemma SeatSteady(s: Server, i: SessionId, target: RoomId, k: Subject)
    requires i in s.clients && k != Seat(i)
    ensures Steady(s, Unseat(s, i), k)
    ensures target in s.rooms ==> Steady(s, Reseat(s, i, target), k)
  {
  }

  lemma CloseSteady(s: Server, nick: Text, reason: Text, i: SessionId, k: Subject)
    ensures Steady(s, BanStored(s, nick, reason), k)
    ensures Steady(s, Close(BanStored(s, nick, reason), i), k)
    ensures Close(BanStored(s, nick, reason), i).clients.Keys == s.clients.Keys
    ensures BanStored(s, nick, reason).rooms == s.rooms
  {
  }

  lemma VictimKnown(c: Config, e: Input, s: Server, a: Action)
    requires Sound(c, s) && Allowed(c, e, s, a) && a.BanAway?
    ensures 0 !in s.rooms && (a.victim.Some? ==> a.victim.value in s.clients)
  {
  }

  lemma BanAwaySteady(c: Config, e: Input, s: Server, a: Action, k: Subject)
    requires Sound(c, s) && Allowed(c, e, s, a) && a.BanAway? && !Hits(a, k)
    ensures Steady(s, Do(c, s, a), k)
  {
    VictimKnown(c, e, s, a);
    hide Sound, Allowed, Steady, Core, Expel, Unseat, Close, BanStored, BanReason;
    var banned := BanStored(s, a.nickname, a.reason);
    CloseSteady(s, a.nickname, a.reason, 0, k);
    if a.victim.Some? {
      var i, why := a.victim.value, BanReason(a.reason);
      CloseSteady(s, a.nickname, a.reason, i, k);
      ExpelCore(c, banned, i, a.nickname, why);
      SeatSteady(Close(banned, i), i, 0, k);
      CoreSteady(Unseat(Close(banned, i), i), Do(c, s, a), k);
      SteadyTransitive(s, Close(banned, i), Unseat(Close(banned, i), i), k);
      SteadyTransitive(s, Unseat(Close(banned, i), i), Do(c, s, a), k);
    }
  }

  lemma SeatActionKnown(c: Config, e: Input, s: Server, a: Action)
    requires Sound(c, s) && Allowed(c, e, s, a) && (a.Move? || a.Go?)
    ensures 0 !in s.rooms && a.id in s.clients && (a.Move? ==> a.target in s.rooms)
    ensures Do(c, s, a) == if a.Move? then MoveSession(c, s, a.id, a.target, a.announce) else Depart(c, s, a.id, a.announce)
  {
    hide MoveSession, Depart, DistinctNames, Handles, RoomTable;
  }

  lemma SeatActionSteady(c: Config, e: Input, s: Server, a: Action, k: Subject)
    requires Sound(c, s) && Allowed(c, e, s, a) && (a.Move? || a.Go?) && !Hits(a, k)
    ensures Steady(s, Do(c, s, a), k)
  {
    hide Sound, Allowed, Do, Steady, Core, MoveSession, Depart, Reseat, Unseat;
    SeatActionKnown(c, e, s, a);
    if a.Move? {
      MoveSessionCore(c, s, a.id, a.target, a.announce);
      SeatSteady(s, a.id, a.target, k);
      CoreSteady(Reseat(s, a.id, a.target), Do(c, s, a), k);
      SteadyTransitive(s, Reseat(s, a.id, a.target), Do(c, s, a), k);
    } else {
      DepartCore(c, s, a.id, a.announce);
      SeatSteady(s, a.id, 0, k);
      CoreSteady(Unseat(s, a.id), Do(c, s, a), k);
      SteadyTransitive(s, Unseat(s, a.id), Do(c, s, a), k);
    }
  }

  lemma HostSteady(c: Config, e: Input, s: Server, a: Action, k: Subject)
    requires Allowed(c, e, s, a) && (a.PlaceHost? || a.MoveHost?)
    ensures Steady(s, Do(c, s, a), k)
  {
    var moved := s.(localRoomId := if a.PlaceHost? then LOBBY else a.target);
    assert Steady(s, moved, k);
    hide Steady, Core, MoveLocal, BroadcastUsers;
    match a {
      case PlaceHost => BroadcastUsersCore(c, moved, LOBBY);
      case MoveHost(target) => MoveLocalCore(c, s, target);
    }
    hide Do;
    CoreSteady(moved, Do(c, s, a), k);
    SteadyTransitive(s, moved, Do(c, s, a), k);
  }

  lemma RetitleSteady(c: Config, s: Server, q: RoomId, topic: Text, k: Subject)
    requires q in s.rooms && k != Title(q)
    ensures Steady(s, Retitled(c, s, q, topic), k)
  {
    var renamed := Written(WithRoom(s, q, s.rooms[q].(topic := topic)), TopicWrite(q, topic));
    assert Steady(s, renamed, k);
    hide Steady, Core, DeliverAll, WithRoom, Written;
    DeliverAllCore(c, renamed, s.rooms[q].members, RoomTopic(q, topic));
    CoreSteady(renamed, Retitled(c, s, q, topic), k);
    SteadyTransitive(s, renamed, Retitled(c, s, q, topic), k);
  }

  lemma OneSteady(s: Server, i: SessionId, x: Session, k: Subject)
    requires i in s.clients ==> x.activeRoom == s.clients[i].activeRoom && (x.quota == s.clients[i].quota || k != Quota(i))
    ensures Steady(s, With(s, i, x), k)
  {
  }

  lemma FlagSteady(c: Config, s: Server, a: Action, k: Subject)
    requires IsFlagAction(a) && !Hits(a, k)
    ensures Steady(s, Do(c, s, a), k)
  {
    hide Steady, With;
    var x := Of(s, a.id);
    match a
    case MarkClosing(i) => OneSteady(s, i, x.(closing := true), k);
    case MarkStopped(i) => OneSteady(s, i, x.(phase := Stopped), k);
    case Count(i, quota) => OneSteady(s, i, x.(quota := quota), k);
    case Negotiate(i, ok) => OneSteady(s, i, x.(negotiated := ok), k);
    case Authorize(i) => OneSteady(s, i, x.(authenticated := true), k);
    case Claim(i, nick, key, challenge) =>
      OneSteady(s, i, x.(pendingNickname := nick, pendingKey := key, pendingChallenge := challenge), k);
  }

  lemma EnterSteady(s: Server, i: SessionId, k: Subject)
    ensures Steady(s, Admit(s, i), k)
  {
    var x := Of(s, i);
    var bound := Bind(s, x.pendingNickname, x.pendingKey);
    assert bound.clients == s.clients && bound.rooms == s.rooms;
    hide Bind, With, Steady;
    OneSteady(bound, i, x.(nickname := x.pendingNickname, pendingNickname := [], pendingKey := [], pendingChallenge := []), k);
    SameBooks(s, bound, k);
    SteadyTransitive(s, bound, Admit(s, i), k);
  }

  lemma SameBooks(s: Server, t: Server, k: Subject)
    requires t.clients == s.clients && t.rooms == s.rooms
    ensures Steady(s, t, k)
  {
  }

  lemma EnrollSteady(s: Server, i: SessionId, k: Subject)
    requires i !in s.clients
    ensures Steady(s, Enrolled(s, i), k)
  {
  }

  lemma BookSteady(c: Config, s: Server, a: Action, k: Subject)
    requires a.Enter? || a.Register? || a.LiftBan? || (a.Enroll? && a.id !in s.clients)
    ensures Steady(s, Do(c, s, a), k)
  {
    hide Steady, Admit;
    match a
    case Enter(i) => EnterSteady(s, i, k);
    case Register(nick, key) => SameBooks(s, Bind(s, nick, key), k);
    case LiftBan(nick) => SameBooks(s, Unban(s, nick), k);
    case Enroll(i) => EnrollSteady(s, i, k);
  }

  lemma OpenSteady(c: Config, s: Server, i: SessionId, k: Subject)
    ensures Steady(s, Do(c, s, Open(i)), k)
  {
    var mid := With(s, i, Of(s, i).(phase := Reading));
    assert Steady(s, mid, k);
    hide Steady, Core, DeliverAll, With;
    DeliverAllCore(c, mid, {i}, ServerMessage.Hello(VERSION));
    CoreSteady(mid, Do(c, s, Open(i)), k);
    SteadyTransitive(s, mid, Do(c, s, Open(i)), k);
  }

  lemma FoundSteady(s: Server, name: Text, owner: Text, k: Subject)
    requires s.nextRoomId !in s.rooms
    ensures Steady(s, AddRoom(s, name, owner), k)
  {
  }

  lemma NextIsNew(c: Config, s: Server)
    requires Sound(c, s)
    ensures s.nextRoomId !in s.rooms && 0 !in s.rooms
  {
    hide DistinctNames, Handles, IsValidRoomName, IsValidRoomTopic, Lower;
  }

  lemma RoomActionSteady(c: Config, e: Input, s: Server, a: Action, k: Subject)
    requires Sound(c, s) && Allowed(c, e, s, a) && (a.Found? || a.Retitle?) && !Hits(a, k)
    ensures Steady(s, Do(c, s, a), k)
  {
    hide Sound, Steady, CreationError, IsOwner, IsValidRoomTopic, AddRoom, Retitled;
    match a
    case Found(name, owner) =>
      NextIsNew(c, s);
      FoundSteady(s, name, owner, k);
    case Retitle(q, topic) => RetitleSteady(c, s, q, topic, k);
  }

  lemma NewcomerIsNew(c: Config, e: Input, s: Server, a: Action)
    requires Allowed(c, e, s, a)
    ensures a.Enroll? ==> a.id !in s.clients
  {
  }

  /** An action that does not reach the subject leaves it, and all rooms' names and owners, alone. */
  lemma ActionSteady(c: Config, e: Input, s: Server, a: Action, k: Subject)
    requires Sound(c, s) && Allowed(c, e, s, a) && !Hits(a, k)
    ensures Steady(s, Do(c, s, a), k)
  {
    NewcomerIsNew(c, e, s, a);
    hide Sound, Allowed, Do, Steady, Core, Hits;
    if IsTalk(a) {
      TalkCore(c, s, a);
      CoreSteady(s, Do(c, s, a), k);
    }
    else if IsFlagAction(a) { FlagSteady(c, s, a, k); }
    else if a.Move? || a.Go? { SeatActionSteady(c, e, s, a, k); }
    else if a.BanAway? { BanAwaySteady(c, e, s, a, k); }
    else if a.PlaceHost? || a.MoveHost? { HostSteady(c, e, s, a, k); }
    else if a.Found? || a.Retitle? { RoomActionSteady(c, e, s, a, k); }
    else if a.Open? { OpenSteady(c, s, a.id, k); }
    else { BookSteady(c, s, a, k); }
  }

  // ---- plans ----

  predicate PlanHits(p: Plan, k: Subject)
  {
    match p
    case Skip => false
    case One(a) => Hits(a, k)
    case Then(q, o) => PlanHits(q, k) || PlanHits(o, k)
  }

  lemma {:induction false} PlanSteady(c: Config, e: Input, s: Server, p: Plan, k: Subject)
    requires Sound(c, s) && Legal(c, e, s, p) && !PlanHits(p, k)
    ensures Steady(s, Run(c, s, p), k)
    decreases p
  {
    hide Sound, Allowed, Do, Steady, Hits;
    match p
    case Skip => SameSteady(s, k);
    case One(a) => ActionSteady(c, e, s, a, k);
    case Then(q, o) =>
      PlanSteady(c, e, s, q, k);
      PlanSound(c, e, s, q);
      PlanSteady(c, e, Run(c, s, q), o, k);
      SteadyTransitive(s, Run(c, s, q), Run(c, s, p), k);
  }

  lemma SameSteady(s: Server, k: Subject)
    ensures Steady(s, s, k)
  {
  }

  /** A step whose plan does not reach the subject leaves it alone. */
  lemma StepSteady(c: Config, s: Server, e: Input, k: Subject)
    requires Sound(c, s) && Enabled(c, s, e) && !PlanHits(PlanOf(c, s, e), k)
    ensures Steady(s, Step(c, s, e), k)
  {
    hide Sound, Step, PlanOf, Run, Legal, PlanHits, Steady, Enabled;
    PlanLegal(c, s, e);
    PlanRuns(c, s, e);
    PlanSteady(c, e, s, PlanOf(c, s, e), k);
  }

  lemma Hits2(a: Action, b: Action, k: Subject)
    ensures PlanHits(Then(One(a), One(b)), k) <==> Hits(a, k) || Hits(b, k)
  {
    hide Hits;
    assert PlanHits(One(a), k) == Hits(a, k) && PlanHits(One(b), k) == Hits(b, k);
  }

  lemma Hits3(a: Action, b: Action, d: Action, k: Subject)
    ensures PlanHits(Then(One(a), Then(One(b), One(d))), k) <==> Hits(a, k) || Hits(b, k) || Hits(d, k)
  {
    hide Hits;
    Hits2(b, d, k);
    assert PlanHits(One(a), k) == Hits(a, k);
  }

  lemma Hits4(a: Action, b: Action, d: Action, f: Action, k: Subject)
    ensures PlanHits(Then(One(a), Then(One(b), Then(One(d), One(f)))), k) <==>
              Hits(a, k) || Hits(b, k) || Hits(d, k) || Hits(f, k)
  {
    hide Hits;
    Hits3(b, d, f, k);
    assert PlanHits(One(a), k) == Hits(a, k);
  }

  // ---- what each plan reaches ----

  lemma DropHits(i: SessionId, m: ServerMessage, k: Subject)
    ensures PlanHits(DropPlan(i, m), k) ==> k == Seat(i)
  {
    Hits4(Tell({i}, m), MarkClosing(i), Go(i, false), MarkStopped(i), k);
  }

  lemma TargetIs(c: Config, s: Server, r: RoomId, nick: Text)
    requires Sound(c, s)
    ensures var target := FirstNamed(s, Ordered(RoomOf(s, r).members), nick);
            target.Some? ==>
              target.value in s.clients && s.clients[target.value].nickname == nick && s.clients[target.value].activeRoom == r
              && r in s.rooms
  {
    hide DistinctNames, Handles, RoomTable, FirstNamed, Ordered;
  }

  /** Session `j` is in room `r` under the nickname. */
  predicate IsThere(s: Server, j: SessionId, r: RoomId, nick: Text)
  {
    j in s.clients && s.clients[j].nickname == nick && s.clients[j].activeRoom == r && r in s.rooms
  }

  lemma KickHits(c: Config, s: Server, r: RoomId, nick: Text, reason: Text, k: Subject)
    requires Sound(c, s) && PlanHits(KickPlan(s, r, nick, reason), k)
    ensures k.Seat? && IsThere(s, k.session, r, nick)
  {
    hide Sound, FirstNamed, Ordered, RoomOf;
    TargetIs(c, s, r, nick);
    var target := FirstNamed(s, Ordered(RoomOf(s, r).members), nick);
    if r in s.rooms && target.Some? {
      var i := target.value;
      Hits3(Tell({i}, Kick(nick, reason)), MarkClosing(i), Go(i, false), k);
      Hits2(Say(r, KickNotice(nick, reason), []), ShowUsers(r), k);
    }
  }

  lemma BannedHits(nick: Text, reason: Text, victim: Option<SessionId>, r: RoomId, text: Text, k: Subject)
    ensures PlanHits(Then(One(BanAway(nick, reason, victim)), AnnouncePlan(r, text)), k) ==> k.Seat? && victim == Some(k.session)
    ensures PlanHits(One(BanAway(nick, reason, victim)), k) ==> k.Seat? && victim == Some(k.session)
  {
    Hits2(Say(r, text, []), ShowUsers(r), k);
    assert !PlanHits(AnnouncePlan(r, text), k);
    assert PlanHits(One(BanAway(nick, reason, victim)), k) ==> k.Seat? && victim == Some(k.session);
  }

  lemma BanHits(c: Config, s: Server, nick: Text, reason: Text, k: Subject)
    requires Sound(c, s) && PlanHits(BanPlan(s, nick, reason), k)
    ensures k.Seat? && k.session in s.clients && s.clients[k.session].nickname == nick
  {
    assert s.sessions <= s.clients.Keys;
    hide Sound, FirstNamed, Ordered, PlanHits, AnnouncePlan;
    var target := FirstNamed(s, Ordered(s.sessions), nick);
    var r := if target.Some? then Of(s, target.value).activeRoom else 0;
    BannedHits(nick, reason, target, r, "[system] " + nick + " has been banned", k);
  }

  lemma {:induction false} EachHits(ids: seq<RoomId>, text: Text, k: Subject)
    ensures !PlanHits(EachPlan(ids, text), k)
    decreases |ids|
  {
    if ids != [] { EachHits(ids[1..], text, k); }
  }

  lemma PrivateHits(c: Config, s: Server, sender: Text, target: Text, body: Text, r: RoomId, stamp: Text, k: Subject)
    ensures !PlanHits(PrivatePlan(c, s, sender, target, body, r, stamp), k)
  {
    hide LastNamed, Ordered;
  }

  lemma TopicHits(c: Config, s: Server, q: RoomId, actor: Text, privileged: bool, topic: Text, k: Subject)
    requires PlanHits(TopicPlan(c, s, q, actor, privileged, topic), k)
    ensures k == Title(q) && q in s.rooms && (privileged || s.rooms[q].owner == actor)
    ensures SetTopic(c, s, q, actor, privileged, topic).Done?
  {
    hide IsValidRoomTopic, DeliverAll, BroadcastRoom, WithRoom, Written;
    Hits2(Retitle(q, topic), Say(q, "[system] " + actor + " changed the topic to: " + topic, []), k);
  }

  lemma IdentityHits(c: Config, s: Server, i: SessionId, m: ClientMessage, env: Env, k: Subject)
    requires m.Identify? || m.IdentityProof?
    ensures PlanHits(CommandPlan(c, s, i, m, env), k) ==> k == Seat(i)
  {
    hide DropPlan, IdentityError, NicknameInUse, CanBind, Fingerprint;
    match m
    case Identify(nick, key) =>
      Hits2(Claim(i, nick, key, env.challenge), Tell({i}, Challenge(env.challenge)), k);
      DropHits(i, JoinRejected(IdentityError(s, nick, key)), k);
      DropHits(i, Banned, k);
      DropHits(i, ServerMessage.NicknameTaken, k);
    case IdentityProof(signature) =>
      DropHits(i, JoinRejected("Identify before sending proof"), k);
      DropHits(i, JoinRejected("Identity proof failed"), k);
      DropHits(i, Banned, k);
      DropHits(i, ServerMessage.NicknameTaken, k);
      DropHits(i, JoinRejected("Identity registration failed"), k);
      var accepted := IdentityAccepted(Fingerprint(Of(s, i).pendingKey));
      Hits4(Enter(i), Tell({i}, accepted), Tell({i}, JoinAccepted), Move(i, LOBBY, false), k);
  }

  lemma SeatCommandHits(c: Config, s: Server, i: SessionId, m: ClientMessage, env: Env, k: Subject)
    requires m.Leave? || m.Disconnect? || m.CreateRoom? || m.JoinRoom? || m.ListRooms? || m.Hello? || m.Authenticate?
    ensures PlanHits(CommandPlan(c, s, i, m, env), k) ==> k == Seat(i)
  {
    hide CreationError, JoinRoomFor, FindRoom, RoomSummaries;
    match m
    case Disconnect => Hits3(Go(i, true), MarkClosing(i), MarkStopped(i), k);
    case CreateRoom(name) => Hits2(Found(name, Of(s, i).nickname), Move(i, s.nextRoomId, true), k);
    case _ =>
  }

  lemma WordHits(a: Action, k: Subject)
    requires a.Tell? || a.Say?
    ensures !PlanHits(One(a), k)
  {
  }

  lemma CountHits(i: SessionId, quota: RateLimit.Queues, p: Plan, k: Subject)
    requires !PlanHits(p, k)
    ensures PlanHits(Then(One(Count(i, quota)), p), k) ==> k == Quota(i)
  {
    assert PlanHits(One(Count(i, quota)), k) ==> k == Quota(i);
  }

  lemma ChatRestHits(x: Session, i: SessionId, ok: bool, body: Text, env: Env, k: Subject)
    ensures !PlanHits(ChatRest(x, i, ok, body, env), k)
  {
    hide IsValidText;
  }

  lemma WhisperRestHits(c: Config, s: Server, x: Session, i: SessionId, ok: bool, target: Text, body: Text, env: Env, k: Subject)
    ensures !PlanHits(WhisperRest(c, s, x, i, ok, target, body, env), k)
  {
    hide IsValidText, IsValidNickname, PrivatePlan;
    PrivateHits(c, s, x.nickname, target, body, x.activeRoom, env.timeOfDay, k);
  }

  lemma ChatPlanIs(s: Server, i: SessionId, body: Text, env: Env)
    requires Of(s, i).nickname != []
    ensures var x := Of(s, i);
            var (ok, quota) := RateLimit.Consume(x.quota, x.activeRoom, env.now);
            ChatPlan(s, i, body, env) == Then(One(Count(i, quota)), ChatRest(x, i, ok, body, env))
  {
    hide RateLimit.Consume, IsValidText;
  }

  lemma ChatUnjoinedHits(s: Server, i: SessionId, body: Text, env: Env, k: Subject)
    requires Of(s, i).nickname == []
    ensures !PlanHits(ChatPlan(s, i, body, env), k)
  {
    hide PlanHits, RateLimit.Consume, IsValidText;
    WordHits(Tell({i}, DirectText(JOIN_FIRST)), k);
  }

  lemma ChatHits(s: Server, i: SessionId, body: Text, env: Env, k: Subject)
    ensures PlanHits(ChatPlan(s, i, body, env), k) ==> k == Quota(i) && Of(s, i).nickname != []
  {
    hide ChatRest, ChatPlan, RateLimit.Consume, PlanHits;
    var x := Of(s, i);
    if x.nickname == [] {
      ChatUnjoinedHits(s, i, body, env, k);
    } else {
      var (ok, quota) := RateLimit.Consume(x.quota, x.activeRoom, env.now);
      ChatPlanIs(s, i, body, env);
      ChatRestHits(x, i, ok, body, env, k);
      CountHits(i, quota, ChatRest(x, i, ok, body, env), k);
    }
  }

  lemma WhisperHits(c: Config, s: Server, i: SessionId, target: Text, body: Text, env: Env, k: Subject)
    ensures PlanHits(WhisperPlan(c, s, i, target, body, env), k) ==> k == Quota(i) && Of(s, i).nickname != []
  {
    hide RateLimit.Consume, PlanHits, IsValidText, IsValidNickname, PrivatePlan, With;
    var x := Of(s, i);
    var (ok, quota) := RateLimit.Consume(x.quota, x.activeRoom, env.now);
    var rest := WhisperRest(c, With(s, i, x.(quota := quota)), x, i, ok, target, body, env);
    assert x.nickname != [] ==> WhisperPlan(c, s, i, target, body, env) == Then(One(Count(i, quota)), rest);
    hide WhisperRest;
    WordHits(Tell({i}, DirectText(JOIN_FIRST)), k);
    WhisperRestHits(c, With(s, i, x.(quota := quota)), x, i, ok, target, body, env, k);
    CountHits(i, quota, rest, k);
    if x.nickname == [] { WhisperUnjoinedHits(c, s, i, target, body, env, k); }
  }

  lemma WhisperUnjoinedHits(c: Config, s: Server, i: SessionId, target: Text, body: Text, env: Env, k: Subject)
    requires Of(s, i).nickname == []
    ensures !PlanHits(WhisperPlan(c, s, i, target, body, env), k)
  {
    WordHits(Tell({i}, DirectText(JOIN_FIRST)), k);
    hide PlanHits, RateLimit.Consume, PrivatePlan;
  }

  lemma TalkCommandHits(c: Config, s: Server, i: SessionId, m: ClientMessage, env: Env, k: Subject)
    requires m.Chat? || m.Whisper?
    ensures PlanHits(CommandPlan(c, s, i, m, env), k) ==> k == Quota(i) && Of(s, i).nickname != []
  {
    hide ChatPlan, WhisperPlan, PlanHits;
    match m
    case Chat(body) => ChatHits(s, i, body, env, k);
    case Whisper(target, body) => WhisperHits(c, s, i, target, body, env, k);
  }

  // ---- entitlement ----

  /** The input is session `j`'s own. */
  predicate IsOwn(e: Input, j: SessionId)
  {
    (e.Received? || e.ReadFailed? || e.HandshakeDone? || e.BadFrame?) && e.id == j
  }

  /** Session `j` is kicked: by the creator of the room it is in, by the host or administrator, or by
      a ban of its nickname. */
  ghost predicate IsExpelled(c: Config, s: Server, e: Input, j: SessionId)
  {
    && j in s.clients
    && var x := s.clients[j];
       match e
       case Received(i, KickRequest(nick, _), _) =>
         && i in s.clients && MayCommand(c, s.clients[i]) && s.clients[i].activeRoom == x.activeRoom && x.activeRoom in s.rooms
         && s.rooms[x.activeRoom].owner == s.clients[i].nickname && x.nickname == nick != s.clients[i].nickname
       case KickUser(nick, _) => x.nickname == nick && x.activeRoom == RoomFor(s, nick)
       case KickUserInRoom(name, nick, _) => x.nickname == nick && IsMatch(s, name, x.activeRoom)
       case BanUser(nick, _) => x.nickname == nick
       case _ => false
  }

  /** The input sets the topic of room `r`: from a member who made the room, from the host placed
      there, or from the administrator. */
  ghost predicate SetsTopic(c: Config, s: Server, e: Input, r: RoomId, topic: Text)
  {
    match e
    case Received(i, TopicRequest(wanted), _) =>
      && wanted == Some(topic) && i in s.clients && MayCommand(c, s.clients[i])
      && s.clients[i].activeRoom == r && r in s.rooms && s.rooms[r].owner == s.clients[i].nickname != []
    case SetLocalTopic(wanted) => wanted == topic && s.localRoomId == r
    case SetAdminTopic(name, wanted) => wanted == topic && IsMatch(s, name, r)
    case _ => false
  }

  /** The input is a chat or whisper of a member of the server, which the quota counts. */
  predicate Speaks(c: Config, s: Server, e: Input, i: SessionId)
  {
    && e.Received? && e.id == i && (e.message.Chat? || e.message.Whisper?)
    && i in s.clients && MayCommand(c, s.clients[i]) && s.clients[i].nickname != []
  }

  /** Only these inputs reach the subject. */
  ghost predicate Entitled(c: Config, s: Server, e: Input, k: Subject)
  {
    match k
    case Seat(j) => e == Accept(j) || IsOwn(e, j) || IsExpelled(c, s, e, j)
    case Title(r) => r in Step(c, s, e).rooms && SetsTopic(c, s, e, r, Step(c, s, e).rooms[r].topic)
    case Quota(j) => e == Accept(j) || Speaks(c, s, e, j)
  }

  lemma StoreKeepsRooms()
    ensures forall c, s, r, msg, nick :: StoreMessage(c, s, r, msg, nick).rooms == s.rooms
  {
  }

  lemma SetTopicSets(c: Config, s: Server, r: RoomId, actor: Text, privileged: bool, topic: Text)
    requires SetTopic(c, s, r, actor, privileged, topic).Done?
    ensures var t := SetTopic(c, s, r, actor, privileged, topic).server; r in t.rooms && t.rooms[r].topic == topic
  {
    hide IsValidRoomTopic, PostAll, Bounded, StoreMessage;
    StoreKeepsRooms();
  }

  lemma TopicRequestHits(c: Config, s: Server, i: SessionId, topic: Option<Text>, env: Env, k: Subject)
    requires i in s.clients && MayCommand(c, s.clients[i])
    requires PlanHits(CommandPlan(c, s, i, TopicRequest(topic), env), k)
    ensures var t := OnCommand(c, s, i, TopicRequest(topic), env);
            k.Title? && k.room in t.rooms && SetsTopic(c, s, Received(i, TopicRequest(topic), env), k.room, t.rooms[k.room].topic)
  {
    hide TopicPlan, SetTopic, MayCommand, DeliverAll;
    var x := s.clients[i];
    assert topic.Some? && x.nickname != [] && SetTopic(c, s, x.activeRoom, x.nickname, false, topic.value).Done?;
    TopicHits(c, s, x.activeRoom, x.nickname, false, topic.value, k);
    SetTopicSets(c, s, x.activeRoom, x.nickname, false, topic.value);
  }

  lemma KickForIs(c: Config, s: Server, i: SessionId, nick: Text, reason: Text)
    requires i in s.clients && KickFor(c, s, i, nick, reason).Done?
    ensures var r := s.clients[i].activeRoom; r in s.rooms && s.rooms[r].owner == s.clients[i].nickname != nick
  {
    hide KickInRoom;
  }

  lemma KickRequestPlanHits(c: Config, s: Server, i: SessionId, nick: Text, reason: Text, env: Env, k: Subject)
    requires i in s.clients && PlanHits(CommandPlan(c, s, i, KickRequest(nick, reason), env), k)
    ensures KickFor(c, s, i, nick, reason).Done? && PlanHits(KickPlan(s, s.clients[i].activeRoom, nick, reason), k)
  {
    hide KickPlan, KickFor;
  }

  lemma KickRequestHits(c: Config, s: Server, i: SessionId, nick: Text, reason: Text, env: Env, k: Subject)
    requires Sound(c, s) && i in s.clients && MayCommand(c, s.clients[i])
    requires PlanHits(CommandPlan(c, s, i, KickRequest(nick, reason), env), k)
    ensures k.Seat? && IsExpelled(c, s, Received(i, KickRequest(nick, reason), env), k.session)
  {
    hide Sound, KickPlan, KickFor, MayCommand, PlanHits, CommandPlan;
    KickRequestPlanHits(c, s, i, nick, reason, env, k);
    KickForIs(c, s, i, nick, reason);
    KickHits(c, s, s.clients[i].activeRoom, nick, reason, k);
  }

  lemma MessageHits(c: Config, s: Server, i: SessionId, m: ClientMessage, env: Env, k: Subject)
    requires Sound(c, s) && i in s.clients && PlanHits(MessagePlan(c, s, i, m, env), k)
    ensures match k
            case Seat(j) => i == j || IsExpelled(c, s, Received(i, m, env), j)
            case Title(r) =>
              var t := OnMessage(c, s, i, m, env);
              r in t.rooms && SetsTopic(c, s, Received(i, m, env), r, t.rooms[r].topic)
            case Quota(j) => Speaks(c, s, Received(i, m, env), j)
  {
    hide Sound, DropPlan, CommandPlan, IsExpelled, SetsTopic, OnCommand;
    DropHits(i, ServerError("Protocol handshake required"), k);
    DropHits(i, AuthRejected, k);
    if k != Seat(i) {
      assert PlanHits(CommandPlan(c, s, i, m, env), k) && MayCommand(c, s.clients[i]);
      match m
      case Identify(_, _) => IdentityHits(c, s, i, m, env, k); assert false;
      case IdentityProof(_) => IdentityHits(c, s, i, m, env, k); assert false;
      case KickRequest(nick, reason) => KickRequestHits(c, s, i, nick, reason, env, k);
      case TopicRequest(topic) => TopicRequestHits(c, s, i, topic, env, k);
      case Chat(_) => TalkCommandHits(c, s, i, m, env, k);
      case Whisper(_, _) => TalkCommandHits(c, s, i, m, env, k);
      case _ => SeatCommandHits(c, s, i, m, env, k); assert false;
    }
  }

  lemma SessionHits(c: Config, s: Server, e: Input, k: Subject)
    requires Sound(c, s) && Enabled(c, s, e) && !IsHostCall(e) && PlanHits(PlanOf(c, s, e), k)
    ensures Entitled(c, s, e, k)
  {
    hide Sound, MessagePlan, DropPlan, IsExpelled, SetsTopic, OnMessage, Speaks;
    match e
    case Accept(i) =>
    case HandshakeDone(i, ok) => Hits2(Go(i, false), MarkStopped(i), k);
    case ReadFailed(i, announce) => Hits2(Go(i, announce), MarkStopped(i), k);
    case BadFrame(i, error, detail) => DropHits(i, ServerError("Invalid client frame: " + detail), k);
    case Received(i, m, env) => MessageHits(c, s, i, m, env, k);
  }

  lemma FoundMatches(s: Server, name: Text)
    ensures NameExists(s, name) ==> IsMatch(s, name, FindRoom(s, name))
  {
    hide FirstMatch, Lower;
  }

  lemma QuietHostHits(c: Config, s: Server, e: Input, k: Subject)
    requires e.StartLocalUser? || e.CreateLocalRoom? || e.CreateAdminRoom? || e.JoinLocalRoom? || e.LeaveLocalRoom?
          || e.Broadcast? || e.BroadcastServer? || e.SendLocalPrivate? || e.UnbanUser? || e.RegisterLocalIdentity?
    ensures !PlanHits(PlanOf(c, s, e), k)
  {
    hide PrivatePlan, EachPlan, CreationError, NameExists, RoomFor, Ordered, IdentityError, CanBind, FindRoom;
    match e
    case StartLocalUser => Hits2(PlaceHost, ShowRooms, k);
    case CreateLocalRoom(name) => Hits2(Found(name, c.localNickname), MoveHost(s.nextRoomId), k);
    case CreateAdminRoom(name) => Hits2(Found(name, []), ShowRooms, k);
    case BroadcastServer(text) => EachHits(Ordered(s.rooms.Keys), "[SERVER] " + text, k);
    case SendLocalPrivate(target, body, timeOfDay) =>
      PrivateHits(c, s, c.localNickname, target, body, RoomFor(s, c.localNickname), timeOfDay, k);
    case _ =>
  }

  lemma ModerationHits(c: Config, s: Server, e: Input, k: Subject)
    requires Sound(c, s) && (e.KickUser? || e.KickUserInRoom? || e.BanUser?) && PlanHits(PlanOf(c, s, e), k)
    ensures k.Seat? && IsExpelled(c, s, e, k.session)
  {
    hide Sound, KickPlan, BanPlan, NameExists, RoomFor, FindRoom;
    match e
    case KickUser(nick, reason) => KickHits(c, s, RoomFor(s, nick), nick, reason, k);
    case KickUserInRoom(name, nick, reason) =>
      FoundMatches(s, name);
      KickHits(c, s, FindRoom(s, name), nick, reason, k);
    case BanUser(nick, reason) => BanHits(c, s, nick, reason, k);
  }

  lemma HostTopicHits(c: Config, s: Server, e: Input, k: Subject)
    requires (e.SetLocalTopic? || e.SetAdminTopic?) && PlanHits(PlanOf(c, s, e), k)
    ensures k.Title? && k.room in Step(c, s, e).rooms && SetsTopic(c, s, e, k.room, Step(c, s, e).rooms[k.room].topic)
  {
    hide TopicPlan, NameExists, FindRoom, SetTopic;
    match e
    case SetLocalTopic(topic) =>
      TopicHits(c, s, s.localRoomId, c.localNickname, true, topic, k);
      SetTopicSets(c, s, s.localRoomId, c.localNickname, true, topic);
    case SetAdminTopic(name, topic) =>
      FoundMatches(s, name);
      TopicHits(c, s, FindRoom(s, name), "server", true, topic, k);
      SetTopicSets(c, s, FindRoom(s, name), "server", true, topic);
  }

  /** A step reaches a subject only on an input entitled to. */
  lemma PlanEntitled(c: Config, s: Server, e: Input, k: Subject)
    requires Sound(c, s) && Enabled(c, s, e) && PlanHits(PlanOf(c, s, e), k)
    ensures Entitled(c, s, e, k)
  {
    hide Sound, PlanOf, Step, IsExpelled, SetsTopic, Speaks, Enabled;
    if !IsHostCall(e) { SessionHits(c, s, e, k); }
    else if e.KickUser? || e.KickUserInRoom? || e.BanUser? { ModerationHits(c, s, e, k); }
    else if e.SetLocalTopic? || e.SetAdminTopic? { HostTopicHits(c, s, e, k); }
    else {
      QuietHostHits(c, s, e, k);
      assert false;
    }
  }
}
