/** Every step's plan is allowed, so the invariants hold in every reachable state. */
module ServerReach {
  import opened Octets
  import opened Messages
  import opened Ordering
  import opened Tables
  import opened ServerModel
  import opened ServerStructure
  import opened ServerActions
  import opened ServerPlans
  import opened ServerSafety
  import RateLimit

  // ---- plans of replies ----

  predicate Plain(m: ServerMessage) { Neutral(m) && Clean(m) }

  lemma RespondLegal(c: Config, e: Input, s: Server, i: SessionId, m: ServerMessage)
    requires Plain(m) && IsAwake(s, i)
    ensures Legal(c, e, s, Respond(i, m))
  {
    hide Neutral, Clean;
  }

  /** An action leaves the set of session objects alone, unless it adds one. */
  lemma ActionClients(c: Config, e: Input, s: Server, a: Action)
    requires Sound(c, s) && (a.Tell? || a.MarkClosing? || a.Go?)
    requires Allowed(c, e, s, a)
    ensures Do(c, s, a).clients.Keys == s.clients.Keys
  {
    hide Core, Depart, DeliverAll, Unseat;
    if a.Tell? { DeliverAllCore(c, s, a.to, a.message); CoreKeys(s, Do(c, s, a)); }
    if a.Go? {
      DepartCore(c, s, a.id, a.announce);
      CoreKeys(Unseat(s, a.id), Do(c, s, a));
      UnseatFields(s, a.id);
    }
  }

  lemma TellAllowed(c: Config, e: Input, s: Server, to: set<SessionId>, m: ServerMessage)
    requires Plain(m) && forall i :: i in to ==> IsAwake(s, i)
    ensures Allowed(c, e, s, Tell(to, m))
  {
    hide Neutral, Clean;
  }

  lemma ExitAllowed(c: Config, e: Input, s: Server, i: SessionId)
    requires i in s.clients
    ensures Allowed(c, e, s, MarkClosing(i)) && Allowed(c, e, s, MarkStopped(i))
    ensures forall announce :: Allowed(c, e, s, Go(i, announce))
  {
  }

  lemma DropLegal(c: Config, e: Input, s: Server, i: SessionId, m: ServerMessage)
    requires Sound(c, s) && i in s.clients && Plain(m) && IsAwake(s, i)
    ensures Legal(c, e, s, DropPlan(i, m))
  {
    var told := Do(c, s, Tell({i}, m));
    var closing := Do(c, told, MarkClosing(i));
    hide Sound, Do, Plain, Allowed;
    TellAllowed(c, e, s, {i}, m);
    ActionSound(c, e, s, Tell({i}, m));
    ActionClients(c, e, s, Tell({i}, m));
    ExitAllowed(c, e, told, i);
    ActionSound(c, e, told, MarkClosing(i));
    ActionClients(c, e, told, MarkClosing(i));
    ExitAllowed(c, e, closing, i);
    ActionClients(c, e, closing, Go(i, false));
    ExitAllowed(c, e, Do(c, closing, Go(i, false)), i);
    Legal4(c, e, s, Tell({i}, m), MarkClosing(i), Go(i, false), MarkStopped(i));
  }

  lemma Legal2(c: Config, e: Input, s: Server, a: Action, b: Action)
    requires Allowed(c, e, s, a) && Allowed(c, e, Do(c, s, a), b)
    ensures Legal(c, e, s, Then(One(a), One(b)))
  {
    hide Allowed, Do;
  }

  lemma Legal3(c: Config, e: Input, s: Server, a: Action, b: Action, d: Action)
    requires Allowed(c, e, s, a) && Allowed(c, e, Do(c, s, a), b) && Allowed(c, e, Do(c, Do(c, s, a), b), d)
    ensures Legal(c, e, s, Then(One(a), Then(One(b), One(d))))
  {
    hide Allowed, Do;
    Legal2(c, e, Do(c, s, a), b, d);
  }

  lemma Legal4(c: Config, e: Input, s: Server, a: Action, b: Action, d: Action, f: Action)
    requires Allowed(c, e, s, a) && Allowed(c, e, Do(c, s, a), b) && Allowed(c, e, Do(c, Do(c, s, a), b), d)
    requires Allowed(c, e, Do(c, Do(c, Do(c, s, a), b), d), f)
    ensures Legal(c, e, s, Then(One(a), Then(One(b), Then(One(d), One(f)))))
  {
    hide Allowed, Do;
    Legal3(c, e, Do(c, s, a), b, d, f);
  }

  // ---- moderation ----

  lemma KickPlain(c: Config, s: Server, i: SessionId, reason: Text)
    requires Sound(c, s) && i in s.clients
    ensures Plain(Kick(s.clients[i].nickname, reason))
  {
    hide IsValidNickname;
    PendingValid(c, s, i);
  }

  lemma ExpelLegal(c: Config, e: Input, s: Server, i: SessionId, nick: Text, reason: Text)
    requires Sound(c, s) && i in s.clients && s.clients[i].nickname == nick && IsAwake(s, i)
    ensures Legal(c, e, s, ExpelPlan(i, nick, reason))
  {
    var m := Kick(nick, reason);
    var told := Do(c, s, Tell({i}, m));
    KickPlain(c, s, i, reason);
    hide Sound, Do, Plain, Allowed;
    TellAllowed(c, e, s, {i}, m);
    ActionSound(c, e, s, Tell({i}, m));
    ActionClients(c, e, s, Tell({i}, m));
    ExitAllowed(c, e, told, i);
    ActionClients(c, e, told, MarkClosing(i));
    ExitAllowed(c, e, Do(c, told, MarkClosing(i)), i);
    Legal3(c, e, s, Tell({i}, m), MarkClosing(i), Go(i, false));
  }

  lemma AnnounceLegal(c: Config, e: Input, s: Server, r: RoomId, text: Text)
    ensures Legal(c, e, s, AnnouncePlan(r, text))
  {
    hide Do;
    Legal2(c, e, s, Say(r, text, []), ShowUsers(r));
  }

  lemma KickTarget(c: Config, s: Server, r: RoomId, nick: Text)
    requires Sound(c, s)
    ensures var target := FirstNamed(s, Ordered(RoomOf(s, r).members), nick);
            target.Some? ==> target.value in s.clients && s.clients[target.value].nickname == nick != []
  {
    hide DistinctNames, RoomTable, FirstNamed, Ordered, IsValidNickname;
  }

  lemma KickLegal(c: Config, e: Input, s: Server, r: RoomId, nick: Text, reason: Text)
    requires Sound(c, s)
    ensures Legal(c, e, s, KickPlan(s, r, nick, reason))
  {
    hide Sound, Ordered, FirstNamed, RoomOf, ExpelPlan, AnnouncePlan;
    var target := FirstNamed(s, Ordered(RoomOf(s, r).members), nick);
    KickTarget(c, s, r, nick);
    if r in s.rooms && target.Some? {
      ExpelLegal(c, e, s, target.value, nick, reason);
      AnnounceLegal(c, e, Run(c, s, ExpelPlan(target.value, nick, reason)), r, KickNotice(nick, reason));
    }
  }

  lemma BanLegal(c: Config, e: Input, s: Server, nick: Text, reason: Text)
    requires Sound(c, s)
    ensures Legal(c, e, s, BanPlan(s, nick, reason))
  {
    hide Sound, Ordered, FirstNamed, Do, AnnouncePlan;
    var target := FirstNamed(s, Ordered(s.sessions), nick);
    if target.Some? {
      AnnounceLegal(c, e, Do(c, s, BanAway(nick, reason, target)), Of(s, target.value).activeRoom,
        "[system] " + nick + " has been banned");
    }
  }

  lemma TopicLegal(c: Config, e: Input, s: Server, r: RoomId, actor: Text, privileged: bool, topic: Text)
    ensures Legal(c, e, s, TopicPlan(c, s, r, actor, privileged, topic))
  {
    hide Do, IsValidRoomTopic, DeliverAll, BroadcastRoom, WithRoom, Written;
    if SetTopic(c, s, r, actor, privileged, topic).Done? {
      Legal2(c, e, s, Retitle(r, topic), Say(r, "[system] " + actor + " changed the topic to: " + topic, []));
    }
  }

  lemma MembersAwake(c: Config, s: Server, r: RoomId, nick: Text)
    requires Sound(c, s) && r in s.rooms
    ensures var i := LastNamed(s, Ordered(s.rooms[r].members), nick); i.Some? ==> IsAwake(s, i.value)
  {
    hide DistinctNames, RoomTable, LastNamed, Ordered, IsValidNickname;
  }

  lemma TwoTells(c: Config, e: Input, s: Server, i: SessionId, m: ServerMessage, j: SessionId, n: ServerMessage)
    requires Plain(m) && Plain(n) && IsAwake(s, i) && IsAwake(s, j)
    ensures Legal(c, e, s, Then(Respond(i, m), Respond(j, n)))
  {
    DeliverAwake(c, s, i, m, j);
    hide Do, Plain, Allowed;
    TellAllowed(c, e, s, {i}, m);
    TellAllowed(c, e, Do(c, s, Tell({i}, m)), {j}, n);
    Legal2(c, e, s, Tell({i}, m), Tell({j}, n));
  }

  lemma DeliverAwake(c: Config, s: Server, i: SessionId, m: ServerMessage, j: SessionId)
    requires IsAwake(s, j)
    ensures IsAwake(Do(c, s, Tell({i}, m)), j)
  {
    hide Bare;
    DeliverKeeps(c, s, i, m, j);
    BareNames(Of(s, j), Of(Do(c, s, Tell({i}, m)), j));
  }

  lemma BareNames(x: Session, y: Session)
    requires Bare(x) == Bare(y)
    ensures x.nickname == y.nickname && x.phase == y.phase && x.activeRoom == y.activeRoom
  {
  }

  lemma PrivateLegal(c: Config, e: Input, s: Server, sender: Text, target: Text, body: Text, r: RoomId, stamp: Text)
    requires Sound(c, s)
    ensures Legal(c, e, s, PrivatePlan(c, s, sender, target, body, r, stamp))
  {
    hide Sound, LastNamed, Ordered, Legal, IsAwake, Neutral, Clean, Run;
    LegalSkip(c, s, e);
    if r in s.rooms {
      MembersAwake(c, s, r, sender);
      MembersAwake(c, s, r, target);
      var members := Ordered(s.rooms[r].members);
      var from, to := LastNamed(s, members, sender), LastNamed(s, members, target);
      var line := PrivateLine(stamp, sender, target, body);
      TextsPlain(NotHere(target));
      TextsPlain(line);
      if from.Some? { SoloLegal(c, e, s, from.value, line); RespondLegal(c, e, s, from.value, NotHere(target)); }
      if to.Some? { SoloLegal(c, e, s, to.value, line); }
      if from.Some? && to.Some? { TwoTells(c, e, s, to.value, line, from.value, line); }
      IdleLegal(c, e, s);
    }
  }

  lemma TextsPlain(m: ServerMessage)
    requires m.DirectText? || m.ServerError?
    ensures Plain(m)
  {
  }

  lemma IdleLegal(c: Config, e: Input, s: Server)
    ensures Legal(c, e, s, Then(Skip, Skip))
  {
  }

  lemma SoloLegal(c: Config, e: Input, s: Server, i: SessionId, m: ServerMessage)
    requires Plain(m) && IsAwake(s, i)
    ensures Legal(c, e, s, Then(Skip, Respond(i, m))) && Legal(c, e, s, Then(Respond(i, m), Skip))
  {
    hide Do, Neutral, Clean;
  }

  lemma {:induction false} EachLegal(c: Config, e: Input, s: Server, ids: seq<RoomId>, text: Text)
    ensures Legal(c, e, s, EachPlan(ids, text))
    decreases |ids|
  {
    hide Do;
    if ids != [] { EachLegal(c, e, Do(c, s, Say(ids[0], text, [])), ids[1..], text); }
  }

  // ---- handlers ----

  lemma IdentityOk(s: Server, nick: Text, key: Text)
    requires IdentityError(s, nick, key) == []
    ensures IsValidNickname(nick) && IsHex(key, 64) && CanBind(s, nick, key)
  {
    hide IsValidNickname, IsHex;
  }

  lemma IdentifyLegal(c: Config, e: Input, s: Server, i: SessionId, nick: Text, key: Text, challenge: Text)
    requires Sound(c, s) && i in s.clients && MayCommand(c, s.clients[i])
    requires e.Received? && e.id == i && e.message == Identify(nick, key) && e.env.challenge == challenge
    requires s.clients[i].phase == Reading
    ensures Legal(c, e, s, IdentifyPlan(c, s, i, nick, key, challenge))
  {
    hide Sound, DropPlan, IdentityError, NicknameInUse, Do, IsValidNickname, IsHex, MayCommand;
    DropLegal(c, e, s, i, JoinRejected(IdentityError(s, nick, key)));
    DropLegal(c, e, s, i, Banned);
    DropLegal(c, e, s, i, ServerMessage.NicknameTaken);
    if IdentityError(s, nick, key) == [] && s.clients[i].nickname == [] {
      IdentityOk(s, nick, key);
      FlagAwake(c, s, Claim(i, nick, key, challenge));
      Legal2(c, e, s, Claim(i, nick, key, challenge), Tell({i}, Challenge(challenge)));
    }
  }

  lemma FlagAwake(c: Config, s: Server, a: Action)
    requires a.Count? || a.Negotiate? || a.Authorize? || a.Claim?
    requires IsAwake(s, a.id)
    ensures IsAwake(Do(c, s, a), a.id)
  {
  }

  lemma ProofLegal(c: Config, e: Input, s: Server, i: SessionId, signature: Text)
    requires Sound(c, s) && i in s.clients && MayCommand(c, s.clients[i])
    requires e.Received? && e.id == i && e.message == IdentityProof(signature) && s.clients[i].phase == Reading
    ensures Legal(c, e, s, ProofPlan(c, s, i, signature))
  {
    hide Sound, DropPlan, NicknameInUse, CanBind, Do, MayCommand, Allowed, Respond, Legal, Run;
    DropLegal(c, e, s, i, JoinRejected("Identify before sending proof"));
    DropLegal(c, e, s, i, JoinRejected("Identity proof failed"));
    DropLegal(c, e, s, i, Banned);
    DropLegal(c, e, s, i, ServerMessage.NicknameTaken);
    DropLegal(c, e, s, i, JoinRejected("Identity registration failed"));
    RespondLegal(c, e, s, i, JoinRejected("Already joined"));
    if EnterReady(c, e, s, i) {
      EnterLegal(c, e, s, i);
    } else {
      EnterUnready(c, e, s, i);
    }
  }

  ghost predicate EnterReady(c: Config, e: Input, s: Server, i: SessionId) { Allowed(c, e, s, Enter(i)) }

  lemma EnterUnready(c: Config, e: Input, s: Server, i: SessionId)
    requires !EnterReady(c, e, s, i) && i in s.clients && MayCommand(c, s.clients[i]) && s.clients[i].phase == Reading
    requires e.Received? && e.id == i && e.message.IdentityProof?
    ensures var x := Of(s, i);
      || x.nickname != [] || x.pendingNickname == [] || x.pendingKey == [] || x.pendingChallenge == []
      || !c.verifies(x.pendingKey, x.pendingChallenge, e.message.signature)
      || x.pendingNickname in s.bans || NicknameInUse(c, s, x.pendingNickname)
      || !CanBind(s, x.pendingNickname, x.pendingKey)
  {
    hide NicknameInUse, CanBind, MayCommand;
  }

  lemma PlainAcceptance(c: Config, e: Input, s: Server, i: SessionId)
    requires EnterReady(c, e, s, i)
    ensures Plain(JoinAccepted) && SeeksRoom(e, i) && i in s.clients && s.clients[i].nickname == []
    ensures IsAwake(Do(c, s, Enter(i)), i)
  {
    hide NicknameInUse, CanBind, MayCommand, Bind;
  }

  /** Once entered and told so, the session may take its seat in the lobby. */
  lemma EnterChain(c: Config, e: Input, s: Server, i: SessionId, m: ServerMessage)
    requires Sound(c, s) && EnterReady(c, e, s, i) && Plain(m)
    ensures var entered := Do(c, s, Enter(i));
      var told := Do(c, entered, Tell({i}, m));
      && Allowed(c, e, entered, Tell({i}, m)) && Allowed(c, e, told, Tell({i}, JoinAccepted))
      && Allowed(c, e, Do(c, told, Tell({i}, JoinAccepted)), Move(i, LOBBY, false))
  {
    hide Do, Sound, Allowed, Plain, EnterReady, SeeksRoom;
    PlainAcceptance(c, e, s, i);
    Seatless(c, s, i);
    EnterMoves(c, e, s, i);
    var entered := Do(c, s, Enter(i));
    var told := Do(c, entered, Tell({i}, m));
    ToldBare(c, entered, i, m, JoinAccepted);
    TellAllowed(c, e, entered, {i}, m);
    TellAllowed(c, e, told, {i}, JoinAccepted);
    MoveAllowed(c, e, Do(c, told, Tell({i}, JoinAccepted)), i, LOBBY, false);
  }

  lemma EnterLegal(c: Config, e: Input, s: Server, i: SessionId)
    requires Sound(c, s) && EnterReady(c, e, s, i)
    ensures Legal(c, e, s, Then(One(Enter(i)),
              Then(Respond(i, IdentityAccepted(Fingerprint(Of(s, i).pendingKey))),
                Then(Respond(i, JoinAccepted), One(Move(i, LOBBY, false))))))
  {
    var m := IdentityAccepted(Fingerprint(Of(s, i).pendingKey));
    assert Plain(m);
    hide Do, Sound, Allowed, Fingerprint, Plain, Legal;
    EnterChain(c, e, s, i, m);
    Legal4(c, e, s, Enter(i), Tell({i}, m), Tell({i}, JoinAccepted), Move(i, LOBBY, false));
  }

  lemma MoveAllowed(c: Config, e: Input, s: Server, i: SessionId, target: RoomId, announce: bool)
    requires SeeksRoom(e, i) && i in s.clients && s.clients[i].nickname != [] && target in s.rooms
    requires (announce || s.clients[i].activeRoom == 0) && s.clients[i].activeRoom != target
    ensures Allowed(c, e, s, Move(i, target, announce))
  {
  }

  lemma ToldBare(c: Config, s: Server, i: SessionId, m: ServerMessage, n: ServerMessage)
    requires i in s.clients
    ensures var u, t := Do(c, s, Tell({i}, m)), Do(c, Do(c, s, Tell({i}, m)), Tell({i}, n));
      && i in u.clients && u.clients[i].nickname == s.clients[i].nickname
      && i in t.clients && t.rooms == s.rooms
      && t.clients[i].nickname == s.clients[i].nickname && t.clients[i].activeRoom == s.clients[i].activeRoom
  {
    hide DeliverAll;
    DeliverBare(c, s, i, m);
    DeliverBare(c, Deliver(c, s, i, m), i, n);
  }

  lemma EnterMoves(c: Config, e: Input, s: Server, i: SessionId)
    requires Sound(c, s) && EnterReady(c, e, s, i)
    ensures var t := Do(c, s, Enter(i));
      && i in t.clients && t.rooms == s.rooms
      && t.clients[i].nickname != [] && t.clients[i].activeRoom == s.clients[i].activeRoom
  {
    hide NicknameInUse, CanBind, MayCommand;
    AdmitSound(c, s, i);
  }

  lemma Seatless(c: Config, s: Server, i: SessionId)
    requires Sound(c, s) && i in s.clients && s.clients[i].nickname == []
    ensures s.clients[i].activeRoom == 0 && LOBBY in s.rooms
  {
  }

  /** A reply changes nothing but the outbox of its session, and no room. */
  lemma DeliverBare(c: Config, s: Server, i: SessionId, m: ServerMessage)
    requires i in s.clients
    ensures var t := Deliver(c, s, i, m);
      && i in t.clients && t.rooms == s.rooms
      && t.clients[i].nickname == s.clients[i].nickname && t.clients[i].activeRoom == s.clients[i].activeRoom
  {
  }

  lemma CountThen(c: Config, e: Input, s: Server, i: SessionId, quota: RateLimit.Queues, p: Plan)
    requires i in s.clients && Legal(c, e, Do(c, s, Count(i, quota)), p)
    ensures Legal(c, e, s, Then(One(Count(i, quota)), p))
  {
    hide Do;
  }

  function ChatRest(x: Session, i: SessionId, ok: bool, body: Text, env: Env): Plan
  {
    if !ok then Respond(i, DirectText(SLOW_DOWN))
    else if !IsValidText(body, MAX_CHAT_LENGTH) then Respond(i, DirectText("[system] Invalid message text"))
    else One(Say(x.activeRoom, "[" + env.timeOfDay + "] " + x.nickname + ": " + body, x.nickname))
  }

  lemma ChatRestLegal(c: Config, e: Input, s: Server, x: Session, i: SessionId, ok: bool, body: Text, env: Env)
    requires IsAwake(s, i)
    ensures Legal(c, e, s, ChatRest(x, i, ok, body, env))
  {
    hide IsValidText, IsAwake, Do;
  }

  lemma ChatLegal(c: Config, e: Input, s: Server, i: SessionId, body: Text, env: Env)
    requires i in s.clients && s.clients[i].phase == Reading
    ensures Legal(c, e, s, ChatPlan(s, i, body, env))
  {
    var x := s.clients[i];
    var (ok, quota) := RateLimit.Consume(x.quota, x.activeRoom, env.now);
    FlagAwake(c, s, Count(i, quota));
    RespondPlain(c, e, s, i);
    assert x.nickname != [] ==> ChatPlan(s, i, body, env) == Then(One(Count(i, quota)), ChatRest(x, i, ok, body, env));
    hide RateLimit.Consume, IsValidText, Do, Legal, IsAwake, ChatRest;
    ChatRestLegal(c, e, Do(c, s, Count(i, quota)), x, i, ok, body, env);
    CountThen(c, e, s, i, quota, ChatRest(x, i, ok, body, env));
  }

  ghost function WhisperRest(c: Config, s: Server, x: Session, i: SessionId, ok: bool, target: Text, body: Text, env: Env): Plan
  {
    if !ok then Respond(i, DirectText(SLOW_DOWN))
    else if !IsValidNickname(target) || !IsValidText(body, MAX_CHAT_LENGTH) then
      Respond(i, DirectText(BAD_WHISPER))
    else PrivatePlan(c, s, x.nickname, target, body, x.activeRoom, env.timeOfDay)
  }

  lemma WhisperRestLegal(c: Config, e: Input, s: Server, x: Session, i: SessionId, ok: bool, target: Text, body: Text, env: Env)
    requires Sound(c, s) && IsAwake(s, i)
    ensures Legal(c, e, s, WhisperRest(c, s, x, i, ok, target, body, env))
  {
    hide IsValidText, IsValidNickname, IsAwake, Do, PrivatePlan, Sound, Legal;
    RespondPlain(c, e, s, i);
    PrivateLegal(c, e, s, x.nickname, target, body, x.activeRoom, env.timeOfDay);
  }

  lemma WhisperLegal(c: Config, e: Input, s: Server, i: SessionId, target: Text, body: Text, env: Env)
    requires Sound(c, s) && i in s.clients && s.clients[i].phase == Reading
    ensures Legal(c, e, s, WhisperPlan(c, s, i, target, body, env))
  {
    var x := s.clients[i];
    var (ok, quota) := RateLimit.Consume(x.quota, x.activeRoom, env.now);
    var counted := With(s, i, x.(quota := quota));
    FlagAwake(c, s, Count(i, quota));
    CountedIs(c, e, s, i, quota);
    RespondPlain(c, e, s, i);
    hide Sound, RateLimit.Consume, IsValidText, IsValidNickname, Do, Legal, IsAwake, PrivatePlan, With;
    var rest := WhisperRest(c, counted, x, i, ok, target, body, env);
    assert x.nickname != [] ==> WhisperPlan(c, s, i, target, body, env) == Then(One(Count(i, quota)), rest);
    hide WhisperRest, WhisperPlan;
    WhisperRestLegal(c, e, counted, x, i, ok, target, body, env);
    CountThen(c, e, s, i, quota, rest);
    if x.nickname == [] { WhisperUnjoined(c, s, i, target, body, env); }
  }

  lemma WhisperUnjoined(c: Config, s: Server, i: SessionId, target: Text, body: Text, env: Env)
    requires i in s.clients && s.clients[i].nickname == []
    ensures WhisperPlan(c, s, i, target, body, env) == Respond(i, DirectText(JOIN_FIRST))
  {
  }

  lemma CountedIs(c: Config, e: Input, s: Server, i: SessionId, quota: RateLimit.Queues)
    requires Sound(c, s) && i in s.clients
    ensures Do(c, s, Count(i, quota)) == With(s, i, s.clients[i].(quota := quota))
    ensures Sound(c, Do(c, s, Count(i, quota)))
  {
    hide Sound, Do;
    CountIs(c, e, s, i, quota);
    FlagActionSound(c, e, s, Count(i, quota));
  }

  lemma CountIs(c: Config, e: Input, s: Server, i: SessionId, quota: RateLimit.Queues)
    requires i in s.clients
    ensures Do(c, s, Count(i, quota)) == With(s, i, s.clients[i].(quota := quota))
    ensures Allowed(c, e, s, Count(i, quota))
  {
  }

  lemma TopicRequestLegal(c: Config, e: Input, s: Server, i: SessionId, topic: Option<Text>)
    requires i in s.clients && IsAwake(s, i)
    ensures Legal(c, e, s, TopicRequestPlan(c, s, i, topic))
  {
    hide Do, SetTopic, TopicPlan;
    var x := Of(s, i);
    if topic.Some? { TopicLegal(c, e, s, x.activeRoom, x.nickname, false, topic.value); }
  }

  lemma FoundAllowed(c: Config, e: Input, s: Server, i: SessionId, name: Text)
    requires Sound(c, s) && i in s.clients && CreationError(s, name) == []
    ensures Allowed(c, e, s, Found(name, s.clients[i].nickname))
  {
    PendingValid(c, s, i);
    hide Sound, CreationError, IsValidNickname;
  }

  lemma FounderMoves(c: Config, e: Input, s: Server, i: SessionId, name: Text)
    requires SeeksRoom(e, i) && Sound(c, s) && i in s.clients && s.clients[i].nickname != [] && CreationError(s, name) == []
    ensures Allowed(c, e, Do(c, s, Found(name, s.clients[i].nickname)), Move(i, s.nextRoomId, true))
  {
    hide Sound, CreationError, AddRoom;
    AddRoomSound(c, s, name, s.clients[i].nickname);
    NextIsFree(c, s, name);
  }

  lemma CreateLegal(c: Config, e: Input, s: Server, i: SessionId, name: Text)
    requires SeeksRoom(e, i) && Sound(c, s) && i in s.clients && s.clients[i].nickname != [] && IsAwake(s, i)
    ensures Legal(c, e, s, CreatePlan(s, i, name))
  {
    hide Sound, CreationError, Do, Allowed, Legal, Run, IsAwake;
    if CreationError(s, name) == [] {
      FoundAllowed(c, e, s, i, name);
      FounderMoves(c, e, s, i, name);
      Legal2(c, e, s, Found(name, s.clients[i].nickname), Move(i, s.nextRoomId, true));
    } else {
      RespondPlain(c, e, s, i);
    }
  }

  lemma NextIsFree(c: Config, s: Server, name: Text)
    requires Sound(c, s) && CreationError(s, name) == []
    ensures forall i :: i in s.clients ==> s.clients[i].activeRoom != s.nextRoomId
    ensures s.localRoomId != s.nextRoomId
  {
    hide DistinctNames, Handles, CreationError, IsValidRoomName, IsValidRoomTopic, Lower;
    assert s.nextRoomId !in s.rooms;
    assert s.nextRoomId != 0;
  }

  lemma JoinLegal(c: Config, e: Input, s: Server, i: SessionId, name: Text)
    requires SeeksRoom(e, i) && i in s.clients && s.clients[i].nickname != [] && IsAwake(s, i)
    ensures Legal(c, e, s, JoinPlan(c, s, i, name))
  {
    hide MoveSession, NameExists, FindRoom, Do;
    FoundIn(s, name);
  }

  lemma FoundIn(s: Server, name: Text)
    ensures NameExists(s, name) ==> FindRoom(s, name) in s.rooms
  {
    hide FindRoom, Lower;
  }

  lemma LeaveLegal(c: Config, e: Input, s: Server, i: SessionId)
    requires SeeksRoom(e, i) && Sound(c, s) && i in s.clients && s.clients[i].nickname != [] && IsAwake(s, i)
    ensures Legal(c, e, s, LeavePlan(s, i))
  {
    hide Do;
  }

  lemma KickRequestLegal(c: Config, e: Input, s: Server, i: SessionId, nick: Text, reason: Text)
    requires Sound(c, s) && i in s.clients && IsAwake(s, i)
    ensures Legal(c, e, s, KickRequestPlan(c, s, i, nick, reason))
  {
    hide Sound, KickInRoom, KickPlan, KickFor;
    KickLegal(c, e, s, Of(s, i).activeRoom, nick, reason);
    var reply := KickFor(c, s, i, nick, reason);
    if reply.Refused? { RespondLegal(c, e, s, i, ServerError(reply.error)); }
  }

  lemma RoomListClean(c: Config, s: Server)
    requires Sound(c, s) || Shaped(s)
    ensures Clean(RoomList(RoomSummaries(c, s)))
  {
    hide Seats, DistinctNames, Handles, Ordered, IsValidRoomName, IsValidRoomTopic, Lower;
    var ids := Ordered(s.rooms.Keys);
    assert |ids| == |s.rooms.Keys| == |s.rooms|;
    forall k | 0 <= k < |ids| ensures IsValidRoomName(Summary(c, s, ids[k]).name) {
      assert ids[k] in ids;
    }
  }

  lemma CommandLegal(c: Config, e: Input, s: Server, i: SessionId, m: ClientMessage, env: Env)
    requires Sound(c, s) && i in s.clients && MayCommand(c, s.clients[i]) && e == Received(i, m, env)
    requires s.clients[i].phase == Reading
    ensures Legal(c, e, s, CommandPlan(c, s, i, m, env))
  {
    hide Sound, IdentifyPlan, ProofPlan, ChatPlan, WhisperPlan, TopicRequestPlan, CreatePlan, JoinPlan, LeavePlan,
      KickRequestPlan, RoomSummaries, Respond, Do, MayCommand, Clean;
    match m
    case Identify(nick, key) => IdentifyLegal(c, e, s, i, nick, key, env.challenge);
    case IdentityProof(signature) => ProofLegal(c, e, s, i, signature);
    case Leave =>
      if s.clients[i].nickname != [] { LeaveLegal(c, e, s, i); }
      RespondPlain(c, e, s, i);
    case Disconnect => DisconnectLegal(c, e, s, i);
    case ListRooms =>
      RoomListClean(c, s);
      RespondLegal(c, e, s, i, RoomList(RoomSummaries(c, s)));
      RespondPlain(c, e, s, i);
    case CreateRoom(name) =>
      if s.clients[i].nickname != [] { CreateLegal(c, e, s, i, name); }
      RespondPlain(c, e, s, i);
    case JoinRoom(name) =>
      if s.clients[i].nickname != [] { JoinLegal(c, e, s, i, name); }
      RespondPlain(c, e, s, i);
    case TopicRequest(topic) => TopicRequestLegal(c, e, s, i, topic);
    case Chat(body) => ChatLegal(c, e, s, i, body, env);
    case Whisper(target, body) => WhisperLegal(c, e, s, i, target, body, env);
    case KickRequest(nick, reason) =>
      KickRequestLegal(c, e, s, i, nick, reason);
      RespondPlain(c, e, s, i);
    case _ =>
  }

  lemma RespondPlain(c: Config, e: Input, s: Server, i: SessionId)
    requires IsAwake(s, i)
    ensures forall text :: Legal(c, e, s, Respond(i, DirectText(text))) && Legal(c, e, s, Respond(i, ServerError(text)))
  {
    hide Do;
  }

  lemma DisconnectLegal(c: Config, e: Input, s: Server, i: SessionId)
    requires Sound(c, s) && i in s.clients
    ensures Legal(c, e, s, Then(One(Go(i, true)), Then(One(MarkClosing(i)), One(MarkStopped(i)))))
  {
    hide Sound, Do;
    ActionSound(c, e, s, Go(i, true));
    ActionClients(c, e, s, Go(i, true));
    ActionClients(c, e, Do(c, s, Go(i, true)), MarkClosing(i));
    Legal3(c, e, s, Go(i, true), MarkClosing(i), MarkStopped(i));
  }

  lemma MessageLegal(c: Config, e: Input, s: Server, i: SessionId, m: ClientMessage, env: Env)
    requires Sound(c, s) && i in s.clients && s.clients[i].phase == Reading && e == Received(i, m, env)
    ensures Legal(c, e, s, MessagePlan(c, s, i, m, env))
  {
    hide Sound, DropPlan, CommandPlan, Do;
    if m.Hello? {
      if !s.clients[i].negotiated {
        FlagAwake(c, s, Negotiate(i, m.version == VERSION));
        Legal2(c, e, s, Negotiate(i, m.version == VERSION),
          Tell({i}, if c.password != [] then AuthRequired else AuthAccepted));
      }
    } else if !s.clients[i].negotiated {
      DropLegal(c, e, s, i, ServerError("Protocol handshake required"));
    } else if m.Authenticate? {
      if m.password == c.password {
        FlagAwake(c, s, Authorize(i));
        Legal2(c, e, s, Authorize(i), Tell({i}, AuthAccepted));
      }
      else { DropLegal(c, e, s, i, AuthRejected); }
    } else if MayCommand(c, s.clients[i]) {
      CommandLegal(c, e, s, i, m, env);
    }
  }

  // ---- every step ----

  lemma SessionLegal(c: Config, s: Server, e: Input)
    requires Sound(c, s) && Enabled(c, s, e) && !IsHostCall(e)
    ensures Legal(c, e, s, PlanOf(c, s, e))
  {
    hide Sound, MessagePlan, DropPlan, Do;
    match e
    case HandshakeDone(i, ok) =>
      if !ok {
        ActionClients(c, e, s, Go(i, false));
        Legal2(c, e, s, Go(i, false), MarkStopped(i));
      }
    case ReadFailed(i, announce) =>
      ActionClients(c, e, s, Go(i, announce));
      Legal2(c, e, s, Go(i, announce), MarkStopped(i));
    case BadFrame(i, error, detail) => DropLegal(c, e, s, i, ServerError("Invalid client frame: " + detail));
    case Received(i, m, env) => MessageLegal(c, e, s, i, m, env);
    case _ =>
  }

  lemma PlaceLegal(c: Config, s: Server, e: Input)
    requires c.localNickname != [] && s.localRoomId == 0
    ensures Legal(c, e, s, Then(One(PlaceHost), One(ShowRooms)))
  {
    hide Do;
    Legal2(c, e, s, PlaceHost, ShowRooms);
  }

  lemma MoveHostLegal(c: Config, s: Server, e: Input, target: RoomId)
    requires target in s.rooms && s.localRoomId != target
    ensures Legal(c, e, s, One(MoveHost(target)))
  {
  }

  lemma CreateLocalLegal(c: Config, s: Server, e: Input, name: Text)
    requires Sound(c, s) && CreationError(s, name) == []
    ensures Legal(c, e, s, Then(One(Found(name, c.localNickname)), One(MoveHost(s.nextRoomId))))
  {
    hide Sound, CreationError, Do;
    FoundIsThere(c, s, name, c.localNickname);
    NextIsFree(c, s, name);
    Legal2(c, e, s, Found(name, c.localNickname), MoveHost(s.nextRoomId));
  }

  lemma HostLegal(c: Config, s: Server, e: Input)
    requires Sound(c, s) && IsHostCall(e) && !IsAdminCall(e) && Enabled(c, s, e)
    ensures Legal(c, e, s, PlanOf(c, s, e))
  {
    LobbyExists(c, s);
    LegalSkip(c, s, e);
    hide Sound, TopicPlan, PrivatePlan, CreationError, NameExists, FindRoom, RoomFor, Legal, Run;
    match e
    case StartLocalUser =>
      if c.localNickname != [] { PlaceLegal(c, s, e); }
    case CreateLocalRoom(name) =>
      if CreationError(s, name) == [] { CreateLocalLegal(c, s, e, name); }
    case JoinLocalRoom(name) =>
      FoundIn(s, name);
      if NameExists(s, name) && s.localRoomId != FindRoom(s, name) { MoveHostLegal(c, s, e, FindRoom(s, name)); }
    case LeaveLocalRoom => if s.localRoomId != LOBBY { MoveHostLegal(c, s, e, LOBBY); }
    case SetLocalTopic(topic) => TopicLegal(c, e, s, s.localRoomId, c.localNickname, true, topic);
    case Broadcast(text) => SayLegal(c, s, e, if s.localRoomId == 0 then LOBBY else s.localRoomId, text);
    case SendLocalPrivate(target, body, timeOfDay) =>
      PrivateLegal(c, e, s, c.localNickname, target, body, RoomFor(s, c.localNickname), timeOfDay);
  }

  lemma SayLegal(c: Config, s: Server, e: Input, r: RoomId, text: Text)
    ensures Legal(c, e, s, One(Say(r, text, [])))
  {
  }

  lemma LegalSkip(c: Config, s: Server, e: Input)
    ensures Legal(c, e, s, Skip)
  {
  }

  lemma FoundIsThere(c: Config, s: Server, name: Text, owner: Text)
    requires Sound(c, s) && CreationError(s, name) == []
    ensures s.nextRoomId in Do(c, s, Found(name, owner)).rooms
    ensures Do(c, s, Found(name, owner)).localRoomId == s.localRoomId
  {
    AddRoomSound(c, s, name, owner);
  }

  lemma LobbyExists(c: Config, s: Server)
    requires Sound(c, s)
    ensures LOBBY in s.rooms
  {
  }

  lemma ModerationLegal(c: Config, s: Server, e: Input)
    requires Sound(c, s) && (e.KickUser? || e.SetAdminTopic? || e.KickUserInRoom? || e.BanUser?)
    ensures Legal(c, e, s, PlanOf(c, s, e))
  {
    hide Sound, TopicPlan, KickPlan, BanPlan, NameExists, FindRoom, RoomFor, Legal, Run;
    LegalSkip(c, s, e);
    match e
    case KickUser(nick, reason) => KickLegal(c, e, s, RoomFor(s, nick), nick, reason);
    case SetAdminTopic(name, topic) => TopicLegal(c, e, s, FindRoom(s, name), "server", true, topic);
    case KickUserInRoom(name, nick, reason) => KickLegal(c, e, s, FindRoom(s, name), nick, reason);
    case BanUser(nick, reason) => BanLegal(c, e, s, nick, reason);
  }

  lemma AdminLegal(c: Config, s: Server, e: Input)
    requires Sound(c, s) && (e.BroadcastServer? || e.CreateAdminRoom? || e.UnbanUser? || e.RegisterLocalIdentity?)
    ensures Legal(c, e, s, PlanOf(c, s, e))
  {
    hide Sound, CreationError, Do, EachPlan, Ordered, IdentityError, CanBind, IsValidNickname;
    match e
    case BroadcastServer(text) => EachLegal(c, e, s, Ordered(s.rooms.Keys), "[SERVER] " + text);
    case RegisterLocalIdentity(nick, key) => if IdentityError(s, nick, key) == [] { IdentityOk(s, nick, key); }
    case CreateAdminRoom(name) => if CreationError(s, name) == [] { Legal2(c, e, s, Found(name, []), ShowRooms); }
    case UnbanUser(nick) =>
  }

  lemma PlanLegal(c: Config, s: Server, e: Input)
    requires Sound(c, s) && Enabled(c, s, e)
    ensures Legal(c, e, s, PlanOf(c, s, e))
  {
    hide Legal, PlanOf, Sound, Enabled;
    if !IsHostCall(e) { SessionLegal(c, s, e); }
    else if e.KickUser? || e.SetAdminTopic? || e.KickUserInRoom? || e.BanUser? { ModerationLegal(c, s, e); }
    else if IsAdminCall(e) { AdminLegal(c, s, e); }
    else { HostLegal(c, s, e); }
  }

  lemma StepSound(c: Config, s: Server, e: Input)
    requires Sound(c, s) && Enabled(c, s, e)
    ensures Sound(c, Step(c, s, e))
  {
    hide Legal, PlanOf, Run, Step, Sound, Enabled;
    PlanLegal(c, s, e);
    PlanSound(c, e, s, PlanOf(c, s, e));
    PlanRuns(c, s, e);
  }

  /** Membership partition, unique and unbanned nicknames, and the room table, in every reachable
      state. */
  lemma {:induction false} RunSound(c: Config, states: seq<Server>, inputs: seq<Input>, n: nat)
    requires IsRun(c, states, inputs) && Sound(c, states[0]) && n <= |inputs|
    ensures Sound(c, states[n])
  {
    hide Sound, Step, Enabled;
    if n > 0 {
      RunSound(c, states, inputs, n - 1);
      StepSound(c, states[n - 1], inputs[n - 1]);
    }
  }
}
