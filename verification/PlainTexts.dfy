/** No text with a NUL in it is ever stored, as long as the host, the administrator and the clock give
    none: what sessions say has been checked. */
module PlainTexts {
  import opened Octets
  import opened Messages
  import opened Ordering
  import opened Tables
  import opened History
  import opened ServerModel
  import opened ServerStructure
  import opened ServerActions
  import opened ServerPlans
  import opened ServerSafety
  import opened ServerReach
  import opened ServerEffects
  import opened Persistence
  import opened Speech
  import RateLimit

  /** Recent texts and banned names without NULs. */
  ghost predicate PlainState(s: Server)
  {
    (forall r :: r in s.rooms ==> AllNulFree(s.rooms[r].recent)) && forall n :: n in s.bans ==> NulFree(n)
  }

  /** Messages are as decoding leaves them; the time of day and what the host and the administrator
      say, whom they ban, and why they kick someone hold no NUL. */
  predicate PlainInput(e: Input)
  {
    match e
    case Received(_, m, env) => ClientWellFormed(m) && NulFree(env.timeOfDay)
    case Broadcast(text) => NulFree(text)
    case BroadcastServer(text) => NulFree(text)
    case KickUser(_, reason) => NulFree(reason)
    case KickUserInRoom(_, _, reason) => NulFree(reason)
    case BanUser(nick, _) => NulFree(nick)
    case _ => true
  }

  // ---- texts put together ----

  lemma {:induction false} Joined(a: Text, b: Text)
    requires NulFree(a) && NulFree(b)
    ensures NulFree(a + b)
  {
  }

  lemma Valid(t: Text, max: nat)
    requires t == [] || IsValidNickname(t) || IsValidRoomName(t) || IsValidRoomTopic(t) || IsValidText(t, max)
    ensures NulFree(t)
  {
  }

  /** The words between. */
  lemma Words()
    ensures NulFree("[system] ") && NulFree(" left for #") && NulFree(" joined #") && NulFree(" left")
    ensures NulFree(" was kicked") && NulFree(": ") && NulFree(" has been banned") && NulFree(" changed the topic to: ")
    ensures NulFree("[") && NulFree("] ") && NulFree("[SERVER] ") && NulFree("server") && NulFree("") && NulFree([])
  {
  }

  lemma {:induction false} NoticePlain(nick: Text, name: Text)
    requires NulFree(nick) && NulFree(name)
    ensures NulFree(LeftFor(nick, name)) && NulFree(Entered(nick, name)) && NulFree(Left(nick))
    ensures NulFree("[system] " + nick + " has been banned")
    ensures NulFree("[system] " + nick + " changed the topic to: " + name)
    ensures NulFree(KickNotice(nick, name))
  {
    Words();
    hide NulFree;
    var start: Text := "[system] " + nick;
    Joined("[system] ", nick);
    Joined(start, " left for #");
    Joined(start + " left for #", name);
    Joined(start, " joined #");
    Joined(start + " joined #", name);
    Joined(start, " left");
    Joined(start, " has been banned");
    Joined(start, " changed the topic to: ");
    Joined(start + " changed the topic to: ", name);
    Joined(start, " was kicked");
    Joined(": ", name);
    Joined(start + " was kicked", ": " + name);
    Joined(start + " was kicked", "");
  }

  lemma {:induction false} ChatPlain(timeOfDay: Text, nick: Text, body: Text)
    requires NulFree(timeOfDay) && NulFree(nick) && NulFree(body)
    ensures NulFree("[" + timeOfDay + "] " + nick + ": " + body) && NulFree("[SERVER] " + body)
  {
    Words();
    hide NulFree;
    Joined("[SERVER] ", body);
    Joined("[", timeOfDay);
    Joined("[" + timeOfDay, "] ");
    Joined("[" + timeOfDay + "] ", nick);
    Joined("[" + timeOfDay + "] " + nick, ": ");
    Joined("[" + timeOfDay + "] " + nick + ": ", body);
  }

  // ---- one action ----

  lemma {:induction false} BoundedPlain(texts: seq<Text>, text: Text, limit: nat)
    requires AllNulFree(texts) && NulFree(text)
    ensures AllNulFree(Bounded(texts + [text], limit))
  {
    hide NulFree;
  }

  lemma SaidPlain(c: Config, s: Server, r: RoomId, text: Text, nick: Text)
    requires PlainState(s) && NulFree(text)
    ensures PlainState(BroadcastRoom(c, s, r, text, nick))
  {
    if r in s.rooms {
      SaidFields(c, s, r, text, nick);
      hide NulFree, AllNulFree, BroadcastRoom, Bounded;
      BoundedPlain(s.rooms[r].recent, text, c.historyLimit);
    }
  }

  ghost predicate AllPlain(said: seq<Said>) { forall k :: 0 <= k < |said| ==> NulFree(said[k].text) }

  lemma {:induction false} SayAllPlain(c: Config, s: Server, said: seq<Said>)
    requires PlainState(s) && AllPlain(said)
    ensures PlainState(SayAll(c, s, said))
    decreases |said|
  {
    hide PlainState, NulFree, BroadcastRoom;
    if said != [] {
      var n := |said| - 1;
      SayAllPlain(c, s, said[..n]);
      SaidPlain(c, SayAll(c, s, said[..n]), said[n].room, said[n].text, said[n].nickname);
    }
  }

  lemma RecordPlain(s: Server, t: Server)
    requires PlainState(s) && SameRecord(s, t)
    ensures PlainState(t)
  {
    hide NulFree, AllNulFree, Unmanned;
    forall r | r in t.rooms ensures AllNulFree(t.rooms[r].recent) {
      UnmannedKeeps(s.rooms[r], t.rooms[r]);
    }
  }

  predicate PlainAction(a: Action) { (a.Say? ==> NulFree(a.text)) && (a.BanAway? ==> NulFree(a.nickname)) }

  lemma NothingPlain()
    ensures AllNulFree([])
  {
  }

  lemma BookedPlain(s: Server, a: Action)
    requires PlainState(s) && PlainAction(a)
    ensures PlainState(Booked(s, a))
  {
    NothingPlain();
    hide NulFree, AllNulFree;
  }

  lemma NamesPlain(c: Config, s: Server)
    requires Sound(c, s)
    ensures forall i :: i in s.clients ==> NulFree(s.clients[i].nickname)
    ensures forall r :: r in s.rooms ==> NulFree(s.rooms[r].name)
    ensures NulFree(NEW_SESSION.nickname) && NulFree(NO_ROOM.name)
  {
    hide Seats, DistinctNames, NulFree, IsValidNickname, IsValidRoomName, IsValidRoomTopic, Lower;
    Words();
    forall i | i in s.clients ensures NulFree(s.clients[i].nickname) { Valid(s.clients[i].nickname, 0); }
    forall r | r in s.rooms ensures NulFree(s.rooms[r].name) { Valid(s.rooms[r].name, 0); }
  }

  lemma TextsOfPlain(c: Config, s: Server, a: Action)
    requires Sound(c, s) && NulFree(c.localNickname) && PlainAction(a)
    ensures AllPlain(TextsOf(c, s, a))
  {
    NamesPlain(c, s);
    hide Sound, NulFree, LeftFor, Entered, Left;
    match a
    case Move(i, target, announce) => NoticePlain(Of(s, i).nickname, RoomOf(s, target).name);
    case MoveHost(target) => NoticePlain(c.localNickname, RoomOf(s, target).name);
    case Go(i, announce) => NoticePlain(Of(s, i).nickname, Of(s, i).nickname);
    case _ =>
  }

  lemma ActionPlain(c: Config, e: Input, s: Server, a: Action)
    requires Sound(c, s) && Allowed(c, e, s, a) && NulFree(c.localNickname) && PlainAction(a) && PlainState(s)
    ensures PlainState(Do(c, s, a))
  {
    hide Sound, Allowed, Do, PlainState, SameRecord, Booked, TextsOf, SayAll, PlainAction, NulFree, AllPlain;
    ActionLeads(c, e, s, a);
    BookedPlain(s, a);
    TextsOfPlain(c, s, a);
    SayAllPlain(c, Booked(s, a), TextsOf(c, s, a));
    RecordPlain(SayAll(c, Booked(s, a), TextsOf(c, s, a)), Do(c, s, a));
  }

  // ---- plans ----

  predicate PlainPlan(p: Plan)
  {
    match p
    case Skip => true
    case One(a) => PlainAction(a)
    case Then(q, o) => PlainPlan(q) && PlainPlan(o)
  }

  lemma {:induction false} PlanPlain(c: Config, e: Input, s: Server, p: Plan)
    requires Sound(c, s) && Legal(c, e, s, p) && NulFree(c.localNickname) && PlainPlan(p) && PlainState(s)
    ensures PlainState(Run(c, s, p))
    decreases p
  {
    hide Sound, Allowed, Do, PlainState, PlainAction, NulFree;
    match p
    case Skip =>
    case One(a) => ActionPlain(c, e, s, a);
    case Then(q, o) =>
      PlanPlain(c, e, s, q);
      PlanSound(c, e, s, q);
      PlanPlain(c, e, Run(c, s, q), o);
  }

  lemma OnePlain(a: Action)
    ensures PlainPlan(One(a)) <==> PlainAction(a)
    ensures !a.Say? && !a.BanAway? ==> PlainAction(a)
  {
  }

  lemma ThenPlain(p: Plan, q: Plan)
    ensures PlainPlan(Then(p, q)) <==> PlainPlan(p) && PlainPlan(q)
  {
  }

  lemma DropIsPlain(i: SessionId, m: ServerMessage)
    ensures PlainPlan(DropPlan(i, m)) && PlainPlan(Respond(i, m))
  {
    ThenPlain(One(Go(i, false)), One(MarkStopped(i)));
    ThenPlain(One(MarkClosing(i)), Then(One(Go(i, false)), One(MarkStopped(i))));
  }

  lemma AnnounceIsPlain(r: RoomId, text: Text)
    requires NulFree(text)
    ensures PlainPlan(AnnouncePlan(r, text))
  {
    ThenPlain(One(Say(r, text, [])), One(ShowUsers(r)));
  }

  lemma ExpelIsPlain(i: SessionId, nick: Text, reason: Text)
    ensures PlainPlan(ExpelPlan(i, nick, reason))
  {
    ThenPlain(One(MarkClosing(i)), One(Go(i, false)));
  }

  lemma KickIsPlain(c: Config, s: Server, r: RoomId, nick: Text, reason: Text)
    requires Sound(c, s) && NulFree(reason)
    ensures PlainPlan(KickPlan(s, r, nick, reason))
  {
    TargetIs(c, s, r, nick);
    NamesPlain(c, s);
    hide Sound, FirstNamed, Ordered, RoomOf, NulFree, ExpelPlan, AnnouncePlan, PlainPlan, KickNotice;
    var target := FirstNamed(s, Ordered(RoomOf(s, r).members), nick);
    if r in s.rooms && target.Some? {
      NoticePlain(nick, reason);
      ExpelIsPlain(target.value, nick, reason);
      AnnounceIsPlain(r, KickNotice(nick, reason));
      ThenPlain(ExpelPlan(target.value, nick, reason), AnnouncePlan(r, KickNotice(nick, reason)));
    } else {
      SkipIsPlain();
    }
  }

  lemma SkipIsPlain()
    ensures PlainPlan(Skip)
  {
  }

  lemma BanIsPlain(s: Server, nick: Text, reason: Text)
    requires NulFree(nick)
    ensures PlainPlan(BanPlan(s, nick, reason))
  {
    var target := FirstNamed(s, Ordered(s.sessions), nick);
    var text, a := "[system] " + nick + " has been banned", BanAway(nick, reason, target);
    assert PlainAction(a);
    hide FirstNamed, Ordered, NulFree, AnnouncePlan, PlainPlan, PlainAction;
    NoticePlain(nick, nick);
    OnePlain(a);
    if target.Some? {
      AnnounceIsPlain(Of(s, target.value).activeRoom, text);
      ThenPlain(One(a), AnnouncePlan(Of(s, target.value).activeRoom, text));
    }
  }

  lemma TopicIsPlain(c: Config, s: Server, r: RoomId, actor: Text, privileged: bool, topic: Text)
    requires NulFree(actor)
    ensures PlainPlan(TopicPlan(c, s, r, actor, privileged, topic))
  {
    var text := "[system] " + actor + " changed the topic to: " + topic;
    hide SetTopic, NulFree, IsValidRoomTopic;
    if SetTopic(c, s, r, actor, privileged, topic).Done? {
      SetTopicIsValid(c, s, r, actor, privileged, topic);
      Valid(topic, 0);
      NoticePlain(actor, topic);
    }
    ThenPlain(One(Retitle(r, topic)), One(Say(r, text, [])));
  }

  lemma SetTopicIsValid(c: Config, s: Server, r: RoomId, actor: Text, privileged: bool, topic: Text)
    requires SetTopic(c, s, r, actor, privileged, topic).Done?
    ensures IsValidRoomTopic(topic)
  {
    hide IsValidRoomTopic, DeliverAll, BroadcastRoom, WithRoom, Written;
  }

  lemma PrivateIsPlain(c: Config, s: Server, sender: Text, target: Text, body: Text, r: RoomId, stamp: Text)
    ensures PlainPlan(PrivatePlan(c, s, sender, target, body, r, stamp))
  {
    hide LastNamed, Ordered;
  }

  lemma {:induction false} EachIsPlain(ids: seq<RoomId>, text: Text)
    requires NulFree(text)
    ensures PlainPlan(EachPlan(ids, text))
    decreases |ids|
  {
    if ids != [] { EachIsPlain(ids[1..], text); }
  }

  lemma IdentityIsPlain(c: Config, s: Server, i: SessionId, m: ClientMessage, env: Env)
    requires m.Identify? || m.IdentityProof?
    ensures PlainPlan(CommandPlan(c, s, i, m, env))
  {
    hide DropPlan, IdentityError, NicknameInUse, CanBind, Fingerprint;
    match m
    case Identify(nick, key) =>
      DropIsPlain(i, JoinRejected(IdentityError(s, nick, key)));
      DropIsPlain(i, Banned);
      DropIsPlain(i, ServerMessage.NicknameTaken);
    case IdentityProof(signature) =>
      DropIsPlain(i, JoinRejected("Identify before sending proof"));
      DropIsPlain(i, JoinRejected("Identity proof failed"));
      DropIsPlain(i, Banned);
      DropIsPlain(i, ServerMessage.NicknameTaken);
      DropIsPlain(i, JoinRejected("Identity registration failed"));
      var x := Of(s, i);
      var told := Then(Respond(i, JoinAccepted), One(Move(i, LOBBY, false)));
      ThenPlain(Respond(i, JoinAccepted), One(Move(i, LOBBY, false)));
      ThenPlain(Respond(i, IdentityAccepted(Fingerprint(x.pendingKey))), told);
  }

  lemma SeatCommandIsPlain(c: Config, s: Server, i: SessionId, m: ClientMessage, env: Env)
    requires m.Leave? || m.Disconnect? || m.CreateRoom? || m.JoinRoom? || m.ListRooms? || m.Hello? || m.Authenticate?
    ensures PlainPlan(CommandPlan(c, s, i, m, env))
  {
    hide CreationError, JoinRoomFor, FindRoom, RoomSummaries;
    match m
    case Disconnect => ThenPlain(One(MarkClosing(i)), One(MarkStopped(i)));
    case _ =>
  }

  lemma ChatIsPlain(c: Config, s: Server, i: SessionId, body: Text, env: Env)
    requires Sound(c, s) && i in s.clients && NulFree(env.timeOfDay)
    ensures PlainPlan(ChatPlan(s, i, body, env))
  {
    NamesPlain(c, s);
    hide RateLimit.Consume, IsValidText, NulFree, Sound;
    var x := s.clients[i];
    if IsValidText(body, MAX_CHAT_LENGTH) {
      Valid(body, MAX_CHAT_LENGTH);
      ChatPlain(env.timeOfDay, x.nickname, body);
    }
  }

  lemma WhisperIsPlain(c: Config, s: Server, i: SessionId, target: Text, body: Text, env: Env)
    ensures PlainPlan(WhisperPlan(c, s, i, target, body, env))
  {
    hide RateLimit.Consume, IsValidText, IsValidNickname, PrivatePlan;
    var x := Of(s, i);
    var counted := With(s, i, x.(quota := RateLimit.Consume(x.quota, x.activeRoom, env.now).1));
    PrivateIsPlain(c, counted, x.nickname, target, body, x.activeRoom, env.timeOfDay);
  }

  lemma TopicRequestIsPlain(c: Config, s: Server, i: SessionId, topic: Option<Text>)
    requires Sound(c, s) && i in s.clients
    ensures PlainPlan(TopicRequestPlan(c, s, i, topic))
  {
    NamesPlain(c, s);
    hide TopicPlan, SetTopic, NulFree, Sound;
    var x := s.clients[i];
    if topic.Some? { TopicIsPlain(c, s, x.activeRoom, x.nickname, false, topic.value); }
  }

  lemma KickRequestIsPlain(c: Config, s: Server, i: SessionId, nick: Text, reason: Text)
    requires Sound(c, s) && i in s.clients && IsValidReason(reason)
    ensures PlainPlan(KickRequestPlan(c, s, i, nick, reason))
  {
    Valid(reason, MAX_CHAT_LENGTH);
    hide KickPlan, KickFor, NulFree, Sound, IsValidText;
    KickIsPlain(c, s, s.clients[i].activeRoom, nick, reason);
  }

  lemma CommandIsPlain(c: Config, s: Server, i: SessionId, m: ClientMessage, env: Env)
    requires Sound(c, s) && i in s.clients && ClientWellFormed(m) && NulFree(env.timeOfDay)
    ensures PlainPlan(CommandPlan(c, s, i, m, env))
  {
    hide Sound, NulFree, IsValidNickname, IsValidText, IsValidRoomTopic, NoControls, IsValidRoomName, ChatPlan, WhisperPlan,
      TopicRequestPlan, KickRequestPlan, IdentifyPlan, ProofPlan, CreatePlan, JoinPlan, LeavePlan, RoomSummaries, IsHex;
    match m
    case Identify(_, _) => IdentityIsPlain(c, s, i, m, env);
    case IdentityProof(_) => IdentityIsPlain(c, s, i, m, env);
    case Chat(body) => ChatIsPlain(c, s, i, body, env);
    case Whisper(target, body) => WhisperIsPlain(c, s, i, target, body, env);
    case TopicRequest(topic) => TopicRequestIsPlain(c, s, i, topic);
    case KickRequest(nick, reason) => KickRequestIsPlain(c, s, i, nick, reason);
    case _ => SeatCommandIsPlain(c, s, i, m, env);
  }

  lemma MessageIsPlain(c: Config, s: Server, i: SessionId, m: ClientMessage, env: Env)
    requires Sound(c, s) && i in s.clients && ClientWellFormed(m) && NulFree(env.timeOfDay)
    ensures PlainPlan(MessagePlan(c, s, i, m, env))
  {
    hide Sound, NulFree, DropPlan, CommandPlan, ClientWellFormed;
    DropIsPlain(i, ServerError("Protocol handshake required"));
    DropIsPlain(i, AuthRejected);
    CommandIsPlain(c, s, i, m, env);
  }

  lemma SessionIsPlain(c: Config, s: Server, e: Input)
    requires Sound(c, s) && Enabled(c, s, e) && !IsHostCall(e) && PlainInput(e)
    ensures PlainPlan(PlanOf(c, s, e))
  {
    hide Sound, NulFree, MessagePlan, DropPlan, ClientWellFormed;
    match e
    case BadFrame(i, error, detail) => DropIsPlain(i, ServerError("Invalid client frame: " + detail));
    case Received(i, m, env) => MessageIsPlain(c, s, i, m, env);
    case _ =>
  }

  lemma HostIsPlain(c: Config, s: Server, e: Input)
    requires Sound(c, s) && IsHostCall(e) && PlainInput(e) && NulFree(c.localNickname)
    ensures PlainPlan(PlanOf(c, s, e))
  {
    hide Sound, NulFree, TopicPlan, PrivatePlan, KickPlan, BanPlan, EachPlan, CreationError, NameExists, FindRoom, RoomFor,
      Ordered, IdentityError, CanBind;
    Words();
    match e
    case SetLocalTopic(topic) => TopicIsPlain(c, s, s.localRoomId, c.localNickname, true, topic);
    case SetAdminTopic(name, topic) => TopicIsPlain(c, s, FindRoom(s, name), "server", true, topic);
    case BroadcastServer(text) =>
      ChatPlain([], [], text);
      EachIsPlain(Ordered(s.rooms.Keys), "[SERVER] " + text);
    case SendLocalPrivate(target, body, timeOfDay) =>
      PrivateIsPlain(c, s, c.localNickname, target, body, RoomFor(s, c.localNickname), timeOfDay);
    case KickUser(nick, reason) => KickIsPlain(c, s, RoomFor(s, nick), nick, reason);
    case KickUserInRoom(name, nick, reason) => KickIsPlain(c, s, FindRoom(s, name), nick, reason);
    case BanUser(nick, reason) => BanIsPlain(s, nick, reason);
    case _ =>
  }

  /** Every step on a plain input keeps the stored texts plain. */
  lemma StepPlain(c: Config, s: Server, e: Input)
    requires Sound(c, s) && Enabled(c, s, e) && PlainInput(e) && NulFree(c.localNickname) && PlainState(s)
    ensures PlainState(Step(c, s, e))
  {
    hide Legal, PlanOf, Run, Step, Sound, Enabled, PlainState, PlainInput, NulFree, PlainPlan;
    PlanLegal(c, s, e);
    PlanRuns(c, s, e);
    if IsHostCall(e) { HostIsPlain(c, s, e); } else { SessionIsPlain(c, s, e); }
    PlanPlain(c, e, s, PlanOf(c, s, e));
  }

  /** No reachable state holds a text or a banned name with a NUL in it, if no input brings one: what
      sessions say has been checked on the way. */
  lemma {:induction false} RunPlain(c: Config, states: seq<Server>, inputs: seq<Input>, n: nat)
    requires IsRun(c, states, inputs) && Sound(c, states[0]) && PlainState(states[0]) && NulFree(c.localNickname)
    requires n <= |inputs| && forall k :: 0 <= k < |inputs| ==> PlainInput(inputs[k])
    ensures PlainState(states[n])
  {
    hide Sound, Step, Enabled, PlainState, PlainInput, NulFree;
    if n > 0 {
      RunPlain(c, states, inputs, n - 1);
      RunSound(c, states, inputs, n - 1);
      StepPlain(c, states[n - 1], inputs[n - 1]);
    }
  }
}
