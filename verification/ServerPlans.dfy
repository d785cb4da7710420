/** A step does exactly what its plan does, and every action of the plan is allowed. */
module ServerPlans {
  import opened Octets
  import opened Messages
  import opened Ordering
  import opened Tables
  import opened ServerModel
  import opened ServerActions
  import RateLimit

  // ---- the plan does what the handler does ----

  lemma RunSkip(c: Config, s: Server)
    ensures Run(c, s, Skip) == s
  {
  }

  lemma Run2(c: Config, s: Server, a: Action, b: Action)
    ensures Run(c, s, Then(One(a), One(b))) == Do(c, Do(c, s, a), b)
  {
    hide Do;
  }

  lemma Run3(c: Config, s: Server, a: Action, b: Action, d: Action)
    ensures Run(c, s, Then(One(a), Then(One(b), One(d)))) == Do(c, Do(c, Do(c, s, a), b), d)
  {
    hide Do;
    Run2(c, Do(c, s, a), b, d);
  }

  lemma Run4(c: Config, s: Server, a: Action, b: Action, d: Action, f: Action)
    ensures Run(c, s, Then(One(a), Then(One(b), Then(One(d), One(f))))) == Do(c, Do(c, Do(c, Do(c, s, a), b), d), f)
  {
    hide Do;
    Run3(c, Do(c, s, a), b, d, f);
  }

  lemma DropPlanRuns(c: Config, s: Server, i: SessionId, m: ServerMessage)
    ensures Run(c, s, DropPlan(i, m)) == Drop(c, s, i, m)
  {
    hide Depart, DeliverAll, Close, Stop, Run;
    Run4(c, s, Tell({i}, m), MarkClosing(i), Go(i, false), MarkStopped(i));
  }

  lemma ExpelPlanRuns(c: Config, s: Server, i: SessionId, nick: Text, reason: Text)
    ensures Run(c, s, ExpelPlan(i, nick, reason)) == Expel(c, s, i, nick, reason)
  {
    hide Depart, DeliverAll, Close, Run;
    Run3(c, s, Tell({i}, Kick(nick, reason)), MarkClosing(i), Go(i, false));
  }

  lemma AnnouncePlanRuns(c: Config, s: Server, r: RoomId, text: Text)
    ensures Run(c, s, AnnouncePlan(r, text)) == BroadcastUsers(c, BroadcastRoom(c, s, r, text, []), r)
  {
    hide BroadcastRoom, BroadcastUsers, Run;
    Run2(c, s, Say(r, text, []), ShowUsers(r));
  }

  lemma RespondRuns(c: Config, s: Server, i: SessionId, m: ServerMessage)
    ensures Run(c, s, Respond(i, m)) == Deliver(c, s, i, m)
  {
    hide DeliverAll;
  }

  lemma KickPlanRuns(c: Config, s: Server, r: RoomId, nick: Text, reason: Text)
    ensures var kicked := KickInRoom(c, s, r, nick, reason);
            Run(c, s, KickPlan(s, r, nick, reason)) == if kicked.None? then s else kicked.value
  {
    hide Expel, ExpelPlan, AnnouncePlan, BroadcastRoom, BroadcastUsers, FirstNamed, Ordered, RoomOf;
    var target := FirstNamed(s, Ordered(RoomOf(s, r).members), nick);
    if r in s.rooms && target.Some? {
      ExpelPlanRuns(c, s, target.value, nick, reason);
      AnnouncePlanRuns(c, Expel(c, s, target.value, nick, reason), r, KickNotice(nick, reason));
    }
  }

  lemma BanTarget(s: Server, nick: Text, reason: Text)
    ensures FirstNamed(BanStored(s, nick, reason), Ordered(BanStored(s, nick, reason).sessions), nick)
         == FirstNamed(s, Ordered(s.sessions), nick)
  {
    FirstNamedSame(s, BanStored(s, nick, reason), Ordered(s.sessions), nick);
  }

  lemma BanUnfolds(c: Config, s: Server, nick: Text, reason: Text)
    ensures var banned, target := BanStored(s, nick, reason), FirstNamed(s, Ordered(s.sessions), nick);
            Ban(c, s, nick, reason) ==
              if target.None? then banned
              else BroadcastUsers(c,
                BroadcastRoom(c, Expel(c, banned, target.value, nick, BanReason(reason)), Of(s, target.value).activeRoom,
                  "[system] " + nick + " has been banned", []),
                Of(s, target.value).activeRoom)
  {
    BanTarget(s, nick, reason);
    BanReasonIs(reason);
    assert BanStored(s, nick, reason).clients == s.clients;
    assert BanStored(s, nick, reason) == Written(s.(bans := s.bans + {nick}), BanWrite(nick, reason));
    hide Expel, BroadcastRoom, BroadcastUsers, FirstNamed, Ordered, BanStored, BanReason, Written;
  }

  lemma BanPlanRuns(c: Config, s: Server, nick: Text, reason: Text)
    ensures Run(c, s, BanPlan(s, nick, reason)) == Ban(c, s, nick, reason)
  {
    BanUnfolds(c, s, nick, reason);
    hide Ban, Expel, BroadcastRoom, BroadcastUsers, FirstNamed, Ordered, AnnouncePlan, BanStored, BanReason;
    var target := FirstNamed(s, Ordered(s.sessions), nick);
    if target.Some? {
      AnnouncePlanRuns(c, Expel(c, BanStored(s, nick, reason), target.value, nick, BanReason(reason)),
        Of(s, target.value).activeRoom, "[system] " + nick + " has been banned");
    }
  }

  lemma BanReasonIs(reason: Text)
    ensures BanReason(reason) == if reason == [] then "banned" else reason
  {
  }

  lemma {:induction false} FirstNamedSame(s: Server, t: Server, ids: seq<SessionId>, nick: Text)
    requires s.clients == t.clients
    ensures FirstNamed(s, ids, nick) == FirstNamed(t, ids, nick)
  {
    if ids != [] { FirstNamedSame(s, t, ids[1..], nick); }
  }

  lemma TopicPlanRuns(c: Config, s: Server, r: RoomId, actor: Text, privileged: bool, topic: Text)
    ensures Run(c, s, TopicPlan(c, s, r, actor, privileged, topic)) == OrSame(s, SetTopic(c, s, r, actor, privileged, topic))
  {
    hide DeliverAll, BroadcastRoom, IsValidRoomTopic, Written, WithRoom;
  }

  lemma PrivatePlanRuns(c: Config, s: Server, sender: Text, target: Text, body: Text, r: RoomId, stamp: Text)
    ensures Run(c, s, PrivatePlan(c, s, sender, target, body, r, stamp)) == SendPrivate(c, s, sender, target, body, r, stamp)
  {
    hide DeliverAll, LastNamed, Ordered, NotHere, PrivateLine;
  }

  lemma {:induction false} EachPlanRuns(c: Config, s: Server, ids: seq<RoomId>, text: Text)
    ensures Run(c, s, EachPlan(ids, text)) == BroadcastEach(c, s, ids, text)
    decreases |ids|
  {
    hide BroadcastRoom;
    if ids != [] { EachPlanRuns(c, BroadcastRoom(c, s, ids[0], text, []), ids[1..], text); }
  }

  lemma IdentifyPlanRuns(c: Config, s: Server, i: SessionId, nick: Text, key: Text, challenge: Text)
    ensures Run(c, s, IdentifyPlan(c, s, i, nick, key, challenge)) == OnIdentify(c, s, i, nick, key, challenge)
  {
    hide Drop, DropPlan, DeliverAll, IdentityError, NicknameInUse;
    DropPlanRuns(c, s, i, JoinRejected(IdentityError(s, nick, key)));
    DropPlanRuns(c, s, i, Banned);
    DropPlanRuns(c, s, i, ServerMessage.NicknameTaken);
  }

  lemma EnterPlanRuns(c: Config, s: Server, i: SessionId, m: ServerMessage)
    ensures Run(c, s, Then(One(Enter(i)), Then(Respond(i, m), Then(Respond(i, JoinAccepted), One(Move(i, LOBBY, false))))))
         == MoveSession(c, Deliver(c, Deliver(c, Admit(s, i), i, m), i, JoinAccepted), i, LOBBY, false)
  {
    hide DeliverAll, Admit, MoveSession, Run;
    Run4(c, s, Enter(i), Tell({i}, m), Tell({i}, JoinAccepted), Move(i, LOBBY, false));
  }

  lemma ProofPlanRuns(c: Config, s: Server, i: SessionId, signature: Text)
    ensures Run(c, s, ProofPlan(c, s, i, signature)) == OnProof(c, s, i, signature)
  {
    hide Drop, DropPlan, DeliverAll, NicknameInUse, CanBind, Admit, MoveSession, Fingerprint, Run, Do, Respond;
    EnterPlanRuns(c, s, i, IdentityAccepted(Fingerprint(Of(s, i).pendingKey)));
    RespondRuns(c, s, i, JoinRejected("Already joined"));
    DropPlanRuns(c, s, i, JoinRejected("Identify before sending proof"));
    DropPlanRuns(c, s, i, JoinRejected("Identity proof failed"));
    DropPlanRuns(c, s, i, Banned);
    DropPlanRuns(c, s, i, ServerMessage.NicknameTaken);
    DropPlanRuns(c, s, i, JoinRejected("Identity registration failed"));
  }

  lemma ChatPlanRuns(c: Config, s: Server, i: SessionId, body: Text, env: Env)
    ensures Run(c, s, ChatPlan(s, i, body, env)) == OnChat(c, s, i, body, env)
  {
    hide DeliverAll, BroadcastRoom, IsValidText, RateLimit.Consume, With;
  }

  lemma WhisperPlanRuns(c: Config, s: Server, i: SessionId, target: Text, body: Text, env: Env)
    ensures Run(c, s, WhisperPlan(c, s, i, target, body, env)) == OnWhisper(c, s, i, target, body, env)
  {
    hide DeliverAll, SendPrivate, PrivatePlan, IsValidText, IsValidNickname, RateLimit.Consume, With;
    var (ok, counted) := ConsumeQuota(s, i, env.now);
    PrivatePlanRuns(c, counted, Of(s, i).nickname, target, body, Of(s, i).activeRoom, env.timeOfDay);
  }

  lemma TopicRequestPlanRuns(c: Config, s: Server, i: SessionId, topic: Option<Text>)
    ensures Run(c, s, TopicRequestPlan(c, s, i, topic)) == OnTopic(c, s, i, topic)
  {
    hide DeliverAll, SetTopic, TopicPlan;
    var x := Of(s, i);
    if topic.Some? { TopicPlanRuns(c, s, x.activeRoom, x.nickname, false, topic.value); }
  }

  lemma CreatePlanRuns(c: Config, s: Server, i: SessionId, name: Text)
    ensures Run(c, s, CreatePlan(s, i, name)) == Answer(c, s, i, CreateRoomFor(c, s, i, name))
  {
    hide DeliverAll, CreationError, AddRoom, MoveSession;
  }

  lemma JoinPlanRuns(c: Config, s: Server, i: SessionId, name: Text)
    ensures Run(c, s, JoinPlan(c, s, i, name)) == Answer(c, s, i, JoinRoomFor(c, s, i, name))
  {
    hide DeliverAll, FindRoom, NameExists, MoveSession;
  }

  lemma LeavePlanRuns(c: Config, s: Server, i: SessionId)
    ensures Run(c, s, LeavePlan(s, i)) == Answer(c, s, i, LeaveRoomFor(c, s, i))
  {
    hide DeliverAll, MoveSession;
  }

  lemma KickRequestPlanRuns(c: Config, s: Server, i: SessionId, nick: Text, reason: Text)
    ensures Run(c, s, KickRequestPlan(c, s, i, nick, reason)) == Answer(c, s, i, KickFor(c, s, i, nick, reason))
  {
    hide DeliverAll, KickInRoom, KickPlan;
    KickPlanRuns(c, s, Of(s, i).activeRoom, nick, reason);
  }

  lemma DisconnectPlanRuns(c: Config, s: Server, i: SessionId)
    ensures Run(c, s, Then(One(Go(i, true)), Then(One(MarkClosing(i)), One(MarkStopped(i)))))
         == Stop(Close(Depart(c, s, i, true), i), i)
  {
    hide Depart, Close, Stop, Run;
    Run3(c, s, Go(i, true), MarkClosing(i), MarkStopped(i));
  }

  lemma CommandPlanRuns(c: Config, s: Server, i: SessionId, m: ClientMessage, env: Env)
    ensures Run(c, s, CommandPlan(c, s, i, m, env)) == OnCommand(c, s, i, m, env)
  {
    hide IdentifyPlan, ProofPlan, ChatPlan, WhisperPlan, TopicRequestPlan, CreatePlan, JoinPlan, LeavePlan,
      KickRequestPlan, OnIdentify, OnProof, OnChat, OnWhisper, OnTopic, CreateRoomFor, JoinRoomFor, LeaveRoomFor,
      KickFor, DeliverAll, Depart, Close, Stop, RoomSummaries, Answer, Respond, Run, Do;
    RunSkip(c, s);
    match m
    case Identify(nick, key) => IdentifyPlanRuns(c, s, i, nick, key, env.challenge);
    case IdentityProof(signature) => ProofPlanRuns(c, s, i, signature);
    case Leave =>
      LeavePlanRuns(c, s, i);
      RespondRuns(c, s, i, DirectText(IGNORED_LEAVE));
    case Disconnect => DisconnectPlanRuns(c, s, i);
    case ListRooms =>
      RespondRuns(c, s, i, ServerError("Join before listing rooms"));
      RespondRuns(c, s, i, RoomList(RoomSummaries(c, s)));
    case CreateRoom(name) =>
      CreatePlanRuns(c, s, i, name);
      RespondRuns(c, s, i, ServerError("Join before creating rooms"));
    case JoinRoom(name) =>
      JoinPlanRuns(c, s, i, name);
      RespondRuns(c, s, i, ServerError("Join before switching rooms"));
    case TopicRequest(topic) => TopicRequestPlanRuns(c, s, i, topic);
    case Chat(body) => ChatPlanRuns(c, s, i, body, env);
    case Whisper(target, body) => WhisperPlanRuns(c, s, i, target, body, env);
    case KickRequest(nick, reason) =>
      KickRequestPlanRuns(c, s, i, nick, reason);
      RespondRuns(c, s, i, ServerError("Join before moderating a room"));
    case _ =>
  }

  lemma MessagePlanRuns(c: Config, s: Server, i: SessionId, m: ClientMessage, env: Env)
    ensures Run(c, s, MessagePlan(c, s, i, m, env)) == OnMessage(c, s, i, m, env)
  {
    hide CommandPlan, OnCommand, DeliverAll, Drop, DropPlan;
    DropPlanRuns(c, s, i, ServerError("Protocol handshake required"));
    DropPlanRuns(c, s, i, AuthRejected);
    CommandPlanRuns(c, s, i, m, env);
  }

  predicate IsHostCall(e: Input)
  {
    match e
    case Accept(_) => false
    case HandshakeDone(_, _) => false
    case ReadFailed(_, _) => false
    case BadFrame(_, _, _) => false
    case Received(_, _, _) => false
    case _ => true
  }

  lemma ConnectionPlanRuns(c: Config, s: Server, e: Input)
    requires e.Accept? || e.HandshakeDone? || e.ReadFailed?
    ensures Run(c, s, PlanOf(c, s, e)) == Step(c, s, e)
  {
    hide DeliverAll, Depart, Stop, With;
  }

  lemma SessionPlanRuns(c: Config, s: Server, e: Input)
    requires !IsHostCall(e)
    ensures Run(c, s, PlanOf(c, s, e)) == Step(c, s, e)
  {
    if e.Received? {
      hide MessagePlan, OnMessage, Run, Do;
      MessagePlanRuns(c, s, e.id, e.message, e.env);
    } else if e.BadFrame? {
      hide DeliverAll, Drop, DropPlan, Respond, Run, Do;
      DropPlanRuns(c, s, e.id, ServerError("Invalid client frame: " + e.detail));
      RespondRuns(c, s, e.id, ServerError("Invalid client frame: " + e.detail));
    } else {
      hide Run, PlanOf, Step;
      ConnectionPlanRuns(c, s, e);
    }
  }

  predicate IsAdminCall(e: Input)
  {
    e.BroadcastServer? || e.CreateAdminRoom? || e.SetAdminTopic? || e.KickUserInRoom? || e.KickUser? || e.BanUser?
    || e.UnbanUser? || e.RegisterLocalIdentity?
  }

  lemma HostSeatPlanRuns(c: Config, s: Server, e: Input)
    requires e.StartLocalUser? || e.CreateLocalRoom? || e.JoinLocalRoom? || e.LeaveLocalRoom?
    ensures Run(c, s, PlanOf(c, s, e)) == Step(c, s, e)
  {
    hide BroadcastUsers, BroadcastRoomLists, CreationError, AddRoom, MoveLocal, NameExists, FindRoom;
  }

  lemma HostTalkPlanRuns(c: Config, s: Server, e: Input)
    requires e.SetLocalTopic? || e.Broadcast? || e.SendLocalPrivate?
    ensures Run(c, s, PlanOf(c, s, e)) == Step(c, s, e)
  {
    hide BroadcastRoom, SetTopic, TopicPlan, SendPrivate, PrivatePlan, RoomFor, OrSame;
    match e
    case SetLocalTopic(topic) => TopicPlanRuns(c, s, s.localRoomId, c.localNickname, true, topic);
    case Broadcast(text) =>
    case SendLocalPrivate(target, body, timeOfDay) =>
      PrivatePlanRuns(c, s, c.localNickname, target, body, RoomFor(s, c.localNickname), timeOfDay);
  }

  lemma ModerationPlanRuns(c: Config, s: Server, e: Input)
    requires e.KickUser? || e.SetAdminTopic? || e.KickUserInRoom? || e.BanUser?
    ensures Run(c, s, PlanOf(c, s, e)) == Step(c, s, e)
  {
    hide NameExists, FindRoom, SetTopic, TopicPlan, RoomFor, KickInRoom, KickPlan, BanPlan, Ban, OrSame, Do, Run;
    RunSkip(c, s);
    match e
    case KickUser(nick, reason) => KickPlanRuns(c, s, RoomFor(s, nick), nick, reason);
    case SetAdminTopic(name, topic) => TopicPlanRuns(c, s, FindRoom(s, name), "server", true, topic);
    case KickUserInRoom(name, nick, reason) => KickPlanRuns(c, s, FindRoom(s, name), nick, reason);
    case BanUser(nick, reason) => BanPlanRuns(c, s, nick, reason);
  }

  lemma AdminPlanRuns(c: Config, s: Server, e: Input)
    requires e.BroadcastServer? || e.CreateAdminRoom? || e.UnbanUser? || e.RegisterLocalIdentity?
    ensures Run(c, s, PlanOf(c, s, e)) == Step(c, s, e)
  {
    hide BroadcastRoomLists, CreationError, AddRoom, BroadcastEach, EachPlan, Ordered, Unban, IdentityError, CanBind, Bind;
    match e
    case BroadcastServer(text) => EachPlanRuns(c, s, Ordered(s.rooms.Keys), "[SERVER] " + text);
    case CreateAdminRoom(name) => Run2(c, s, Found(name, []), ShowRooms);
    case UnbanUser(nick) =>
    case RegisterLocalIdentity(nick, key) =>
  }

  lemma PlanRuns(c: Config, s: Server, e: Input)
    ensures Run(c, s, PlanOf(c, s, e)) == Step(c, s, e)
  {
    hide Run, PlanOf, Step;
    if !IsHostCall(e) { SessionPlanRuns(c, s, e); }
    else if e.KickUser? || e.SetAdminTopic? || e.KickUserInRoom? || e.BanUser? { ModerationPlanRuns(c, s, e); }
    else if IsAdminCall(e) { AdminPlanRuns(c, s, e); }
    else if e.SetLocalTopic? || e.Broadcast? || e.SendLocalPrivate? { HostTalkPlanRuns(c, s, e); }
    else { HostSeatPlanRuns(c, s, e); }
  }
}
