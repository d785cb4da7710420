/** Every step of the server is a sequence of a few kinds of action, each of which keeps the
    invariants whole. What a step keeps is then shown action by action. */
module ServerActions {
  import opened Octets
  import opened Base64
  import opened Messages
  import opened Ordering
  import opened Tables
  import opened ServerModel
  import RateLimit

  datatype Action =
    | Tell(to: set<SessionId>, message: ServerMessage)
    | ShowTopic(id: SessionId)
    | Say(room: RoomId, text: Text, nickname: Text)
    | ShowUsers(room: RoomId)
    | ShowRooms
    | Move(id: SessionId, target: RoomId, announce: bool)
    | Go(id: SessionId, announce: bool)
    | MarkClosing(id: SessionId)
    | MarkStopped(id: SessionId)
    | Count(id: SessionId, quota: RateLimit.Queues)
    | Negotiate(id: SessionId, ok: bool)
    | Authorize(id: SessionId)
    | Claim(id: SessionId, nickname: Text, key: Text, challenge: Text)
    | Enter(id: SessionId)
    | Register(nickname: Text, key: Text)
    | Open(id: SessionId)
    | Enroll(id: SessionId)
    | PlaceHost
    | MoveHost(target: RoomId)
    | Found(name: Text, owner: Text)
    | Retitle(room: RoomId, topic: Text)
    | BanAway(nickname: Text, reason: Text, victim: Option<SessionId>)
    | LiftBan(nickname: Text)

  /** The change of topic, stored and sent to the members. */
  function Retitled(c: Config, s: Server, r: RoomId, topic: Text): Server
    requires r in s.rooms
  {
    var room := s.rooms[r];
    DeliverAll(c, Written(WithRoom(s, r, room.(topic := topic)), TopicWrite(r, topic)), room.members, RoomTopic(r, topic))
  }

  function BanStored(s: Server, nick: Text, reason: Text): Server
  {
    Written(s.(bans := s.bans + {nick}), BanWrite(nick, reason))
  }

  function BanReason(reason: Text): Text { if reason == [] then "banned" else reason }

  ghost function Do(c: Config, s: Server, a: Action): Server
  {
    match a
    case Tell(to, m) => DeliverAll(c, s, to, m)
    case ShowTopic(i) => Deliver(c, s, i, RoomTopic(Of(s, i).activeRoom, RoomOf(s, Of(s, i).activeRoom).topic))
    case Say(r, text, nick) => BroadcastRoom(c, s, r, text, nick)
    case ShowUsers(r) => BroadcastUsers(c, s, r)
    case ShowRooms => BroadcastRoomLists(c, s)
    case Move(i, target, announce) => MoveSession(c, s, i, target, announce)
    case Go(i, announce) => Depart(c, s, i, announce)
    case MarkClosing(i) => Close(s, i)
    case MarkStopped(i) => Stop(s, i)
    case Count(i, quota) => With(s, i, Of(s, i).(quota := quota))
    case Negotiate(i, ok) => With(s, i, Of(s, i).(negotiated := ok))
    case Authorize(i) => With(s, i, Of(s, i).(authenticated := true))
    case Claim(i, nick, key, challenge) =>
      With(s, i, Of(s, i).(pendingNickname := nick, pendingKey := key, pendingChallenge := challenge))
    case Enter(i) => Admit(s, i)
    case Register(nick, key) => Bind(s, nick, key)
    case Open(i) => Deliver(c, With(s, i, Of(s, i).(phase := Reading)), i, ServerMessage.Hello(VERSION))
    case Enroll(i) => s.(clients := s.clients[i := NEW_SESSION], sessions := s.sessions + {i})
    case PlaceHost => BroadcastUsers(c, s.(localRoomId := LOBBY), LOBBY)
    case MoveHost(target) => MoveLocal(c, s, target)
    case Found(name, owner) => AddRoom(s, name, owner)
    case Retitle(r, topic) => if r in s.rooms then Retitled(c, s, r, topic) else s
    case BanAway(nick, reason, target) =>
      if target.None? then BanStored(s, nick, reason)
      else Expel(c, BanStored(s, nick, reason), target.value, nick, BanReason(reason))
    case LiftBan(nick) => Unban(s, nick)
  }

  /** Messages a client's picture of its room does not depend on. */
  predicate Neutral(m: ServerMessage)
  {
    !m.Hello? && !m.RoomJoined? && !m.RoomTopic? && !m.RoomText? && !m.UserList?
  }

  /** Free of the separators of the fields they are printed in. */
  predicate Clean(m: ServerMessage)
  {
    match m
    case Hello(version) => version == VERSION
    case Kick(nick, _) => nick == [] || IsValidNickname(nick)
    case UserList(_, names) => forall i :: 0 <= i < |names| ==> IsValidNickname(names[i])
    case RoomList(rooms) => |rooms| <= MAX_ROOMS && forall i :: 0 <= i < |rooms| ==> IsValidRoomName(rooms[i].name)
    case RoomJoined(_, name, _) => IsValidRoomName(name)
    case _ => true
  }

  /** Past its transport handshake: reading, or admitted before. */
  predicate IsAwake(s: Server, i: SessionId)
  {
    i in s.clients ==> s.clients[i].phase == Reading || s.clients[i].nickname != []
  }

  /** A room belongs to no one, to the host, or to whoever made it. */
  predicate IsOwner(c: Config, owner: Text)
  {
    owner == [] || owner == c.localNickname || IsValidNickname(owner)
  }

  predicate MayCommand(c: Config, x: Session)
  {
    x.negotiated && (c.password == [] || x.authenticated)
  }

  /** The messages on which a session moves. */
  predicate SeeksRoom(e: Input, i: SessionId)
  {
    && e.Received? && e.id == i
    && (e.message.Leave? || e.message.CreateRoom? || e.message.JoinRoom? || e.message.IdentityProof?)
  }

  /** When an action happens, and in answer to which input. */
  ghost predicate Allowed(c: Config, e: Input, s: Server, a: Action)
  {
    match a
    case Tell(to, m) => Neutral(m) && Clean(m) && forall i :: i in to ==> IsAwake(s, i)
    case ShowTopic(i) => i in s.clients && s.clients[i].activeRoom in s.rooms
    case Say(_, _, _) => true
    case ShowUsers(_) => true
    case ShowRooms => true
    case Move(i, target, announce) =>
      && SeeksRoom(e, i) && i in s.clients && s.clients[i].nickname != [] && target in s.rooms
      && (announce || s.clients[i].activeRoom == 0) && s.clients[i].activeRoom != target
    case Go(i, _) => i in s.clients
    case MarkClosing(i) => i in s.clients
    case MarkStopped(i) => i in s.clients
    case Count(i, _) => i in s.clients
    case Negotiate(i, ok) =>
      && i in s.clients && !s.clients[i].negotiated && s.clients[i].phase == Reading
      && e.Received? && e.id == i && e.message.Hello? && ok == (e.message.version == VERSION)
    case Authorize(i) =>
      && i in s.clients && s.clients[i].negotiated
      && e.Received? && e.id == i && e.message == Authenticate(c.password)
    case Claim(i, nick, key, challenge) =>
      && i in s.clients && s.clients[i].nickname == [] && MayCommand(c, s.clients[i])
      && e.Received? && e.id == i && e.message == Identify(nick, key) && e.env.challenge == challenge
      && IsValidNickname(nick) && IsHex(key, 64)
    case Enter(i) =>
      && i in s.clients && MayCommand(c, s.clients[i])
      && e.Received? && e.id == i && e.message.IdentityProof?
      && var x := s.clients[i];
         && x.phase == Reading && x.nickname == [] && x.pendingNickname != [] && x.pendingKey != [] && x.pendingChallenge != []
         && c.verifies(x.pendingKey, x.pendingChallenge, e.message.signature)
         && x.pendingNickname !in s.bans && !NicknameInUse(c, s, x.pendingNickname)
         && CanBind(s, x.pendingNickname, x.pendingKey)
    case Register(nick, key) => IsValidNickname(nick) && IsHex(key, 64) && CanBind(s, nick, key)
    case Open(i) => i in s.clients && s.clients[i].phase == Handshaking
    case Enroll(i) => i !in s.clients && e == Accept(i)
    case PlaceHost => c.localNickname != [] && s.localRoomId == 0
    case MoveHost(target) => target in s.rooms && s.localRoomId != target
    case Found(name, owner) => CreationError(s, name) == [] && IsOwner(c, owner)
    case Retitle(r, topic) => r in s.rooms && IsValidRoomTopic(topic)
    case BanAway(nick, _, target) =>
      if target.None? then forall j :: j in s.sessions ==> Of(s, j).nickname != nick
      else target.value in s.sessions && Of(s, target.value).nickname == nick
    case LiftBan(_) => true
  }

  // ---- plans ----

  datatype Plan = Skip | One(action: Action) | Then(first: Plan, second: Plan)

  ghost function Run(c: Config, s: Server, p: Plan): Server
    decreases p
  {
    match p
    case Skip => s
    case One(a) => Do(c, s, a)
    case Then(p, q) => Run(c, Run(c, s, p), q)
  }

  ghost predicate Legal(c: Config, e: Input, s: Server, p: Plan)
    decreases p
  {
    match p
    case Skip => true
    case One(a) => Allowed(c, e, s, a)
    case Then(p, q) => Legal(c, e, s, p) && Legal(c, e, Run(c, s, p), q)
  }

  function Respond(i: SessionId, m: ServerMessage): Plan { One(Tell({i}, m)) }

  function DropPlan(i: SessionId, m: ServerMessage): Plan
  {
    Then(Respond(i, m), Then(One(MarkClosing(i)), Then(One(Go(i, false)), One(MarkStopped(i)))))
  }

  function AnnouncePlan(r: RoomId, text: Text): Plan { Then(One(Say(r, text, [])), One(ShowUsers(r))) }

  function KickNotice(nick: Text, reason: Text): Text
  {
    "[system] " + nick + " was kicked" + (if reason == [] then "" else ": " + reason)
  }

  function ExpelPlan(i: SessionId, nick: Text, reason: Text): Plan
  {
    Then(Respond(i, Kick(nick, reason)), Then(One(MarkClosing(i)), One(Go(i, false))))
  }

  ghost function KickPlan(s: Server, r: RoomId, nick: Text, reason: Text): Plan
  {
    var target := FirstNamed(s, Ordered(RoomOf(s, r).members), nick);
    if r !in s.rooms || target.None? then Skip
    else Then(ExpelPlan(target.value, nick, reason), AnnouncePlan(r, KickNotice(nick, reason)))
  }

  ghost function BanPlan(s: Server, nick: Text, reason: Text): Plan
  {
    var target := FirstNamed(s, Ordered(s.sessions), nick);
    if target.None? then One(BanAway(nick, reason, target))
    else Then(One(BanAway(nick, reason, target)),
      AnnouncePlan(Of(s, target.value).activeRoom, "[system] " + nick + " has been banned"))
  }

  ghost function TopicPlan(c: Config, s: Server, r: RoomId, actor: Text, privileged: bool, topic: Text): Plan
  {
    if SetTopic(c, s, r, actor, privileged, topic).Refused? then Skip
    else Then(One(Retitle(r, topic)), One(Say(r, "[system] " + actor + " changed the topic to: " + topic, [])))
  }

  ghost function PrivatePlan(c: Config, s: Server, sender: Text, target: Text, body: Text, r: RoomId, stamp: Text): Plan
  {
    if r !in s.rooms then Skip
    else
      var members := Ordered(s.rooms[r].members);
      var from, to := LastNamed(s, members, sender), LastNamed(s, members, target);
      if to.None? && !(HasHost(c, s, r) && target == c.localNickname) then
        if from.None? then Skip else Respond(from.value, NotHere(target))
      else
        var line := PrivateLine(stamp, sender, target, body);
        Then(if to.Some? then Respond(to.value, line) else Skip,
          if from.Some? && sender != target then Respond(from.value, line) else Skip)
  }

  function EachPlan(ids: seq<RoomId>, text: Text): Plan
    decreases |ids|
  {
    if ids == [] then Skip else Then(One(Say(ids[0], text, [])), EachPlan(ids[1..], text))
  }

  // ---- the plan of each handler ----

  ghost function IdentifyPlan(c: Config, s: Server, i: SessionId, nick: Text, key: Text, challenge: Text): Plan
  {
    var error := IdentityError(s, nick, key);
    if Of(s, i).nickname != [] then Respond(i, JoinRejected("Already joined"))
    else if error != [] then DropPlan(i, JoinRejected(error))
    else if nick in s.bans then DropPlan(i, Banned)
    else if NicknameInUse(c, s, nick) then DropPlan(i, ServerMessage.NicknameTaken)
    else Then(One(Claim(i, nick, key, challenge)), Respond(i, Challenge(challenge)))
  }

  ghost function ProofPlan(c: Config, s: Server, i: SessionId, signature: Text): Plan
  {
    var x := Of(s, i);
    if x.nickname != [] then Respond(i, JoinRejected("Already joined"))
    else if x.pendingNickname == [] || x.pendingKey == [] || x.pendingChallenge == [] then
      DropPlan(i, JoinRejected("Identify before sending proof"))
    else if !c.verifies(x.pendingKey, x.pendingChallenge, signature) then
      DropPlan(i, JoinRejected("Identity proof failed"))
    else if x.pendingNickname in s.bans then DropPlan(i, Banned)
    else if NicknameInUse(c, s, x.pendingNickname) then DropPlan(i, ServerMessage.NicknameTaken)
    else if !CanBind(s, x.pendingNickname, x.pendingKey) then
      DropPlan(i, JoinRejected("Identity registration failed"))
    else
      Then(One(Enter(i)), Then(Respond(i, IdentityAccepted(Fingerprint(x.pendingKey))),
        Then(Respond(i, JoinAccepted), One(Move(i, LOBBY, false)))))
  }

  function ChatPlan(s: Server, i: SessionId, body: Text, env: Env): Plan
  {
    var x := Of(s, i);
    var (ok, quota) := RateLimit.Consume(x.quota, x.activeRoom, env.now);
    if x.nickname == [] then Respond(i, DirectText(JOIN_FIRST))
    else
      Then(One(Count(i, quota)),
        if !ok then Respond(i, DirectText(SLOW_DOWN))
        else if !IsValidText(body, MAX_CHAT_LENGTH) then Respond(i, DirectText("[system] Invalid message text"))
        else One(Say(x.activeRoom, "[" + env.timeOfDay + "] " + x.nickname + ": " + body, x.nickname)))
  }

  ghost function WhisperPlan(c: Config, s: Server, i: SessionId, target: Text, body: Text, env: Env): Plan
  {
    var x := Of(s, i);
    var (ok, quota) := RateLimit.Consume(x.quota, x.activeRoom, env.now);
    var counted := With(s, i, x.(quota := quota));
    if x.nickname == [] then Respond(i, DirectText(JOIN_FIRST))
    else
      Then(One(Count(i, quota)),
        if !ok then Respond(i, DirectText(SLOW_DOWN))
        else if !IsValidNickname(target) || !IsValidText(body, MAX_CHAT_LENGTH) then
          Respond(i, DirectText(BAD_WHISPER))
        else PrivatePlan(c, counted, x.nickname, target, body, x.activeRoom, env.timeOfDay))
  }

  ghost function TopicRequestPlan(c: Config, s: Server, i: SessionId, topic: Option<Text>): Plan
  {
    var x := Of(s, i);
    if x.nickname == [] then Respond(i, ServerError("Join before viewing a topic"))
    else if topic.Some? then
      var reply := SetTopic(c, s, x.activeRoom, x.nickname, false, topic.value);
      if reply.Refused? then Respond(i, ServerError(reply.error))
      else TopicPlan(c, s, x.activeRoom, x.nickname, false, topic.value)
    else if x.activeRoom in s.rooms then One(ShowTopic(i))
    else Skip
  }

  ghost function CreatePlan(s: Server, i: SessionId, name: Text): Plan
  {
    var error := CreationError(s, name);
    if error != [] then Respond(i, ServerError(error))
    else Then(One(Found(name, Of(s, i).nickname)), One(Move(i, s.nextRoomId, true)))
  }

  ghost function JoinPlan(c: Config, s: Server, i: SessionId, name: Text): Plan
  {
    var reply := JoinRoomFor(c, s, i, name);
    if reply.Refused? then Respond(i, ServerError(reply.error)) else One(Move(i, FindRoom(s, name), true))
  }

  ghost function LeavePlan(s: Server, i: SessionId): Plan
  {
    if Of(s, i).activeRoom == LOBBY then Respond(i, ServerError("Already in the lobby")) else One(Move(i, LOBBY, true))
  }

  ghost function KickRequestPlan(c: Config, s: Server, i: SessionId, nick: Text, reason: Text): Plan
  {
    var reply := KickFor(c, s, i, nick, reason);
    if reply.Refused? then Respond(i, ServerError(reply.error)) else KickPlan(s, Of(s, i).activeRoom, nick, reason)
  }

  ghost function CommandPlan(c: Config, s: Server, i: SessionId, m: ClientMessage, env: Env): Plan
  {
    var joined := Of(s, i).nickname != [];
    match m
    case Identify(nick, key) => IdentifyPlan(c, s, i, nick, key, env.challenge)
    case IdentityProof(signature) => ProofPlan(c, s, i, signature)
    case Leave =>
      if !joined then Respond(i, DirectText(IGNORED_LEAVE)) else LeavePlan(s, i)
    case Disconnect => Then(One(Go(i, true)), Then(One(MarkClosing(i)), One(MarkStopped(i))))
    case ListRooms =>
      Respond(i, if !joined then ServerError("Join before listing rooms") else RoomList(RoomSummaries(c, s)))
    case CreateRoom(name) =>
      if !joined then Respond(i, ServerError("Join before creating rooms")) else CreatePlan(s, i, name)
    case JoinRoom(name) =>
      if !joined then Respond(i, ServerError("Join before switching rooms")) else JoinPlan(c, s, i, name)
    case TopicRequest(topic) => TopicRequestPlan(c, s, i, topic)
    case Chat(body) => ChatPlan(s, i, body, env)
    case Whisper(target, body) => WhisperPlan(c, s, i, target, body, env)
    case KickRequest(nick, reason) =>
      if !joined then Respond(i, ServerError("Join before moderating a room")) else KickRequestPlan(c, s, i, nick, reason)
    case Hello(_) => Skip
    case Authenticate(_) => Skip
  }

  ghost function MessagePlan(c: Config, s: Server, i: SessionId, m: ClientMessage, env: Env): Plan
  {
    if m.Hello? then
      if Of(s, i).negotiated then Respond(i, ServerError("Protocol handshake already completed"))
      else Then(One(Negotiate(i, m.version == VERSION)), Respond(i, if c.password != [] then AuthRequired else AuthAccepted))
    else if !Of(s, i).negotiated then DropPlan(i, ServerError("Protocol handshake required"))
    else if m.Authenticate? then
      if m.password == c.password then Then(One(Authorize(i)), Respond(i, AuthAccepted)) else DropPlan(i, AuthRejected)
    else if c.password != [] && !Of(s, i).authenticated then Respond(i, AuthRequired)
    else CommandPlan(c, s, i, m, env)
  }

  ghost function PlanOf(c: Config, s: Server, e: Input): Plan
  {
    match e
    case Accept(i) => One(Enroll(i))
    case HandshakeDone(i, ok) => if ok then One(Open(i)) else Then(One(Go(i, false)), One(MarkStopped(i)))
    case ReadFailed(i, announce) => Then(One(Go(i, announce)), One(MarkStopped(i)))
    case BadFrame(i, error, detail) =>
      var reply := ServerError("Invalid client frame: " + detail);
      if error == UnsupportedVersion then DropPlan(i, reply) else Respond(i, reply)
    case Received(i, m, env) => MessagePlan(c, s, i, m, env)
    case StartLocalUser => if c.localNickname == [] then Skip else Then(One(PlaceHost), One(ShowRooms))
    case CreateLocalRoom(name) =>
      if c.localNickname == [] || CreationError(s, name) != [] then Skip
      else Then(One(Found(name, c.localNickname)), One(MoveHost(s.nextRoomId)))
    case JoinLocalRoom(name) =>
      var r := FindRoom(s, name);
      if !NameExists(s, name) || s.localRoomId == r then Skip else One(MoveHost(r))
    case LeaveLocalRoom => if s.localRoomId == LOBBY then Skip else One(MoveHost(LOBBY))
    case SetLocalTopic(topic) => TopicPlan(c, s, s.localRoomId, c.localNickname, true, topic)
    case Broadcast(text) => One(Say(if s.localRoomId == 0 then LOBBY else s.localRoomId, text, []))
    case BroadcastServer(text) => EachPlan(Ordered(s.rooms.Keys), "[SERVER] " + text)
    case SendLocalPrivate(target, body, timeOfDay) =>
      PrivatePlan(c, s, c.localNickname, target, body, RoomFor(s, c.localNickname), timeOfDay)
    case KickUser(nick, reason) =>
      var r := RoomFor(s, nick);
      if r == 0 then Skip else KickPlan(s, r, nick, reason)
    case CreateAdminRoom(name) =>
      if CreationError(s, name) != [] then Skip else Then(One(Found(name, [])), One(ShowRooms))
    case SetAdminTopic(name, topic) =>
      if !NameExists(s, name) then Skip else TopicPlan(c, s, FindRoom(s, name), "server", true, topic)
    case KickUserInRoom(name, nick, reason) =>
      if !NameExists(s, name) then Skip else KickPlan(s, FindRoom(s, name), nick, reason)
    case BanUser(nick, reason) => BanPlan(s, nick, reason)
    case UnbanUser(nick) => One(LiftBan(nick))
    case RegisterLocalIdentity(nick, key) =>
      if IdentityError(s, nick, key) == [] && CanBind(s, nick, key) then One(Register(nick, key)) else Skip
  }
}
