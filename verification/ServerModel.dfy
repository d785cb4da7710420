/** The chat server and its sessions as a state machine. Every completed read, handshake or
    read failure of a session, and every call made by the host or an administrator, is one step. */
module ServerModel {
  import opened Octets
  import opened Base64
  import opened Messages
  import opened Ordering
  import opened Tables
  import RateLimit

  type SessionId = nat

  const LOBBY: RoomId := 1

  /** What the server is configured with, and its environment: whether a message has a frame,
      whether a signature verifies, the readings of the system clock, and the random message ids,
      the last two by the number of messages stored so far. */
  datatype Config = Config(
    password: Text,
    localNickname: Text,
    historyLimit: nat,
    encodes: ServerMessage -> bool,
    verifies: (Text, Text, Text) -> bool,
    clock: nat -> int,
    freshId: nat -> Text)

  /** `Handshaking` until the transport handshake completes, then `Reading` as long as a read is
      pending or will be started. */
  datatype Phase = Handshaking | Reading | Stopped

  /** `outbox` is every message handed to the write queue so far; `closing` says that `close()`
      has been called. */
  datatype Session = Session(
    nickname: Text,
    pendingNickname: Text, pendingKey: Text, pendingChallenge: Text,
    activeRoom: RoomId,
    authenticated: bool, negotiated: bool,
    quota: RateLimit.Queues,
    phase: Phase, closing: bool,
    outbox: seq<ServerMessage>)

  const NEW_SESSION := Session([], [], [], [], 0, false, false, map[], Handshaking, false, [])

  datatype Room = Room(name: Text, topic: Text, owner: Text, recent: seq<Text>, members: set<SessionId>)

  const NO_ROOM := Room([], [], [], [], {})

  /** `clients` are all session objects ever accepted, `sessions` those registered with the
      server; `writes` are the storage writes made so far, `stored` how many of them were messages,
      and `lastStamp` the timestamp of the latest. */
  datatype Server = Server(
    clients: map<SessionId, Session>,
    sessions: set<SessionId>,
    rooms: map<RoomId, Room>,
    nextRoomId: RoomId,
    localRoomId: RoomId,
    bans: set<Text>,
    identities: map<Text, Text>,
    writes: seq<Write>,
    stored: nat,
    lastStamp: int)

  // ---- texts ----

  // The verifier checks a literal octet by octet, and gives up on long ones: those are in two parts.
  const BAD_ROOM_NAME: Text := "Room names use 1-32 " + "letters, numbers, '-' or '_'"
  const BAD_TOPIC: Text := "Topics may contain at most " + "200 printable characters"
  const NOT_TOPIC_OWNER: Text := "Only this room's creator " + "can change its topic"
  const NOT_CREATOR: Text := "Only this room's creator " + "can kick members"
  const OTHER_KEY: Text := "Nickname belongs to " + "a different identity key"
  const SLOW_DOWN: Text := "[system] Slow down - message " + "rate limit is 20 per minute"
  const BAD_WHISPER: Text := "[system] Invalid whisper " + "target or message"
  const JOIN_FIRST: Text := "[system] Join before sending messages"
  const IGNORED_LEAVE: Text := "[system] Ignored leave " + "request before joining"

  // ---- access ----

  function Of(s: Server, i: SessionId): Session { if i in s.clients then s.clients[i] else NEW_SESSION }

  function With(s: Server, i: SessionId, x: Session): Server
  {
    if i in s.clients then s.(clients := s.clients[i := x]) else s
  }

  function RoomOf(s: Server, r: RoomId): Room { if r in s.rooms then s.rooms[r] else NO_ROOM }

  function WithRoom(s: Server, r: RoomId, room: Room): Server { s.(rooms := s.rooms[r := room]) }

  function Written(s: Server, w: Write): Server { s.(writes := s.writes + [w]) }

  predicate HasHost(c: Config, s: Server, r: RoomId) { c.localNickname != [] && s.localRoomId == r }

  // ---- delivery ----

  function Posted(x: Session, m: ServerMessage): Session { x.(outbox := x.outbox + [m]) }

  function PostAll(clients: map<SessionId, Session>, to: set<SessionId>, m: ServerMessage)
    : (posted: map<SessionId, Session>)
    ensures posted.Keys == clients.Keys
    ensures forall i :: i in clients ==> posted[i] == if i in to then Posted(clients[i], m) else clients[i]
  {
    map i | i in clients :: if i in to then Posted(clients[i], m) else clients[i]
  }

  /** `deliver` to each of `to`: a message without a frame is dropped. */
  function DeliverAll(c: Config, s: Server, to: set<SessionId>, m: ServerMessage): Server
  {
    if !c.encodes(m) then s else s.(clients := PostAll(s.clients, to, m))
  }

  function Deliver(c: Config, s: Server, i: SessionId, m: ServerMessage): Server { DeliverAll(c, s, {i}, m) }

  // ---- broadcasts ----

  /** `next_message_timestamp`, uncontended. */
  function NextStamp(c: Config, s: Server): int
  {
    var now := c.clock(s.stored);
    if now > s.lastStamp then now else s.lastStamp + 1
  }

  function Bounded(history: seq<Text>, limit: nat): seq<Text>
  {
    if |history| > limit then history[1..] else history
  }

  /** The stored copy of a broadcast. */
  function StoreMessage(c: Config, s: Server, r: RoomId, msg: Text, nickname: Text): Server
  {
    var stamp := NextStamp(c, s);
    var m := StoredMessage(c.freshId(s.stored), r, nickname, msg, stamp);
    Written(s, MessageWrite(m)).(stored := s.stored + 1, lastStamp := stamp)
  }

  function BroadcastRoom(c: Config, s: Server, r: RoomId, msg: Text, nickname: Text): Server
  {
    if r !in s.rooms then s
    else
      var room := s.rooms[r];
      var kept := WithRoom(s, r, room.(recent := Bounded(room.recent + [msg], c.historyLimit)));
      StoreMessage(c, DeliverAll(c, kept, room.members, RoomText(r, msg)), r, msg, nickname)
  }

  function Nicknames(s: Server, ids: seq<SessionId>): seq<Text>
  {
    if ids == [] then []
    else
      var nick := Of(s, ids[0]).nickname;
      (if nick == [] then [] else [nick]) + Nicknames(s, ids[1..])
  }

  /** The sorted nicknames shown for a room, the host's included. */
  ghost function UserNames(c: Config, s: Server, r: RoomId): seq<Text>
  {
    Sort(Nicknames(s, Ordered(RoomOf(s, r).members)) + if HasHost(c, s, r) then [c.localNickname] else [])
  }

  ghost function BroadcastUsers(c: Config, s: Server, r: RoomId): Server
  {
    if r !in s.rooms then s else DeliverAll(c, s, s.rooms[r].members, UserList(r, UserNames(c, s, r)))
  }

  function Summary(c: Config, s: Server, r: RoomId): RoomSummary
  {
    RoomSummary(r, RoomOf(s, r).name, |RoomOf(s, r).members| + if HasHost(c, s, r) then 1 else 0)
  }

  ghost function RoomSummaries(c: Config, s: Server): seq<RoomSummary>
  {
    var ids := Ordered(s.rooms.Keys);
    seq(|ids|, i requires 0 <= i < |ids| => Summary(c, s, ids[i]))
  }

  function Named(s: Server): set<SessionId> { set i | i in s.sessions && Of(s, i).nickname != [] }

  ghost function BroadcastRoomLists(c: Config, s: Server): Server
  {
    DeliverAll(c, s, Named(s), RoomList(RoomSummaries(c, s)))
  }

  // ---- membership ----

  /** Take a session out of a room's member set. */
  function Erase(s: Server, r: RoomId, i: SessionId): Server
  {
    if r in s.rooms then WithRoom(s, r, s.rooms[r].(members := s.rooms[r].members - {i})) else s
  }

  /** Out of the old room, into the target room, and the active room id. */
  function Reseat(s: Server, i: SessionId, target: RoomId): Server
    requires target in s.rooms
  {
    var out := Erase(s, Of(s, i).activeRoom, i);
    var seated := WithRoom(out, target, out.rooms[target].(members := out.rooms[target].members + {i}));
    With(seated, i, Of(seated, i).(activeRoom := target))
  }

  function DeliverHistory(c: Config, s: Server, i: SessionId, r: RoomId, history: seq<Text>): Server
    decreases |history|
  {
    if history == [] then s
    else DeliverHistory(c, Deliver(c, s, i, RoomText(r, history[0])), i, r, history[1..])
  }

  function Replay(c: Config, s: Server, i: SessionId, r: RoomId, name: Text, history: seq<Text>): Server
    decreases |history|
  {
    if history == [] then s
    else DeliverHistory(c, Deliver(c, s, i, DirectText("[system] Recent messages in #" + name + ":")), i, r, history)
  }

  ghost function LeaveNotice(c: Config, s: Server, prev: RoomId, nick: Text, name: Text): Server
  {
    BroadcastUsers(c, BroadcastRoom(c, s, prev, "[system] " + nick + " left for #" + name, []), prev)
  }

  ghost function EnterNotice(c: Config, s: Server, r: RoomId, nick: Text, name: Text): Server
  {
    BroadcastRoomLists(c,
      BroadcastUsers(c, BroadcastRoom(c, s, r, "[system] " + nick + " joined #" + name, []), r))
  }

  /** `move_session_to_room`. */
  ghost function MoveSession(c: Config, s: Server, i: SessionId, target: RoomId, announce: bool): Server
  {
    if target !in s.rooms then s
    else
      var prev, nick, room := Of(s, i).activeRoom, Of(s, i).nickname, s.rooms[target];
      var seated := Reseat(s, i, target);
      var told := if announce && prev != 0 then LeaveNotice(c, seated, prev, nick, room.name) else seated;
      var entered := Deliver(c, told, i, RoomJoined(target, room.name, room.topic));
      EnterNotice(c, Replay(c, entered, i, target, room.name, room.recent), target, nick, room.name)
  }

  /** `move_local_to_room`. */
  ghost function MoveLocal(c: Config, s: Server, target: RoomId): Server
  {
    if target !in s.rooms then s
    else
      var prev, name := s.localRoomId, s.rooms[target].name;
      var moved := s.(localRoomId := target);
      var told := if prev != 0 then LeaveNotice(c, moved, prev, c.localNickname, name) else moved;
      EnterNotice(c, told, target, c.localNickname, name)
  }

  /** `disconnect`. */
  ghost function Depart(c: Config, s: Server, i: SessionId, announce: bool): Server
  {
    var prev, nick := Of(s, i).activeRoom, Of(s, i).nickname;
    var gone := s.(sessions := s.sessions - {i});
    var idle := With(gone, i, Of(gone, i).(activeRoom := 0));
    if i !in RoomOf(idle, prev).members || prev == 0 then idle
    else
      var out := Erase(idle, prev, i);
      var told := if announce && nick != [] then BroadcastRoom(c, out, prev, "[system] " + nick + " left", []) else out;
      BroadcastRoomLists(c, BroadcastUsers(c, told, prev))
  }

  function Close(s: Server, i: SessionId): Server { With(s, i, Of(s, i).(closing := true)) }

  function Stop(s: Server, i: SessionId): Server { With(s, i, Of(s, i).(phase := Stopped)) }

  /** Tell the client why, close after that, leave, and read no more. */
  ghost function Drop(c: Config, s: Server, i: SessionId, m: ServerMessage): Server
  {
    Stop(Depart(c, Close(Deliver(c, s, i, m), i), i, false), i)
  }

  // ---- rooms ----

  /** The result of an operation that can be refused with an error text and no effect. */
  datatype Reply = Done(server: Server) | Refused(error: Text)

  ghost predicate IsMatch(s: Server, name: Text, r: RoomId) { r in s.rooms && Lower(s.rooms[r].name) == Lower(name) }

  /** `find_room_by_name_locked`: the first match in id order, or 0. */
  ghost function FindRoom(s: Server, name: Text): (r: RoomId)
    ensures NameExists(s, name) ==> IsMatch(s, name, r)
    ensures !NameExists(s, name) ==> r == 0
  {
    FirstMatch(s, name, Ordered(s.rooms.Keys))
  }

  ghost function FirstMatch(s: Server, name: Text, ids: seq<RoomId>): (r: RoomId)
    ensures (exists q :: q in ids && IsMatch(s, name, q)) ==> r in ids && IsMatch(s, name, r)
    ensures (forall q :: q in ids ==> !IsMatch(s, name, q)) ==> r == 0
  {
    if ids == [] then 0
    else if IsMatch(s, name, ids[0]) then ids[0]
    else FirstMatch(s, name, ids[1..])
  }

  ghost predicate NameExists(s: Server, name: Text) { exists r :: IsMatch(s, name, r) }

  function RoomRow(room: Room): StoredRoom { StoredRoom(room.name, room.topic, room.owner) }

  /** The new room under the next id, and the write that stores it. */
  function AddRoom(s: Server, name: Text, owner: Text): Server
  {
    var room := Room(name, [], owner, [], {});
    Written(WithRoom(s, s.nextRoomId, room).(nextRoomId := s.nextRoomId + 1), RoomWrite(s.nextRoomId, RoomRow(room)))
  }

  /** The checks shared by the three ways of creating a room. */
  ghost function CreationError(s: Server, name: Text): Text
  {
    if !IsValidRoomName(name) then BAD_ROOM_NAME
    else if |s.rooms| >= MAX_ROOMS then "This server has reached its room limit"
    else if NameExists(s, name) then "A room named '" + name + "' already exists"
    else []
  }

  ghost function CreateRoomFor(c: Config, s: Server, i: SessionId, name: Text): Reply
  {
    var error := CreationError(s, name);
    if error != [] then Refused(error)
    else Done(MoveSession(c, AddRoom(s, name, Of(s, i).nickname), i, s.nextRoomId, true))
  }

  ghost function JoinRoomFor(c: Config, s: Server, i: SessionId, name: Text): Reply
  {
    var r := FindRoom(s, name);
    if !NameExists(s, name) then Refused("Room '" + name + "' does not exist")
    else if Of(s, i).activeRoom == r then Refused("Already in room '" + name + "'")
    else Done(MoveSession(c, s, i, r, true))
  }

  ghost function LeaveRoomFor(c: Config, s: Server, i: SessionId): Reply
  {
    if Of(s, i).activeRoom == LOBBY then Refused("Already in the lobby")
    else Done(MoveSession(c, s, i, LOBBY, true))
  }

  /** `set_topic_for_room`. */
  function SetTopic(c: Config, s: Server, r: RoomId, actor: Text, privileged: bool, topic: Text): Reply
  {
    if !IsValidRoomTopic(topic) then Refused(BAD_TOPIC)
    else if r !in s.rooms then Refused("The active room no longer exists")
    else if !privileged && s.rooms[r].owner != actor then Refused(NOT_TOPIC_OWNER)
    else
      var room := s.rooms[r];
      var set_ := Written(WithRoom(s, r, room.(topic := topic)), TopicWrite(r, topic));
      Done(BroadcastRoom(c, DeliverAll(c, set_, room.members, RoomTopic(r, topic)), r,
        "[system] " + actor + " changed the topic to: " + topic, []))
  }

  // ---- moderation ----

  function FirstNamed(s: Server, ids: seq<SessionId>, nick: Text): (r: Option<SessionId>)
    ensures r.Some? ==> r.value in ids && Of(s, r.value).nickname == nick
    ensures r.None? ==> forall i :: i in ids ==> Of(s, i).nickname != nick
  {
    if ids == [] then None
    else if Of(s, ids[0]).nickname == nick then Some(ids[0])
    else FirstNamed(s, ids[1..], nick)
  }

  function LastNamed(s: Server, ids: seq<SessionId>, nick: Text): (r: Option<SessionId>)
    ensures r.Some? ==> r.value in ids && Of(s, r.value).nickname == nick
    ensures r.None? ==> forall i :: i in ids ==> Of(s, i).nickname != nick
  {
    if ids == [] then None
    else
      var n := |ids| - 1;
      if Of(s, ids[n]).nickname == nick then Some(ids[n]) else LastNamed(s, ids[..n], nick)
  }

  /** Send the kick, close after it, and disconnect. */
  ghost function Expel(c: Config, s: Server, i: SessionId, nick: Text, reason: Text): Server
  {
    Depart(c, Close(Deliver(c, s, i, Kick(nick, reason)), i), i, false)
  }

  /** `kick_user_in_room`; nothing when no member of the room has the nickname. */
  ghost function KickInRoom(c: Config, s: Server, r: RoomId, nick: Text, reason: Text): Option<Server>
  {
    var target := FirstNamed(s, Ordered(RoomOf(s, r).members), nick);
    if r !in s.rooms || target.None? then None
    else
      var out := Expel(c, s, target.value, nick, reason);
      var notice := "[system] " + nick + " was kicked" + (if reason == [] then "" else ": " + reason);
      Some(BroadcastUsers(c, BroadcastRoom(c, out, r, notice, []), r))
  }

  ghost function KickFor(c: Config, s: Server, i: SessionId, nick: Text, reason: Text): Reply
  {
    var r := Of(s, i).activeRoom;
    if r !in s.rooms || s.rooms[r].owner != Of(s, i).nickname then
      Refused(NOT_CREATOR)
    else if nick == Of(s, i).nickname then Refused("You cannot kick yourself")
    else
      match KickInRoom(c, s, r, nick, reason)
      case None => Refused("User '" + nick + "' is not in this room")
      case Some(t) => Done(t)
  }

  /** `ban_user`. */
  ghost function Ban(c: Config, s: Server, nick: Text, reason: Text): Server
  {
    var banned := Written(s.(bans := s.bans + {nick}), BanWrite(nick, reason));
    match FirstNamed(banned, Ordered(banned.sessions), nick)
    case None => banned
    case Some(i) =>
      var r := Of(banned, i).activeRoom;
      var out := Expel(c, banned, i, nick, if reason == [] then "banned" else reason);
      BroadcastUsers(c, BroadcastRoom(c, out, r, "[system] " + nick + " has been banned", []), r)
  }

  function Unban(s: Server, nick: Text): Server
  {
    if nick in s.bans then Written(s.(bans := s.bans - {nick}), BanRemove(nick)) else s
  }

  // ---- identities ----

  function IdentityError(s: Server, nick: Text, key: Text): Text
  {
    if !IsValidNickname(nick) then "Invalid nickname"
    else if !IsHex(key, 64) then "Invalid identity public key"
    else if nick in s.identities && s.identities[nick] != key then OTHER_KEY
    else []
  }

  predicate NicknameInUse(c: Config, s: Server, nick: Text)
  {
    (c.localNickname != [] && c.localNickname == nick) || exists i :: i in s.sessions && Of(s, i).nickname == nick
  }

  predicate CanBind(s: Server, nick: Text, key: Text) { nick in s.identities ==> s.identities[nick] == key }

  /** `bind_identity`, when it succeeds. */
  function Bind(s: Server, nick: Text, key: Text): Server
  {
    if nick in s.identities then s
    else Written(s.(identities := s.identities[nick := key]), IdentityWrite(nick, key))
  }

  function Fingerprint(key: Text): Text { if |key| <= 16 then key else key[..16] }

  // ---- private messages ----

  function NotHere(target: Text): ServerMessage
  {
    DirectText("[system] User '" + target + "' is not in this room")
  }

  function PrivateLine(stamp: Text, sender: Text, target: Text, body: Text): ServerMessage
  {
    DirectText("[PRIVATE " + stamp + "] " + sender + " -> " + target + ": " + body)
  }

  /** `send_private_in_room`, without the host's own screen. */
  ghost function SendPrivate(c: Config, s: Server, sender: Text, target: Text, body: Text, r: RoomId, stamp: Text): Server
  {
    if r !in s.rooms then s
    else
      var members := Ordered(s.rooms[r].members);
      var from, to := LastNamed(s, members, sender), LastNamed(s, members, target);
      if to.None? && !(HasHost(c, s, r) && target == c.localNickname) then
        if from.None? then s else Deliver(c, s, from.value, NotHere(target))
      else
        var line := PrivateLine(stamp, sender, target, body);
        var sent := if to.Some? then Deliver(c, s, to.value, line) else s;
        if from.Some? && sender != target then Deliver(c, sent, from.value, line) else sent
  }

  // ---- one received message ----

  /** What the handler reads from outside: the steady clock, the time of day as text, and a fresh
      random challenge. */
  datatype Env = Env(now: int, timeOfDay: Text, challenge: Text)

  ghost function Answer(c: Config, s: Server, i: SessionId, reply: Reply): Server
  {
    match reply
    case Done(t) => t
    case Refused(error) => Deliver(c, s, i, ServerError(error))
  }

  ghost function OnHello(c: Config, s: Server, i: SessionId, version: nat): Server
  {
    if Of(s, i).negotiated then Deliver(c, s, i, ServerError("Protocol handshake already completed"))
    else
      Deliver(c, With(s, i, Of(s, i).(negotiated := version == VERSION)), i,
        if c.password != [] then AuthRequired else AuthAccepted)
  }

  ghost function OnAuthenticate(c: Config, s: Server, i: SessionId, password: Text): Server
  {
    if password == c.password then Deliver(c, With(s, i, Of(s, i).(authenticated := true)), i, AuthAccepted)
    else Drop(c, s, i, AuthRejected)
  }

  ghost function OnIdentify(c: Config, s: Server, i: SessionId, nick: Text, key: Text, challenge: Text): Server
  {
    var error := IdentityError(s, nick, key);
    if Of(s, i).nickname != [] then Deliver(c, s, i, JoinRejected("Already joined"))
    else if error != [] then Drop(c, s, i, JoinRejected(error))
    else if nick in s.bans then Drop(c, s, i, Banned)
    else if NicknameInUse(c, s, nick) then Drop(c, s, i, ServerMessage.NicknameTaken)
    else
      Deliver(c, With(s, i, Of(s, i).(pendingNickname := nick, pendingKey := key, pendingChallenge := challenge)), i,
        Challenge(challenge))
  }

  /** The bookkeeping of a successful proof, before the session enters the lobby. */
  function Admit(s: Server, i: SessionId): Server
  {
    var x := Of(s, i);
    With(Bind(s, x.pendingNickname, x.pendingKey), i,
      x.(nickname := x.pendingNickname, pendingNickname := [], pendingKey := [], pendingChallenge := []))
  }

  ghost function OnProof(c: Config, s: Server, i: SessionId, signature: Text): Server
  {
    var x := Of(s, i);
    if x.nickname != [] then Deliver(c, s, i, JoinRejected("Already joined"))
    else if x.pendingNickname == [] || x.pendingKey == [] || x.pendingChallenge == [] then
      Drop(c, s, i, JoinRejected("Identify before sending proof"))
    else if !c.verifies(x.pendingKey, x.pendingChallenge, signature) then
      Drop(c, s, i, JoinRejected("Identity proof failed"))
    else if x.pendingNickname in s.bans then Drop(c, s, i, Banned)
    else if NicknameInUse(c, s, x.pendingNickname) then Drop(c, s, i, ServerMessage.NicknameTaken)
    else if !CanBind(s, x.pendingNickname, x.pendingKey) then
      Drop(c, s, i, JoinRejected("Identity registration failed"))
    else
      var told := Deliver(c, Deliver(c, Admit(s, i), i, IdentityAccepted(Fingerprint(x.pendingKey))), i, JoinAccepted);
      MoveSession(c, told, i, LOBBY, false)
  }

  function ConsumeQuota(s: Server, i: SessionId, now: int): (bool, Server)
  {
    var (ok, quota) := RateLimit.Consume(Of(s, i).quota, Of(s, i).activeRoom, now);
    (ok, With(s, i, Of(s, i).(quota := quota)))
  }

  /** A chat once its quota has been consumed. */
  ghost function Chatted(c: Config, s: Server, i: SessionId, x: Session, ok: bool, body: Text, timeOfDay: Text): Server
  {
    if !ok then Deliver(c, s, i, DirectText(SLOW_DOWN))
    else if !IsValidText(body, MAX_CHAT_LENGTH) then Deliver(c, s, i, DirectText("[system] Invalid message text"))
    else BroadcastRoom(c, s, x.activeRoom, "[" + timeOfDay + "] " + x.nickname + ": " + body, x.nickname)
  }

  ghost function OnChat(c: Config, s: Server, i: SessionId, body: Text, env: Env): Server
  {
    var x := Of(s, i);
    if x.nickname == [] then Deliver(c, s, i, DirectText(JOIN_FIRST))
    else
      var (ok, counted) := ConsumeQuota(s, i, env.now);
      Chatted(c, counted, i, x, ok, body, env.timeOfDay)
  }

  /** A whisper once its quota has been consumed. */
  ghost function Whispered(c: Config, s: Server, i: SessionId, x: Session, ok: bool, target: Text, body: Text, timeOfDay: Text): Server
  {
    if !ok then Deliver(c, s, i, DirectText(SLOW_DOWN))
    else if !IsValidNickname(target) || !IsValidText(body, MAX_CHAT_LENGTH) then
      Deliver(c, s, i, DirectText(BAD_WHISPER))
    else SendPrivate(c, s, x.nickname, target, body, x.activeRoom, timeOfDay)
  }

  ghost function OnWhisper(c: Config, s: Server, i: SessionId, target: Text, body: Text, env: Env): Server
  {
    var x := Of(s, i);
    if x.nickname == [] then Deliver(c, s, i, DirectText(JOIN_FIRST))
    else
      var (ok, counted) := ConsumeQuota(s, i, env.now);
      Whispered(c, counted, i, x, ok, target, body, env.timeOfDay)
  }

  ghost function OnTopic(c: Config, s: Server, i: SessionId, topic: Option<Text>): Server
  {
    var x := Of(s, i);
    if x.nickname == [] then Deliver(c, s, i, ServerError("Join before viewing a topic"))
    else if topic.Some? then Answer(c, s, i, SetTopic(c, s, x.activeRoom, x.nickname, false, topic.value))
    else if x.activeRoom in s.rooms then Deliver(c, s, i, RoomTopic(x.activeRoom, s.rooms[x.activeRoom].topic))
    else s
  }

  ghost function OnLeave(c: Config, s: Server, i: SessionId): Server
  {
    if Of(s, i).nickname == [] then Deliver(c, s, i, DirectText(IGNORED_LEAVE))
    else Answer(c, s, i, LeaveRoomFor(c, s, i))
  }

  ghost function OnListRooms(c: Config, s: Server, i: SessionId): Server
  {
    if Of(s, i).nickname == [] then Deliver(c, s, i, ServerError("Join before listing rooms"))
    else Deliver(c, s, i, RoomList(RoomSummaries(c, s)))
  }

  ghost function OnCreateRoom(c: Config, s: Server, i: SessionId, name: Text): Server
  {
    if Of(s, i).nickname == [] then Deliver(c, s, i, ServerError("Join before creating rooms"))
    else Answer(c, s, i, CreateRoomFor(c, s, i, name))
  }

  ghost function OnJoinRoom(c: Config, s: Server, i: SessionId, name: Text): Server
  {
    if Of(s, i).nickname == [] then Deliver(c, s, i, ServerError("Join before switching rooms"))
    else Answer(c, s, i, JoinRoomFor(c, s, i, name))
  }

  ghost function OnKickRequest(c: Config, s: Server, i: SessionId, nick: Text, reason: Text): Server
  {
    if Of(s, i).nickname == [] then Deliver(c, s, i, ServerError("Join before moderating a room"))
    else Answer(c, s, i, KickFor(c, s, i, nick, reason))
  }

  /** The commands of a session that has negotiated the protocol and is authenticated. */
  ghost function OnCommand(c: Config, s: Server, i: SessionId, m: ClientMessage, env: Env): Server
  {
    match m
    case Identify(nick, key) => OnIdentify(c, s, i, nick, key, env.challenge)
    case IdentityProof(signature) => OnProof(c, s, i, signature)
    case Leave => OnLeave(c, s, i)
    case Disconnect => Stop(Close(Depart(c, s, i, true), i), i)
    case ListRooms => OnListRooms(c, s, i)
    case CreateRoom(name) => OnCreateRoom(c, s, i, name)
    case JoinRoom(name) => OnJoinRoom(c, s, i, name)
    case TopicRequest(topic) => OnTopic(c, s, i, topic)
    case Chat(body) => OnChat(c, s, i, body, env)
    case Whisper(target, body) => OnWhisper(c, s, i, target, body, env)
    case KickRequest(nick, reason) => OnKickRequest(c, s, i, nick, reason)
    case Hello(_) => s
    case Authenticate(_) => s
  }

  /** The handler of a decoded frame: the handshake gates, in order, then the commands. */
  ghost function OnMessage(c: Config, s: Server, i: SessionId, m: ClientMessage, env: Env): Server
  {
    if m.Hello? then OnHello(c, s, i, m.version)
    else if !Of(s, i).negotiated then Drop(c, s, i, ServerError("Protocol handshake required"))
    else if m.Authenticate? then OnAuthenticate(c, s, i, m.password)
    else if c.password != [] && !Of(s, i).authenticated then Deliver(c, s, i, AuthRequired)
    else OnCommand(c, s, i, m, env)
  }

  ghost function OnBadFrame(c: Config, s: Server, i: SessionId, error: Error, detail: Text): Server
  {
    var reply := ServerError("Invalid client frame: " + detail);
    if error == UnsupportedVersion then Drop(c, s, i, reply) else Deliver(c, s, i, reply)
  }

  // ---- steps ----

  datatype Input =
    | Accept(id: SessionId)
    | HandshakeDone(id: SessionId, ok: bool)
    | ReadFailed(id: SessionId, announce: bool)
    | BadFrame(id: SessionId, error: Error, detail: Text)
    | Received(id: SessionId, message: ClientMessage, env: Env)
    | StartLocalUser
    | CreateLocalRoom(name: Text)
    | JoinLocalRoom(name: Text)
    | LeaveLocalRoom
    | SetLocalTopic(topic: Text)
    | Broadcast(text: Text)
    | BroadcastServer(text: Text)
    | SendLocalPrivate(target: Text, body: Text, timeOfDay: Text)
    | KickUser(nickname: Text, reason: Text)
    | CreateAdminRoom(name: Text)
    | SetAdminTopic(name: Text, topic: Text)
    | KickUserInRoom(name: Text, nickname: Text, reason: Text)
    | BanUser(nickname: Text, reason: Text)
    | UnbanUser(nickname: Text)
    | RegisterLocalIdentity(nickname: Text, publicKey: Text)

  /** Handlers run only for pending operations; the leave notice is suppressed only after a
      `close()`; and the host is placed once. */
  predicate Enabled(c: Config, s: Server, e: Input)
  {
    match e
    case Accept(i) => i !in s.clients
    case HandshakeDone(i, _) => i in s.clients && s.clients[i].phase == Handshaking
    case ReadFailed(i, announce) =>
      i in s.clients && s.clients[i].phase == Reading && (announce || s.clients[i].closing)
    case BadFrame(i, _, _) => i in s.clients && s.clients[i].phase == Reading
    case Received(i, _, _) => i in s.clients && s.clients[i].phase == Reading
    case StartLocalUser => s.localRoomId == 0
    case _ => true
  }

  ghost function OrSame(s: Server, reply: Reply): Server { if reply.Done? then reply.server else s }

  ghost function BroadcastEach(c: Config, s: Server, ids: seq<RoomId>, msg: Text): Server
    decreases |ids|
  {
    if ids == [] then s else BroadcastEach(c, BroadcastRoom(c, s, ids[0], msg, []), ids[1..], msg)
  }

  /** The room `kick_user` and `send_private` act in: the host's, or else that of the first
      registered session with the nickname. */
  ghost function RoomFor(s: Server, nick: Text): RoomId
  {
    if s.localRoomId != 0 then s.localRoomId
    else
      match FirstNamed(s, Ordered(s.sessions), nick)
      case None => 0
      case Some(i) => Of(s, i).activeRoom
  }

  ghost function Step(c: Config, s: Server, e: Input): Server
  {
    match e
    case Accept(i) => s.(clients := s.clients[i := NEW_SESSION], sessions := s.sessions + {i})
    case HandshakeDone(i, ok) =>
      if ok then Deliver(c, With(s, i, Of(s, i).(phase := Reading)), i, ServerMessage.Hello(VERSION))
      else Stop(Depart(c, s, i, false), i)
    case ReadFailed(i, announce) => Stop(Depart(c, s, i, announce), i)
    case BadFrame(i, error, detail) => OnBadFrame(c, s, i, error, detail)
    case Received(i, m, env) => OnMessage(c, s, i, m, env)
    case StartLocalUser =>
      if c.localNickname == [] then s
      else
        BroadcastRoomLists(c, BroadcastUsers(c, s.(localRoomId := LOBBY), LOBBY))
    case CreateLocalRoom(name) =>
      if c.localNickname == [] || CreationError(s, name) != [] then s
      else MoveLocal(c, AddRoom(s, name, c.localNickname), s.nextRoomId)
    case JoinLocalRoom(name) =>
      var r := FindRoom(s, name);
      if !NameExists(s, name) || s.localRoomId == r then s else MoveLocal(c, s, r)
    case LeaveLocalRoom => if s.localRoomId == LOBBY then s else MoveLocal(c, s, LOBBY)
    case SetLocalTopic(topic) => OrSame(s, SetTopic(c, s, s.localRoomId, c.localNickname, true, topic))
    case Broadcast(text) =>
      BroadcastRoom(c, s, if s.localRoomId == 0 then LOBBY else s.localRoomId, text, [])
    case BroadcastServer(text) => BroadcastEach(c, s, Ordered(s.rooms.Keys), "[SERVER] " + text)
    case SendLocalPrivate(target, body, timeOfDay) =>
      SendPrivate(c, s, c.localNickname, target, body, RoomFor(s, c.localNickname), timeOfDay)
    case KickUser(nick, reason) =>
      var r := RoomFor(s, nick);
      var kicked := KickInRoom(c, s, r, nick, reason);
      if r == 0 || kicked.None? then s else kicked.value
    case CreateAdminRoom(name) =>
      if CreationError(s, name) != [] then s else BroadcastRoomLists(c, AddRoom(s, name, []))
    case SetAdminTopic(name, topic) =>
      if !NameExists(s, name) then s else OrSame(s, SetTopic(c, s, FindRoom(s, name), "server", true, topic))
    case KickUserInRoom(name, nick, reason) =>
      var kicked := KickInRoom(c, s, FindRoom(s, name), nick, reason);
      if !NameExists(s, name) || kicked.None? then s else kicked.value
    case BanUser(nick, reason) => Ban(c, s, nick, reason)
    case UnbanUser(nick) => Unban(s, nick)
    case RegisterLocalIdentity(nick, key) =>
      if IdentityError(s, nick, key) == [] && CanBind(s, nick, key) then Bind(s, nick, key) else s
  }

  /** A run: the states passed through and the inputs that led from each to the next. */
  ghost predicate IsRun(c: Config, states: seq<Server>, inputs: seq<Input>)
  {
    && |states| == |inputs| + 1
    && forall n :: 0 <= n < |inputs| ==>
         Enabled(c, states[n], inputs[n]) && states[n + 1] == Step(c, states[n], inputs[n])
  }
}
