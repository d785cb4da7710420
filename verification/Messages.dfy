/** The typed messages of the wire protocol, what makes one well formed, and the field
    validators the parser, the session and the server share. */
module Messages {
  import opened Octets

  const VERSION: nat := 3
  const MAX_CHAT_LENGTH: nat := 1000
  const MAX_ROOM_NAME_LENGTH: nat := 32
  const MAX_ROOM_TOPIC_LENGTH: nat := 200
  const MAX_NICKNAME_LENGTH: nat := 31
  const MAX_PASSWORD_LENGTH: nat := 63
  const MAX_TEXT_LENGTH: nat := 4096
  const MAX_ROOMS: nat := 32

  type RoomId = nat

  datatype ClientMessage =
    | Hello(version: nat)
    | Authenticate(password: Text)
    | Identify(nickname: Text, publicKey: Text)
    | IdentityProof(signature: Text)
    | Leave
    | Disconnect
    | ListRooms
    | CreateRoom(name: Text)
    | JoinRoom(name: Text)
    | TopicRequest(topic: Option<Text>)
    | Chat(body: Text)
    | Whisper(target: Text, body: Text)
    | KickRequest(nickname: Text, reason: Text)

  datatype RoomSummary = RoomSummary(id: RoomId, name: Text, userCount: nat)

  /** `DirectText` is the source's `Text`. */
  datatype ServerMessage =
    | Hello(version: nat)
    | AuthRequired
    | AuthAccepted
    | AuthRejected
    | Challenge(challenge: Text)
    | IdentityAccepted(fingerprint: Text)
    | JoinAccepted
    | Banned
    | NicknameTaken
    | JoinRejected(reason: Text)
    | Kick(nickname: Text, reason: Text)
    | UserList(roomId: RoomId, nicknames: seq<Text>)
    | RoomList(rooms: seq<RoomSummary>)
    | RoomJoined(id: RoomId, name: Text, topic: Text)
    | RoomTopic(roomId: RoomId, topic: Text)
    | RoomText(roomId: RoomId, body: Text)
    | DirectText(body: Text)
    | ServerError(reason: Text)

  // ---- field validators ----

  predicate IsValidNickname(n: Text)
  {
    && 1 <= |n| <= MAX_NICKNAME_LENGTH
    && forall i :: 0 <= i < |n| ==> !IsControl(n[i]) && !IsSpace(n[i]) && n[i] != '|' && n[i] != ','
  }

  /** Non-empty, bounded, and free of control characters other than the tab. */
  predicate IsValidText(t: Text, max: nat)
  {
    1 <= |t| <= max && forall i :: 0 <= i < |t| ==> !IsControl(t[i]) || t[i] == '\t'
  }

  predicate NoControls(t: Text) { forall i :: 0 <= i < |t| ==> !IsControl(t[i]) }

  predicate IsValidRoomName(n: Text)
  {
    && 1 <= |n| <= MAX_ROOM_NAME_LENGTH
    && forall i :: 0 <= i < |n| ==> IsAlnum(n[i]) || n[i] == '-' || n[i] == '_'
  }

  predicate IsValidRoomTopic(t: Text) { |t| <= MAX_ROOM_TOPIC_LENGTH && NoControls(t) }

  predicate IsHex(t: Text, length: nat)
  {
    |t| == length && forall i :: 0 <= i < |t| ==> IsHexDigit(t[i])
  }

  predicate IsValidReason(t: Text) { t == [] || IsValidText(t, MAX_CHAT_LENGTH) }

  predicate IsId(id: RoomId) { 1 <= id <= MAX_U64 }

  // ---- well-formed messages ----

  predicate ClientWellFormed(m: ClientMessage)
  {
    match m
    case Hello(version) => version == VERSION
    case Authenticate(password) => |password| <= MAX_PASSWORD_LENGTH && NoControls(password)
    case Identify(nickname, key) => IsValidNickname(nickname) && IsHex(key, 64)
    case IdentityProof(signature) => IsHex(signature, 128)
    case Leave => true
    case Disconnect => true
    case ListRooms => true
    case CreateRoom(name) => IsValidRoomName(name)
    case JoinRoom(name) => IsValidRoomName(name)
    case TopicRequest(topic) => topic.Some? ==> topic.value != [] && IsValidRoomTopic(topic.value)
    case Chat(body) => IsValidText(body, MAX_CHAT_LENGTH)
    case Whisper(target, body) => IsValidNickname(target) && IsValidText(body, MAX_CHAT_LENGTH)
    case KickRequest(nickname, reason) => IsValidNickname(nickname) && IsValidReason(reason)
  }

  predicate SummaryWellFormed(s: RoomSummary)
  {
    IsId(s.id) && IsValidRoomName(s.name) && s.userCount <= MAX_U64
  }

  predicate ServerWellFormed(m: ServerMessage)
  {
    match m
    case Hello(version) => version == VERSION
    case AuthRequired => true
    case AuthAccepted => true
    case AuthRejected => true
    case Challenge(challenge) => IsHex(challenge, 64)
    case IdentityAccepted(fingerprint) => IsHex(fingerprint, 16)
    case JoinAccepted => true
    case Banned => true
    case NicknameTaken => true
    case JoinRejected(reason) => IsValidText(reason, MAX_TEXT_LENGTH)
    case Kick(nickname, reason) => IsValidNickname(nickname) && IsValidReason(reason)
    case UserList(id, names) => IsId(id) && forall i :: 0 <= i < |names| ==> IsValidNickname(names[i])
    case RoomList(rooms) =>
      |rooms| <= MAX_ROOMS && forall i :: 0 <= i < |rooms| ==> SummaryWellFormed(rooms[i])
    case RoomJoined(id, name, topic) => IsId(id) && IsValidRoomName(name) && IsValidRoomTopic(topic)
    case RoomTopic(id, topic) => IsId(id) && IsValidRoomTopic(topic)
    case RoomText(id, body) => IsId(id) && IsValidText(body, MAX_TEXT_LENGTH)
    case DirectText(body) => IsValidText(body, MAX_TEXT_LENGTH)
    case ServerError(reason) => IsValidText(reason, MAX_TEXT_LENGTH)
  }

  lemma NicknameIsClean(n: Text)
    requires IsValidNickname(n)
    ensures '|' !in n && ',' !in n && n != []
  {
  }
}
