/** The payloads of the thirteen client messages: the printer, the parser, and the proof that
    they undo each other exactly on the well-formed messages. */
module ClientGrammar {
  import opened Octets
  import opened Base64
  import opened Messages

  datatype Command =
    | HelloCmd | AuthCmd | IdentifyCmd | ProofCmd | LeaveCmd | DisconnectCmd | RoomsCmd
    | CreateCmd | JoinCmd | TopicCmd | MsgCmd | WhisperCmd | KickCmd

  function Name(c: Command): Text
  {
    match c
    case HelloCmd => "HELLO"
    case AuthCmd => "AUTH"
    case IdentifyCmd => "IDENTIFY"
    case ProofCmd => "PROOF"
    case LeaveCmd => "LEAVE"
    case DisconnectCmd => "DISCONNECT"
    case RoomsCmd => "ROOMS"
    case CreateCmd => "CREATE"
    case JoinCmd => "JOIN"
    case TopicCmd => "TOPIC"
    case MsgCmd => "MSG"
    case WhisperCmd => "WHISPER"
    case KickCmd => "KICK"
  }

  function Named(t: Text): Option<Command>
  {
    if t == "HELLO" then Some(HelloCmd)
    else if t == "AUTH" then Some(AuthCmd)
    else if t == "IDENTIFY" then Some(IdentifyCmd)
    else if t == "PROOF" then Some(ProofCmd)
    else if t == "LEAVE" then Some(LeaveCmd)
    else if t == "DISCONNECT" then Some(DisconnectCmd)
    else if t == "ROOMS" then Some(RoomsCmd)
    else if t == "CREATE" then Some(CreateCmd)
    else if t == "JOIN" then Some(JoinCmd)
    else if t == "TOPIC" then Some(TopicCmd)
    else if t == "MSG" then Some(MsgCmd)
    else if t == "WHISPER" then Some(WhisperCmd)
    else if t == "KICK" then Some(KickCmd)
    else None
  }

  lemma NamedName(c: Command)
    ensures Named(Name(c)) == Some(c) && '|' !in Name(c) && 3 <= |Name(c)| <= 10
  {
  }

  lemma NameNamed(t: Text)
    ensures Named(t).Some? ==> Name(Named(t).value) == t
  {
  }

  function CommandOf(m: ClientMessage): Command
  {
    match m
    case Hello(_) => HelloCmd
    case Authenticate(_) => AuthCmd
    case Identify(_, _) => IdentifyCmd
    case IdentityProof(_) => ProofCmd
    case Leave => LeaveCmd
    case Disconnect => DisconnectCmd
    case ListRooms => RoomsCmd
    case CreateRoom(_) => CreateCmd
    case JoinRoom(_) => JoinCmd
    case TopicRequest(_) => TopicCmd
    case Chat(_) => MsgCmd
    case Whisper(_, _) => WhisperCmd
    case KickRequest(_, _) => KickCmd
  }

  /** What follows the command word, or nothing for a bare command. */
  function FieldsOf(m: ClientMessage): Option<Text>
  {
    match m
    case Hello(version) => Some(ToDecimal(version))
    case Authenticate(password) => Some(password)
    case Identify(nickname, key) => Some(Bar(nickname, key))
    case IdentityProof(signature) => Some(signature)
    case Leave => None
    case Disconnect => None
    case ListRooms => None
    case CreateRoom(name) => Some(name)
    case JoinRoom(name) => Some(name)
    case TopicRequest(topic) => topic
    case Chat(body) => Some(body)
    case Whisper(target, body) => Some(Bar(target, body))
    case KickRequest(nickname, reason) => Some(Bar(nickname, reason))
  }

  function Serialize(m: ClientMessage): Text
  {
    match FieldsOf(m)
    case None => Name(CommandOf(m))
    case Some(rest) => Bar(Name(CommandOf(m)), rest)
  }

  function Parse(payload: Text): Result<ClientMessage>
  {
    if payload == [] then Err(EmptyPayload)
    else
      var fields := Split(payload, '|');
      match Named(fields[0])
      case None => Err(UnknownMessage)
      case Some(command) => ParseBody(command, fields, payload)
  }

  /** The branch of the parser for one command word. */
  function ParseBody(command: Command, fields: seq<Text>, payload: Text): Result<ClientMessage>
    requires |fields| >= 1
  {
    match command
    case HelloCmd =>
      if |fields| != 2 then Err(WrongFieldCount)
      else
        var version := ParseUnsigned(fields[1], MAX_U32);
        if version.None? then Err(InvalidField)
        else if version.value != VERSION then Err(UnsupportedVersion)
        else Ok(ClientMessage.Hello(version.value))
    case AuthCmd =>
      var password := RestAfter(payload, '|', 1);
      if |fields| < 2 then Err(WrongFieldCount)
      else if |password| > MAX_PASSWORD_LENGTH || !NoControls(password) then Err(InvalidField)
      else Ok(Authenticate(password))
    case IdentifyCmd =>
      if |fields| != 3 then Err(WrongFieldCount)
      else if !IsValidNickname(fields[1]) || !IsHex(fields[2], 64) then Err(InvalidField)
      else Ok(Identify(fields[1], fields[2]))
    case ProofCmd =>
      if |fields| != 2 then Err(WrongFieldCount)
      else if !IsHex(fields[1], 128) then Err(InvalidField)
      else Ok(IdentityProof(fields[1]))
    case LeaveCmd => if |fields| != 1 then Err(WrongFieldCount) else Ok(Leave)
    case DisconnectCmd => if |fields| != 1 then Err(WrongFieldCount) else Ok(Disconnect)
    case RoomsCmd => if |fields| != 1 then Err(WrongFieldCount) else Ok(ListRooms)
    case CreateCmd =>
      if |fields| != 2 then Err(WrongFieldCount)
      else if !IsValidRoomName(fields[1]) then Err(InvalidField)
      else Ok(CreateRoom(fields[1]))
    case JoinCmd =>
      if |fields| != 2 then Err(WrongFieldCount)
      else if !IsValidRoomName(fields[1]) then Err(InvalidField)
      else Ok(JoinRoom(fields[1]))
    case TopicCmd =>
      var topic := RestAfter(payload, '|', 1);
      if |fields| == 1 then Ok(TopicRequest(None))
      else if topic == [] || !IsValidRoomTopic(topic) then Err(InvalidField)
      else Ok(TopicRequest(Some(topic)))
    case MsgCmd =>
      var body := RestAfter(payload, '|', 1);
      if |fields| < 2 then Err(WrongFieldCount)
      else if !IsValidText(body, MAX_CHAT_LENGTH) then Err(InvalidField)
      else Ok(Chat(body))
    case WhisperCmd =>
      var body := RestAfter(payload, '|', 2);
      if |fields| < 3 then Err(WrongFieldCount)
      else if !IsValidNickname(fields[1]) || !IsValidText(body, MAX_CHAT_LENGTH) then Err(InvalidField)
      else Ok(Whisper(fields[1], body))
    case KickCmd =>
      var reason := if |fields| > 2 then RestAfter(payload, '|', 2) else [];
      if |fields| < 2 || !IsValidNickname(fields[1]) then Err(InvalidField)
      else if !IsValidReason(reason) then Err(InvalidField)
      else Ok(KickRequest(fields[1], reason))
  }

  /** `split_fields`: the loop that cuts a payload at its field delimiters. */
  method SplitFields(payload: Text) returns (fields: seq<Text>)
    ensures fields == Split(payload, '|')
  {
    hide Split, Find;
    fields := [];
    var start := 0;
    assert payload[0..] == payload;
    while true
      invariant 0 <= start <= |payload|
      invariant fields + Split(payload[start..], '|') == Split(payload, '|')
      decreases |payload| - start
    {
      ghost var rest := payload[start..];
      SplitStep(rest, '|');
      var delimiter := start + Find(payload[start..], '|');
      assert rest[..delimiter - start] == payload[start..delimiter];
      if delimiter == |payload| {
        return fields + [payload[start..delimiter]];
      }
      assert rest[delimiter - start + 1..] == payload[delimiter + 1..];
      fields := fields + [payload[start..delimiter]];
      start := delimiter + 1;
    }
  }

  // ---- the two directions ----

  /** Whatever the parser accepts is well formed. */
  lemma ParseIsWellFormed(payload: Text)
    ensures Parse(payload).Ok? ==> ClientWellFormed(Parse(payload).value)
  {
    hide Named, Name, Split, RestAfter, IsValidNickname, IsValidText, IsHex, IsValidRoomName, NoControls;
  }

  ghost predicate ParsesBack(m: ClientMessage)
  {
    ParseBody(CommandOf(m), Split(Serialize(m), '|'), Serialize(m)) == Ok(m)
  }

  lemma BareCommandParses(m: ClientMessage)
    requires FieldsOf(m).None?
    ensures ParsesBack(m) && Split(Serialize(m), '|') == [Name(CommandOf(m))]
  {
    hide Name, Named, Split, RestAfter;
    NamedName(CommandOf(m));
    SplitWhole(Name(CommandOf(m)), '|');
  }

  lemma FreeTextParses(m: ClientMessage)
    requires ClientWellFormed(m) && (m.Authenticate? || m.Chat? || (m.TopicRequest? && m.topic.Some?))
    ensures ParsesBack(m)
  {
    hide Name, Named, Split, RestAfter, Bar, IsValidText, IsValidRoomTopic, NoControls;
    NamedName(CommandOf(m));
    BarParts(Name(CommandOf(m)), FieldsOf(m).value);
  }

  lemma OneFieldParses(m: ClientMessage)
    requires ClientWellFormed(m)
    requires m.Hello? || m.IdentityProof? || m.CreateRoom? || m.JoinRoom?
    ensures ParsesBack(m)
  {
    hide Name, Named, Split, RestAfter, Bar;
    NamedName(CommandOf(m));
    if m.Hello? {
      DecimalRoundTrip(m.version);
      DigitsHaveNoDelimiter(FieldsOf(m).value, '|');
    }
    BarParts(Name(CommandOf(m)), FieldsOf(m).value);
    SplitWhole(FieldsOf(m).value, '|');
  }

  lemma NicknameFirstParses(m: ClientMessage)
    requires ClientWellFormed(m) && (m.Identify? || m.Whisper? || m.KickRequest?)
    ensures ParsesBack(m)
  {
    hide Name, Named, Split, RestAfter, Bar, IsValidNickname, IsValidText;
    var nickname := if m.Whisper? then m.target else m.nickname;
    var rest := if m.Identify? then m.publicKey else if m.Whisper? then m.body else m.reason;
    NamedName(CommandOf(m));
    NicknameIsClean(nickname);
    BarParts(Name(CommandOf(m)), Bar(nickname, rest));
    BarParts(nickname, rest);
    BarBarRest(Name(CommandOf(m)), nickname, rest);
    if m.Identify? { SplitWhole(rest, '|'); }
  }

  lemma ParseSerialize(m: ClientMessage)
    requires ClientWellFormed(m)
    ensures Parse(Serialize(m)) == Ok(m)
  {
    hide Name, Named, Split, RestAfter, Bar, ParseBody, ClientWellFormed;
    NamedName(CommandOf(m));
    if FieldsOf(m).None? {
      BareCommandParses(m);
    } else {
      BarParts(Name(CommandOf(m)), FieldsOf(m).value);
      match m {
        case Authenticate(_) => FreeTextParses(m);
        case Chat(_) => FreeTextParses(m);
        case TopicRequest(_) => FreeTextParses(m);
        case Identify(_, _) => NicknameFirstParses(m);
        case Whisper(_, _) => NicknameFirstParses(m);
        case KickRequest(_, _) => NicknameFirstParses(m);
        case _ => OneFieldParses(m);
      }
    }
  }

  /** Printing then parsing gives the message back exactly when it is well formed. */
  lemma RoundTripExactly(m: ClientMessage)
    ensures Parse(Serialize(m)) == Ok(m) <==> ClientWellFormed(m)
  {
    ParseIsWellFormed(Serialize(m));
    if ClientWellFormed(m) { ParseSerialize(m); }
  }

  lemma SerializeInjective(a: ClientMessage, b: ClientMessage)
    requires ClientWellFormed(a) && ClientWellFormed(b) && Serialize(a) == Serialize(b)
    ensures a == b
  {
    ParseSerialize(a);
    ParseSerialize(b);
  }

  /** Every well-formed client message is short enough for one frame. */
  lemma SerializeLength(m: ClientMessage)
    requires ClientWellFormed(m)
    ensures 1 <= |Serialize(m)| <= 1050
  {
    hide Name, Named;
    NamedName(CommandOf(m));
    if m.Hello? {
      assert ToDecimal(VERSION) == [DigitChar(3)];
    }
  }
}
