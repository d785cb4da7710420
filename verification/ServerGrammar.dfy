/** The payloads of the eighteen server messages: the printer, the parser, and the proof that
    they undo each other exactly on the well-formed messages. */
module ServerGrammar {
  import opened Octets
  import opened Base64
  import opened Messages

  datatype Command =
    | HelloCmd | AuthRequiredCmd | AuthOkCmd | AuthFailCmd | ChallengeCmd | IdentityOkCmd
    | JoinOkCmd | BannedCmd | NickTakenCmd | JoinFailCmd | KickCmd | UsersCmd | RoomsCmd
    | RoomCmd | TopicCmd | RoomTextCmd | TextCmd | ErrorCmd

  function Name(c: Command): Text
  {
    match c
    case HelloCmd => "HELLO"
    case AuthRequiredCmd => "AUTH_REQUIRED"
    case AuthOkCmd => "AUTH_OK"
    case AuthFailCmd => "AUTH_FAIL"
    case ChallengeCmd => "CHALLENGE"
    case IdentityOkCmd => "IDENTITY_OK"
    case JoinOkCmd => "JOIN_OK"
    case BannedCmd => "BANNED"
    case NickTakenCmd => "NICK_TAKEN"
    case JoinFailCmd => "JOIN_FAIL"
    case KickCmd => "KICK"
    case UsersCmd => "USERS"
    case RoomsCmd => "ROOMS"
    case RoomCmd => "ROOM"
    case TopicCmd => "TOPIC"
    case RoomTextCmd => "ROOM_TEXT"
    case TextCmd => "TEXT"
    case ErrorCmd => "ERROR"
  }

  function Named(t: Text): Option<Command>
  {
    if t == "HELLO" then Some(HelloCmd)
    else if t == "AUTH_REQUIRED" then Some(AuthRequiredCmd)
    else if t == "AUTH_OK" then Some(AuthOkCmd)
    else if t == "AUTH_FAIL" then Some(AuthFailCmd)
    else if t == "JOIN_OK" then Some(JoinOkCmd)
    else if t == "BANNED" then Some(BannedCmd)
    else if t == "NICK_TAKEN" then Some(NickTakenCmd)
    else if t == "CHALLENGE" then Some(ChallengeCmd)
    else if t == "IDENTITY_OK" then Some(IdentityOkCmd)
    else if t == "USERS" then Some(UsersCmd)
    else if t == "ROOMS" then Some(RoomsCmd)
    else if t == "ROOM" then Some(RoomCmd)
    else if t == "TOPIC" then Some(TopicCmd)
    else if t == "ROOM_TEXT" then Some(RoomTextCmd)
    else if t == "KICK" then Some(KickCmd)
    else if t == "JOIN_FAIL" then Some(JoinFailCmd)
    else if t == "TEXT" then Some(TextCmd)
    else if t == "ERROR" then Some(ErrorCmd)
    else None
  }

  lemma NamedName(c: Command)
    ensures Named(Name(c)) == Some(c) && '|' !in Name(c) && 4 <= |Name(c)| <= 13
  {
  }

  lemma NameNamed(t: Text)
    ensures Named(t).Some? ==> Name(Named(t).value) == t
  {
  }

  // ---- the room list ----

  function PrintEntry(s: RoomSummary): Text
  {
    ToDecimal(s.id) + [','] + (s.name + [','] + ToDecimal(s.userCount))
  }

  function PrintEntries(rooms: seq<RoomSummary>): seq<Text>
  {
    seq(|rooms|, i requires 0 <= i < |rooms| => PrintEntry(rooms[i]))
  }

  function ParseEntry(entry: Text): Option<RoomSummary>
  {
    var first := Find(entry, ',');
    if first == |entry| then None
    else
      var rest := entry[first + 1..];
      var second := Find(rest, ',');
      if second == |rest| then None
      else
        var id := ParseUnsigned(entry[..first], MAX_U64);
        var count := ParseUnsigned(rest[second + 1..], MAX_U64);
        if id.None? || id.value == 0 || !IsValidRoomName(rest[..second]) || count.None? then None
        else Some(RoomSummary(id.value, rest[..second], count.value))
  }

  /** The entries of a list field; a final empty piece (an empty field, or a trailing `;`) is
      not an entry. */
  function EntryTexts(t: Text): seq<Text> { WithoutEmptyLast(Split(t, ';')) }

  function WithoutEmptyLast(pieces: seq<Text>): seq<Text>
    requires pieces != []
  {
    if pieces[|pieces| - 1] == [] then pieces[..|pieces| - 1] else pieces
  }

  function ParseRooms(t: Text): Option<seq<RoomSummary>>
  {
    var entries := EntryTexts(t);
    if |entries| <= MAX_ROOMS && forall i :: 0 <= i < |entries| ==> ParseEntry(entries[i]).Some? then
      Some(seq(|entries|, i requires 0 <= i < |entries| => ParseEntry(entries[i]).value))
    else None
  }

  // ---- the user list ----

  function UserTexts(t: Text): seq<Text> { if t == [] then [] else Split(t, ',') }

  function ParseUsers(t: Text): Option<seq<Text>>
  {
    var names := UserTexts(t);
    if forall i :: 0 <= i < |names| ==> IsValidNickname(names[i]) then Some(names) else None
  }

  // ---- messages ----

  function CommandOf(m: ServerMessage): Command
  {
    match m
    case Hello(_) => HelloCmd
    case AuthRequired => AuthRequiredCmd
    case AuthAccepted => AuthOkCmd
    case AuthRejected => AuthFailCmd
    case Challenge(_) => ChallengeCmd
    case IdentityAccepted(_) => IdentityOkCmd
    case JoinAccepted => JoinOkCmd
    case Banned => BannedCmd
    case NicknameTaken => NickTakenCmd
    case JoinRejected(_) => JoinFailCmd
    case Kick(_, _) => KickCmd
    case UserList(_, _) => UsersCmd
    case RoomList(_) => RoomsCmd
    case RoomJoined(_, _, _) => RoomCmd
    case RoomTopic(_, _) => TopicCmd
    case RoomText(_, _) => RoomTextCmd
    case DirectText(_) => TextCmd
    case ServerError(_) => ErrorCmd
  }

  function FieldsOf(m: ServerMessage): Option<Text>
  {
    match m
    case Hello(version) => Some(ToDecimal(version))
    case AuthRequired => None
    case AuthAccepted => None
    case AuthRejected => None
    case Challenge(challenge) => Some(challenge)
    case IdentityAccepted(fingerprint) => Some(fingerprint)
    case JoinAccepted => None
    case Banned => None
    case NicknameTaken => None
    case JoinRejected(reason) => Some(reason)
    case Kick(nickname, reason) => Some(Bar(nickname, reason))
    case UserList(id, names) => Some(Bar(ToDecimal(id), Join(names, ',')))
    case RoomList(rooms) => Some(Join(PrintEntries(rooms), ';'))
    case RoomJoined(id, name, topic) => Some(Bar(ToDecimal(id), Bar(name, topic)))
    case RoomTopic(id, topic) => Some(Bar(ToDecimal(id), topic))
    case RoomText(id, body) => Some(Bar(ToDecimal(id), body))
    case DirectText(body) => Some(body)
    case ServerError(reason) => Some(reason)
  }

  function Serialize(m: ServerMessage): Text
  {
    match FieldsOf(m)
    case None => Name(CommandOf(m))
    case Some(rest) => Bar(Name(CommandOf(m)), rest)
  }

  function Parse(payload: Text): Result<ServerMessage>
  {
    if payload == [] then Err(EmptyPayload)
    else
      var fields := Split(payload, '|');
      match Named(fields[0])
      case None => Err(UnknownMessage)
      case Some(command) => ParseBody(command, fields, payload)
  }

  function Bare(fields: seq<Text>, m: ServerMessage): Result<ServerMessage>
  {
    if |fields| != 1 then Err(WrongFieldCount) else Ok(m)
  }

  /** The branch of the parser for one command word. */
  function ParseBody(command: Command, fields: seq<Text>, payload: Text): Result<ServerMessage>
    requires |fields| >= 1
  {
    match command
    case HelloCmd =>
      if |fields| != 2 then Err(WrongFieldCount)
      else
        var version := ParseUnsigned(fields[1], MAX_U32);
        if version.None? then Err(InvalidField)
        else if version.value != VERSION then Err(UnsupportedVersion)
        else Ok(ServerMessage.Hello(version.value))
    case AuthRequiredCmd => Bare(fields, AuthRequired)
    case AuthOkCmd => Bare(fields, AuthAccepted)
    case AuthFailCmd => Bare(fields, AuthRejected)
    case JoinOkCmd => Bare(fields, JoinAccepted)
    case BannedCmd => Bare(fields, Banned)
    case NickTakenCmd => Bare(fields, NicknameTaken)
    case ChallengeCmd =>
      if |fields| != 2 || !IsHex(fields[1], 64) then Err(InvalidField) else Ok(Challenge(fields[1]))
    case IdentityOkCmd =>
      if |fields| != 2 || !IsHex(fields[1], 16) then Err(InvalidField) else Ok(IdentityAccepted(fields[1]))
    case UsersCmd =>
      if |fields| != 3 then Err(WrongFieldCount)
      else
        var id := ParseUnsigned(fields[1], MAX_U64);
        var names := ParseUsers(fields[2]);
        if id.None? || id.value == 0 || names.None? then Err(InvalidField)
        else Ok(UserList(id.value, names.value))
    case RoomsCmd =>
      if |fields| != 2 then Err(WrongFieldCount)
      else
        var rooms := ParseRooms(fields[1]);
        if rooms.None? then Err(InvalidField) else Ok(RoomList(rooms.value))
    case RoomCmd =>
      if |fields| < 4 then Err(WrongFieldCount)
      else
        var id := ParseUnsigned(fields[1], MAX_U64);
        var topic := RestAfter(payload, '|', 3);
        if id.None? || id.value == 0 || !IsValidRoomName(fields[2]) || !IsValidRoomTopic(topic) then
          Err(InvalidField)
        else Ok(RoomJoined(id.value, fields[2], topic))
    case TopicCmd =>
      if |fields| < 3 then Err(WrongFieldCount)
      else
        var id := ParseUnsigned(fields[1], MAX_U64);
        var topic := RestAfter(payload, '|', 2);
        if id.None? || id.value == 0 || !IsValidRoomTopic(topic) then Err(InvalidField)
        else Ok(RoomTopic(id.value, topic))
    case RoomTextCmd =>
      if |fields| < 3 then Err(WrongFieldCount)
      else
        var id := ParseUnsigned(fields[1], MAX_U64);
        var body := RestAfter(payload, '|', 2);
        if id.None? || id.value == 0 || !IsValidText(body, MAX_TEXT_LENGTH) then Err(InvalidField)
        else Ok(RoomText(id.value, body))
    case KickCmd =>
      var reason := if |fields| > 2 then RestAfter(payload, '|', 2) else [];
      if |fields| < 2 || !IsValidNickname(fields[1]) then Err(InvalidField)
      else if !IsValidReason(reason) then Err(InvalidField)
      else Ok(Kick(fields[1], reason))
    case JoinFailCmd => ParseText(fields, payload, t => JoinRejected(t))
    case TextCmd => ParseText(fields, payload, t => DirectText(t))
    case ErrorCmd => ParseText(fields, payload, t => ServerError(t))
  }

  function ParseText(fields: seq<Text>, payload: Text, make: Text -> ServerMessage): Result<ServerMessage>
  {
    var body := RestAfter(payload, '|', 1);
    if |fields| < 2 then Err(WrongFieldCount)
    else if !IsValidText(body, MAX_TEXT_LENGTH) then Err(InvalidField)
    else Ok(make(body))
  }

  // ---- the list loops ----

  /** The `USERS` printing loop. */
  method PrintUsersLoop(names: seq<Text>) returns (output: Text)
    ensures output == Join(names, ',')
  {
    output := [];
    for i := 0 to |names|
      invariant output == Join(names[..i], ',')
    {
      if i != 0 {
        JoinAppend(names[..i], ',', names[i]);
        output := output + [','];
      }
      output := output + names[i];
      assert names[..i + 1] == names[..i] + [names[i]];
    }
    assert names[..|names|] == names;
  }

  /** The `ROOMS` printing loop. */
  method PrintRoomsLoop(rooms: seq<RoomSummary>) returns (output: Text)
    ensures output == Join(PrintEntries(rooms), ';')
  {
    output := [];
    var entries := PrintEntries(rooms);
    for i := 0 to |rooms|
      invariant output == Join(entries[..i], ';')
    {
      if i != 0 {
        JoinAppend(entries[..i], ';', entries[i]);
        output := output + [';'];
      }
      output := output + PrintEntry(rooms[i]);
      assert entries[..i + 1] == entries[..i] + [entries[i]];
    }
    assert entries[..|entries|] == entries;
  }

  lemma UserStep(t: Text)
    requires t != [] && t[|t| - 1] != ','
    ensures var k := Find(t, ',');
            && UserTexts(t) == [t[..k]] + (if k == |t| then [] else UserTexts(t[k + 1..]))
            && (k < |t| ==> k + 1 < |t|)
  {
    hide Split;
    SplitStep(t, ',');
  }

  lemma {:induction false} TrailingCommaFails(t: Text)
    requires t != [] && t[|t| - 1] == ','
    ensures ParseUsers(t).None?
  {
    LastPieceEmpty(t, ',');
    var names := Split(t, ',');
    assert !IsValidNickname(names[|names| - 1]);
  }

  lemma {:induction false} LastPieceEmpty(t: Text, d: Octet)
    requires t != [] && t[|t| - 1] == d
    ensures Split(t, d)[|Split(t, d)| - 1] == []
    decreases |t|
  {
    var k := Find(t, d);
    if k + 1 < |t| { LastPieceEmpty(t[k + 1..], d); }
  }

  /** The `USERS` parsing loop: a field ending in a comma is refused up front, so the loop never
      meets an empty last name. */
  method ParseUsersLoop(t: Text) returns (r: Option<seq<Text>>)
    ensures r == ParseUsers(t)
  {
    hide IsValidNickname, UserTexts, Find;
    if t != [] && t[|t| - 1] == ',' {
      TrailingCommaFails(t);
      return None;
    }
    var names: seq<Text> := [];
    var start := 0;
    ghost var all := UserTexts(t);
    assert t[0..] == t;
    UserTextsOfEmpty();
    while start < |t|
      invariant 0 <= start <= |t|
      invariant forall i :: 0 <= i < |names| ==> IsValidNickname(names[i])
      invariant all == names + UserTexts(t[start..])
      invariant start == |t| ==> all == names
      decreases |t| - start
    {
      ghost var rest := t[start..];
      UserStep(rest);
      var comma := start + Find(t[start..], ',');
      var nickname := t[start..comma];
      assert rest[..comma - start] == nickname;
      assert all[|names|] == nickname;
      if !IsValidNickname(nickname) { return None; }
      names := names + [nickname];
      if comma == |t| {
        assert all == names;
        return Some(names);
      }
      assert rest[comma - start + 1..] == t[comma + 1..];
      start := comma + 1;
    }
    return Some(names);
  }

  lemma UserTextsOfEmpty()
    ensures UserTexts([]) == []
  {
  }

  lemma EntryStep(t: Text)
    requires t != []
    ensures var k := Find(t, ';');
            EntryTexts(t) == [t[..k]] + (if k == |t| then [] else EntryTexts(t[k + 1..]))
  {
    hide Split;
    SplitStep(t, ';');
    var k := Find(t, ';');
    if k < |t| { WithoutEmptyLastCons(t[..k], Split(t[k + 1..], ';')); }
  }

  lemma {:induction false} WithoutEmptyLastCons(first: Text, rest: seq<Text>)
    requires rest != []
    ensures WithoutEmptyLast([first] + rest) == [first] + WithoutEmptyLast(rest)
  {
    var pieces := [first] + rest;
    assert pieces[|pieces| - 1] == rest[|rest| - 1];
    assert pieces[..|pieces| - 1] == [first] + rest[..|rest| - 1];
  }

  lemma {:induction false} RoomsParsed(t: Text, rooms: seq<RoomSummary>)
    requires |EntryTexts(t)| == |rooms| <= MAX_ROOMS
    requires forall i :: 0 <= i < |rooms| ==> ParseEntry(EntryTexts(t)[i]) == Some(rooms[i])
    ensures ParseRooms(t) == Some(rooms)
  {
    hide ParseEntry;
    assert ParseRooms(t).Some?;
    assert ParseRooms(t).value == rooms;
  }

  lemma EntryTextsOfEmpty()
    ensures EntryTexts([]) == []
  {
    assert Split([], ';') == [[]];
  }

  /** The `ROOMS` parsing loop. */
  method ParseRoomsLoop(t: Text) returns (r: Option<seq<RoomSummary>>)
    ensures r == ParseRooms(t)
  {
    hide ParseEntry, EntryTexts, Find;
    var rooms: seq<RoomSummary> := [];
    var start := 0;
    ghost var all := EntryTexts(t);
    assert t[0..] == t;
    EntryTextsOfEmpty();
    while start < |t|
      invariant 0 <= start <= |t|
      invariant |rooms| <= MAX_ROOMS && |rooms| <= |all|
      invariant all[|rooms|..] == EntryTexts(t[start..])
      invariant forall i :: 0 <= i < |rooms| ==> ParseEntry(all[i]) == Some(rooms[i])
      decreases |t| - start
    {
      ghost var rest := t[start..];
      EntryStep(rest);
      var semicolon := start + Find(t[start..], ';');
      var entry := t[start..semicolon];
      assert rest[..semicolon - start] == entry;
      assert all[|rooms|..][0] == entry;
      var parsed := ParseEntry(entry);
      if parsed.None? { return None; }
      assert all[|rooms| + 1..] == all[|rooms|..][1..];
      rooms := rooms + [parsed.value];
      if |rooms| > MAX_ROOMS { return None; }
      if semicolon == |t| {
        assert |all| == |rooms|;
        RoomsParsed(t, rooms);
        return Some(rooms);
      }
      assert rest[semicolon - start + 1..] == t[semicolon + 1..];
      start := semicolon + 1;
    }
    assert t[start..] == [];
    RoomsParsed(t, rooms);
    return Some(rooms);
  }

  // ---- the parser accepts only well-formed messages ----

  lemma EntryIsWellFormed(entry: Text)
    ensures ParseEntry(entry).Some? ==> SummaryWellFormed(ParseEntry(entry).value)
  {
    hide IsValidRoomName;
  }

  lemma RoomsAreWellFormed(t: Text)
    ensures ParseRooms(t).Some? ==> ServerWellFormed(RoomList(ParseRooms(t).value))
  {
    hide ParseEntry, SummaryWellFormed, EntryTexts;
    var entries := EntryTexts(t);
    forall i | 0 <= i < |entries| && ParseEntry(entries[i]).Some?
      ensures SummaryWellFormed(ParseEntry(entries[i]).value)
    {
      EntryIsWellFormed(entries[i]);
    }
  }

  lemma ParseIsWellFormed(payload: Text)
    ensures Parse(payload).Ok? ==> ServerWellFormed(Parse(payload).value)
  {
    hide Named, Name, Split, RestAfter, IsValidNickname, IsValidText, IsHex, IsValidRoomName, NoControls,
      ParseRooms, UserTexts;
    var fields := Split(payload, '|');
    if |fields| == 2 { RoomsAreWellFormed(fields[1]); }
  }

  // ---- the parser undoes the printer ----

  ghost predicate ParsesBack(m: ServerMessage)
  {
    ParseBody(CommandOf(m), Split(Serialize(m), '|'), Serialize(m)) == Ok(m)
  }

  lemma IdRoundTrip(id: RoomId)
    ensures ToDecimal(id) != [] && !('|' in ToDecimal(id)) && !(',' in ToDecimal(id))
    ensures id <= MAX_U64 ==> ParseUnsigned(ToDecimal(id), MAX_U64) == Some(id)
    ensures id <= MAX_U32 ==> ParseUnsigned(ToDecimal(id), MAX_U32) == Some(id)
  {
    DecimalRoundTrip(id);
    DigitsHaveNoDelimiter(ToDecimal(id), '|');
    DigitsHaveNoDelimiter(ToDecimal(id), ',');
  }

  lemma RoomNameIsClean(n: Text)
    requires IsValidRoomName(n)
    ensures '|' !in n && ',' !in n && ';' !in n
  {
  }

  lemma EntryRoundTrip(s: RoomSummary)
    requires SummaryWellFormed(s)
    ensures ParseEntry(PrintEntry(s)) == Some(s)
  {
    hide IsValidRoomName, ToDecimal, ParseUnsigned, Find;
    IdRoundTrip(s.id);
    IdRoundTrip(s.userCount);
    RoomNameIsClean(s.name);
    CutAt(ToDecimal(s.id), ',', s.name + [','] + ToDecimal(s.userCount));
    CutAt(s.name, ',', ToDecimal(s.userCount));
  }

  lemma EntryIsClean(s: RoomSummary)
    requires SummaryWellFormed(s)
    ensures '|' !in PrintEntry(s) && ';' !in PrintEntry(s) && PrintEntry(s) != []
  {
    hide ToDecimal;
    DecimalRoundTrip(s.id);
    DecimalRoundTrip(s.userCount);
    RoomNameIsClean(s.name);
  }

  lemma {:induction false} JoinIsClean(fields: seq<Text>, d: Octet, c: Octet)
    requires c != d && forall i :: 0 <= i < |fields| ==> c !in fields[i]
    ensures c !in Join(fields, d)
  {
    if |fields| > 1 { JoinIsClean(fields[1..], d, c); }
  }

  lemma {:induction false} RoomsRoundTrip(rooms: seq<RoomSummary>)
    requires ServerWellFormed(RoomList(rooms))
    ensures var t := Join(PrintEntries(rooms), ';'); ParseRooms(t) == Some(rooms) && '|' !in t
  {
    hide PrintEntry, ParseEntry, SummaryWellFormed, Split, Join;
    var entries := PrintEntries(rooms);
    var t := Join(entries, ';');
    forall i | 0 <= i < |rooms|
      ensures ParseEntry(entries[i]) == Some(rooms[i])
      ensures '|' !in entries[i] && ';' !in entries[i] && entries[i] != []
    {
      EntryRoundTrip(rooms[i]);
      EntryIsClean(rooms[i]);
    }
    JoinIsClean(entries, ';', '|');
    JoinOfNone(';');
    if rooms == [] {
      EntryTextsOfEmpty();
    } else {
      SplitJoin(entries, ';');
    }
    RoomsParsed(t, rooms);
  }

  lemma JoinOfNone(d: Octet)
    ensures Join([], d) == []
  {
  }

  lemma {:induction false} UsersRoundTrip(names: seq<Text>)
    requires forall i :: 0 <= i < |names| ==> IsValidNickname(names[i])
    ensures var t := Join(names, ','); ParseUsers(t) == Some(names) && '|' !in t
  {
    hide IsValidNickname, Split;
    forall i | 0 <= i < |names| ensures '|' !in names[i] && ',' !in names[i] && names[i] != [] {
      NicknameIsClean(names[i]);
    }
    JoinIsClean(names, ',', '|');
    if names != [] { SplitJoin(names, ','); }
  }

  lemma BareCommandParses(m: ServerMessage)
    requires FieldsOf(m).None?
    ensures ParsesBack(m) && Split(Serialize(m), '|') == [Name(CommandOf(m))]
  {
    hide Name, Named, Split, RestAfter;
    NamedName(CommandOf(m));
    SplitWhole(Name(CommandOf(m)), '|');
  }

  lemma FreeTextParses(m: ServerMessage)
    requires ServerWellFormed(m) && (m.JoinRejected? || m.DirectText? || m.ServerError?)
    ensures ParsesBack(m)
  {
    hide Name, Named, Split, RestAfter, Bar, IsValidText;
    NamedName(CommandOf(m));
    BarParts(Name(CommandOf(m)), FieldsOf(m).value);
  }

  lemma OneFieldParses(m: ServerMessage)
    requires ServerWellFormed(m)
    requires m.Hello? || m.Challenge? || m.IdentityAccepted? || m.RoomList?
    ensures ParsesBack(m)
  {
    hide Name, Named, Split, RestAfter, Bar, Join, ParseRooms, ParseUnsigned, ToDecimal;
    NamedName(CommandOf(m));
    var field := FieldsOf(m).value;
    if m.Hello? { IdRoundTrip(m.version); }
    if m.RoomList? { RoomsRoundTrip(m.rooms); }
    BarParts(Name(CommandOf(m)), field);
    SplitWhole(field, '|');
  }

  lemma KickParses(m: ServerMessage)
    requires ServerWellFormed(m) && m.Kick?
    ensures ParsesBack(m)
  {
    hide Name, Named, Split, RestAfter, Bar, IsValidNickname, IsValidText;
    NamedName(CommandOf(m));
    NicknameIsClean(m.nickname);
    BarParts(Name(KickCmd), Bar(m.nickname, m.reason));
    BarParts(m.nickname, m.reason);
    BarBarRest(Name(KickCmd), m.nickname, m.reason);
  }

  lemma IdFirstParses(m: ServerMessage)
    requires ServerWellFormed(m) && (m.UserList? || m.RoomTopic? || m.RoomText?)
    ensures ParsesBack(m)
  {
    hide Name, Named, Split, RestAfter, Bar, IsValidText, NoControls, ParseUsers, Join, ParseUnsigned,
      ToDecimal, IsValidNickname;
    NamedName(CommandOf(m));
    var id := ToDecimal(m.roomId);
    var rest := if m.UserList? then Join(m.nicknames, ',') else if m.RoomTopic? then m.topic else m.body;
    IdRoundTrip(m.roomId);
    BarParts(Name(CommandOf(m)), Bar(id, rest));
    BarParts(id, rest);
    BarBarRest(Name(CommandOf(m)), id, rest);
    if m.UserList? {
      UsersRoundTrip(m.nicknames);
      SplitWhole(rest, '|');
    }
  }

  lemma RoomJoinedParses(m: ServerMessage)
    requires ServerWellFormed(m) && m.RoomJoined?
    ensures ParsesBack(m)
  {
    hide Name, Named, Split, RestAfter, Bar, NoControls, ParseUnsigned, ToDecimal, IsValidRoomName;
    NamedName(RoomCmd);
    var id := ToDecimal(m.id);
    IdRoundTrip(m.id);
    RoomNameIsClean(m.name);
    BarParts(Name(RoomCmd), Bar(id, Bar(m.name, m.topic)));
    BarParts(id, Bar(m.name, m.topic));
    BarParts(m.name, m.topic);
    BarBarBarRest(Name(RoomCmd), id, m.name, m.topic);
  }

  lemma ParseSerialize(m: ServerMessage)
    requires ServerWellFormed(m)
    ensures Parse(Serialize(m)) == Ok(m)
  {
    hide Name, Named, Split, RestAfter, Bar, ParseBody, ServerWellFormed;
    NamedName(CommandOf(m));
    if FieldsOf(m).None? {
      BareCommandParses(m);
    } else {
      BarParts(Name(CommandOf(m)), FieldsOf(m).value);
      match m {
        case JoinRejected(_) => FreeTextParses(m);
        case DirectText(_) => FreeTextParses(m);
        case ServerError(_) => FreeTextParses(m);
        case Kick(_, _) => KickParses(m);
        case UserList(_, _) => IdFirstParses(m);
        case RoomTopic(_, _) => IdFirstParses(m);
        case RoomText(_, _) => IdFirstParses(m);
        case RoomJoined(_, _, _) => RoomJoinedParses(m);
        case _ => OneFieldParses(m);
      }
    }
  }

  /** Printing then parsing gives the message back exactly when it is well formed. */
  lemma RoundTripExactly(m: ServerMessage)
    ensures Parse(Serialize(m)) == Ok(m) <==> ServerWellFormed(m)
  {
    ParseIsWellFormed(Serialize(m));
    if ServerWellFormed(m) { ParseSerialize(m); }
  }

  lemma SerializeInjective(a: ServerMessage, b: ServerMessage)
    requires ServerWellFormed(a) && ServerWellFormed(b) && Serialize(a) == Serialize(b)
    ensures a == b
  {
    ParseSerialize(a);
    ParseSerialize(b);
  }

  lemma ParseOfEmpty()
    ensures Parse([]) == Err(EmptyPayload)
  {
  }

  // ---- lengths ----

  lemma EntryReprint(entry: Text)
    requires ParseEntry(entry).Some?
    ensures |PrintEntry(ParseEntry(entry).value)| <= |entry|
  {
    hide IsValidRoomName, ToDecimal;
    var first := Find(entry, ',');
    var rest := entry[first + 1..];
    var second := Find(rest, ',');
    DecimalIsShortest(entry[..first]);
    DecimalIsShortest(rest[second + 1..]);
  }

  lemma {:induction false} WithoutEmptyLastLength(pieces: seq<Text>, d: Octet)
    requires pieces != []
    ensures |Join(WithoutEmptyLast(pieces), d)| <= |Join(pieces, d)|
  {
    var n := |pieces| - 1;
    if pieces[n] == [] && n > 0 {
      JoinAppend(pieces[..n], d, pieces[n]);
      assert pieces == pieces[..n] + [pieces[n]];
    }
  }

  lemma RoomsReprint(t: Text)
    requires ParseRooms(t).Some?
    ensures |Join(PrintEntries(ParseRooms(t).value), ';')| <= |t|
  {
    hide ParseEntry, PrintEntry, WithoutEmptyLast, Split, Join;
    var entries := EntryTexts(t);
    var rooms := ParseRooms(t).value;
    forall i | 0 <= i < |rooms| ensures |PrintEntries(rooms)[i]| <= |entries[i]| {
      EntryReprint(entries[i]);
    }
    JoinLength(PrintEntries(rooms), entries, ';');
    WithoutEmptyLastLength(Split(t, ';'), ';');
    JoinSplit(t, ';');
  }

  lemma UsersReprint(t: Text)
    requires ParseUsers(t).Some?
    ensures Join(ParseUsers(t).value, ',') == t
  {
    JoinSplit(t, ',');
  }

  lemma NumberReprint(t: Text, max: nat)
    requires ParseUnsigned(t, max).Some?
    ensures 1 <= |ToDecimal(ParseUnsigned(t, max).value)| <= |t|
  {
    DecimalIsShortest(t);
    DecimalRoundTrip(DecimalValue(t));
  }

  /** Printing what a payload parsed to never needs more room than the payload did, except for a
      kick without a reason field, which is short anyway. */
  lemma ReprintIsNoLonger(payload: Text)
    requires Parse(payload).Ok?
    ensures var m := Parse(payload).value;
            |Serialize(m)| <= |payload| || (m.Kick? && |Serialize(m)| <= 1050)
  {
    hide Named, Name, Split, RestAfter, IsValidNickname, IsValidText, IsHex, IsValidRoomName, NoControls,
      ParseRooms, ParseUsers, ParseUnsigned, Join, ToDecimal, ParseBody, PrintEntries;
    var m := Parse(payload).value;
    var fields := Split(payload, '|');
    var c := Named(fields[0]).value;
    NameNamed(fields[0]);
    ParsedCommand(c, fields, payload);
    if FieldsOf(m).None? {
      WholeOrMore(payload);
    } else if m.Kick? {
      NamedName(KickCmd);
      KickLength(payload);
    } else {
      FieldsReprint(c, fields, payload);
      SplitTail(payload, '|');
    }
  }

  lemma WholeOrMore(payload: Text)
    ensures |Split(payload, '|')[0]| <= |payload|
  {
  }

  lemma {:induction false} ParsedCommand(c: Command, fields: seq<Text>, payload: Text)
    requires |fields| >= 1 && ParseBody(c, fields, payload).Ok?
    ensures CommandOf(ParseBody(c, fields, payload).value) == c
  {
    hide RestAfter, IsValidNickname, IsValidText, IsHex, IsValidRoomName, NoControls, ParseRooms, ParseUsers,
      ParseUnsigned;
  }

  lemma KickLength(payload: Text)
    requires Parse(payload).Ok? && Parse(payload).value.Kick?
    ensures |FieldsOf(Parse(payload).value).value| <= 1032
  {
    hide Named, Split, RestAfter, IsHex, IsValidRoomName, NoControls, ParseRooms, ParseUsers, ParseUnsigned;
    ParseIsWellFormed(payload);
  }

  lemma {:induction false} FieldsReprint(c: Command, fields: seq<Text>, payload: Text)
    requires fields == Split(payload, '|')
    requires ParseBody(c, fields, payload).Ok?
    requires FieldsOf(ParseBody(c, fields, payload).value).Some? && !c.KickCmd?
    ensures |fields| >= 2
    ensures |FieldsOf(ParseBody(c, fields, payload).value).value| <= |RestAfter(payload, '|', 1)|
  {
    hide Named, Name, Split, RestAfter, IsValidNickname, IsValidText, IsHex, IsValidRoomName, NoControls,
      ParseRooms, ParseUsers, ParseUnsigned, Join, ToDecimal, PrintEntries;
    SplitTail(payload, '|');
    var rest := RestAfter(payload, '|', 1);
    match c
    case HelloCmd => LastField(rest); NumberReprint(fields[1], MAX_U32);
    case ChallengeCmd => LastField(rest);
    case IdentityOkCmd => LastField(rest);
    case RoomsCmd => LastField(rest); RoomsReprint(fields[1]);
    case UsersCmd =>
      NumberReprint(fields[1], MAX_U64);
      UsersReprint(fields[2]);
      SplitTail(rest, '|');
      LastField(RestAfter(rest, '|', 1));
    case RoomCmd =>
      NumberReprint(fields[1], MAX_U64);
      SplitTail(rest, '|');
      SplitTail(RestAfter(rest, '|', 1), '|');
      RestAfterTail(payload, '|', 2);
      RestAfterTail(rest, '|', 1);
    case TopicCmd =>
      NumberReprint(fields[1], MAX_U64);
      SplitTail(rest, '|');
      RestAfterTail(payload, '|', 1);
    case RoomTextCmd =>
      NumberReprint(fields[1], MAX_U64);
      SplitTail(rest, '|');
      RestAfterTail(payload, '|', 1);
    case _ =>
  }

  lemma LastField(p: Text)
    requires |Split(p, '|')| == 1
    ensures Split(p, '|')[0] == p
  {
  }

  lemma {:induction false} JoinBound(fields: seq<Text>, d: Octet, k: nat)
    requires fields != [] && forall i :: 0 <= i < |fields| ==> |fields[i]| <= k
    ensures |Join(fields, d)| <= |fields| * (k + 1) - 1
  {
    if |fields| > 1 { JoinBound(fields[1..], d, k); }
  }

  /** A room list of at most 32 valid rooms prints in at most 2405 octets. */
  lemma {:induction false} RoomListLength(rooms: seq<RoomSummary>)
    requires ServerWellFormed(RoomList(rooms))
    ensures |Serialize(RoomList(rooms))| <= 2405
  {
    hide Join, ToDecimal;
    var entries := PrintEntries(rooms);
    forall i | 0 <= i < |rooms| ensures |entries[i]| <= 74 {
      U64DecimalLength(rooms[i].id);
      U64DecimalLength(rooms[i].userCount);
    }
    assert Name(RoomsCmd) == "ROOMS";
    if rooms == [] { JoinOfNone(';'); } else { JoinBound(entries, ';', 74); }
  }
}
