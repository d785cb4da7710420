/** What is on the wire: how numbers are written, and exactly which payloads each parser takes for which
    message. */
module WireForms {
  import opened Octets
  import opened Base64
  import opened Messages
  import C = ClientGrammar
  import S = ServerGrammar

  // ---- numbers ----

  function Place(c: Octet): nat
  {
    match c
    case '1' => 1
    case '2' => 2
    case '3' => 3
    case '4' => 4
    case '5' => 5
    case '6' => 6
    case '7' => 7
    case '8' => 8
    case '9' => 9
    case _ => 0
  }

  /** The sum of the digits, each times its power of ten. */
  function PlaceValue(t: Text): nat
  {
    if t == [] then 0 else Place(t[0]) * Pow10(|t| - 1) + PlaceValue(t[1..])
  }

  /** The text is the number in decimal, zeros before it or not. */
  predicate IsNumber(t: Text, n: nat) { t != [] && (forall i :: 0 <= i < |t| ==> '0' <= t[i] <= '9') && PlaceValue(t) == n }

  lemma {:induction false} PlaceValueAppend(t: Text, c: Octet)
    ensures PlaceValue(t + [c]) == PlaceValue(t) * 10 + Place(c)
  {
    if t != [] {
      PlaceValueAppend(t[1..], c);
      assert (t + [c])[1..] == t[1..] + [c];
      assert Pow10(|t|) == 10 * Pow10(|t| - 1);
    }
  }

  lemma {:induction false} PlaceValueIs(t: Text)
    requires AllDigits(t)
    ensures DecimalValue(t) == PlaceValue(t)
  {
    if t != [] {
      var n := |t| - 1;
      PlaceValueIs(t[..n]);
      PlaceValueAppend(t[..n], t[n]);
      assert t == t[..n] + [t[n]];
      assert Place(t[n]) == t[n] as int - 48;
    }
  }

  /** A number is read exactly from its decimal forms, within the bound. */
  lemma NumberReadExactly(t: Text, max: nat, n: nat)
    ensures ParseUnsigned(t, max) == Some(n) <==> IsNumber(t, n) && n <= max
  {
    if AllDigits(t) { PlaceValueIs(t); }
  }

  /** And printed as the one that does not begin with a zero, unless it is nothing else. */
  lemma {:induction false} NumberPrintedExactly(n: nat)
    ensures IsNumber(ToDecimal(n), n) && (ToDecimal(n)[0] == '0' ==> n == 0 && |ToDecimal(n)| == 1)
  {
    DecimalRoundTrip(n);
    PlaceValueIs(ToDecimal(n));
    NoLeadingZero(n);
  }

  lemma {:induction false} NoLeadingZero(n: nat)
    ensures ToDecimal(n) != [] && (ToDecimal(n)[0] == '0' ==> n == 0 && |ToDecimal(n)| == 1)
  {
    if n >= 10 { NoLeadingZero(n / 10); }
  }

  // ---- payloads in pieces ----

  /** A payload is its first field and the rest, or its first two and the rest, and so on. */
  lemma Pieces(p: Text)
    ensures var f := Split(p, '|');
      && (|f| == 1 ==> p == f[0])
      && (|f| >= 2 ==> p == Bar(f[0], RestAfter(p, '|', 1)))
      && (|f| == 2 ==> RestAfter(p, '|', 1) == f[1])
      && (|f| >= 3 ==> RestAfter(p, '|', 1) == Bar(f[1], RestAfter(p, '|', 2)))
      && (|f| == 3 ==> RestAfter(p, '|', 2) == f[2])
      && (|f| >= 4 ==> RestAfter(p, '|', 2) == Bar(f[2], RestAfter(p, '|', 3)))
  {
    hide Split, RestAfter;
    var f, d := Split(p, '|'), '|';
    if |f| == 1 {
      Whole(p);
    } else {
      SplitTail(p, d);
      var r := RestAfter(p, d, 1);
      if |f| == 2 {
        Whole(r);
      } else {
        SplitTail(r, d);
        RestAfterTail(p, d, 1);
        var q := RestAfter(r, d, 1);
        if |f| == 3 {
          Whole(q);
        } else {
          SplitTail(q, d);
          RestAfterTail(p, d, 2);
          RestAfterTail(r, d, 1);
        }
      }
    }
  }

  lemma Whole(p: Text)
    requires |Split(p, '|')| == 1
    ensures p == Split(p, '|')[0]
  {
    JoinSplit(p, '|');
  }

  // ---- client messages ----

  function ClientWord(m: ClientMessage): Text
  {
    match m
    case Hello(_) => "HELLO"
    case Authenticate(_) => "AUTH"
    case Identify(_, _) => "IDENTIFY"
    case IdentityProof(_) => "PROOF"
    case Leave => "LEAVE"
    case Disconnect => "DISCONNECT"
    case ListRooms => "ROOMS"
    case CreateRoom(_) => "CREATE"
    case JoinRoom(_) => "JOIN"
    case TopicRequest(_) => "TOPIC"
    case Chat(_) => "MSG"
    case Whisper(_, _) => "WHISPER"
    case KickRequest(_, _) => "KICK"
  }

  /** The payload says this: the word, and then each field after a bar. */
  ghost predicate IsClientForm(p: Text, m: ClientMessage)
  {
    var w := ClientWord(m);
    match m
    case Hello(version) => exists d :: IsNumber(d, version) && p == Bar(w, d)
    case Authenticate(password) => p == Bar(w, password)
    case Identify(nickname, key) => p == Bar(w, Bar(nickname, key))
    case IdentityProof(signature) => p == Bar(w, signature)
    case Leave => p == w
    case Disconnect => p == w
    case ListRooms => p == w
    case CreateRoom(name) => p == Bar(w, name)
    case JoinRoom(name) => p == Bar(w, name)
    case TopicRequest(topic) => p == if topic.Some? then Bar(w, topic.value) else w
    case Chat(body) => p == Bar(w, body)
    case Whisper(target, body) => p == Bar(w, Bar(target, body))
    case KickRequest(nickname, reason) => p == Bar(w, Bar(nickname, reason)) || (reason == [] && p == Bar(w, nickname))
  }

  lemma ClientWordIs(m: ClientMessage)
    ensures ClientWord(m) == C.Name(C.CommandOf(m)) && '|' !in ClientWord(m) && ClientWord(m) != []
    ensures C.Named(ClientWord(m)) == Some(C.CommandOf(m))
  {
    C.NamedName(C.CommandOf(m));
  }

  lemma ClientFirst(p: Text, m: ClientMessage)
    requires C.Parse(p) == Ok(m)
    ensures Split(p, '|')[0] == ClientWord(m) && C.ParseBody(C.CommandOf(m), Split(p, '|'), p) == Ok(m)
  {
    hide C.Named, C.Name, Split, RestAfter, IsValidNickname, IsValidText, IsHex, IsValidRoomName, NoControls, ClientWord, IsValidRoomTopic;
    C.NameNamed(Split(p, '|')[0]);
    ClientWordIs(m);
  }

  /** What the client parser accepts is written that way. */
  lemma ClientParsedForm(p: Text, m: ClientMessage)
    requires C.Parse(p) == Ok(m)
    ensures IsClientForm(p, m)
  {
    hide C.Parse, C.Named, C.Name, Split, RestAfter, IsValidNickname, IsValidText, IsHex, IsValidRoomName, NoControls, ClientWord,
      IsValidRoomTopic, Bar, IsNumber, ParseUnsigned;
    ClientFirst(p, m);
    Pieces(p);
    if m.Hello? { NumberReadExactly(Split(p, '|')[1], MAX_U32, m.version); }
  }

  lemma ClientFormParses(p: Text, m: ClientMessage)
    requires ClientWellFormed(m) && IsClientForm(p, m)
    ensures C.Parse(p) == Ok(m)
  {
    hide C.Parse, C.Serialize, ClientWord, Bar, IsNumber, IsValidNickname, IsValidText, IsHex, IsValidRoomName, NoControls;
    ClientWordIs(m);
    if m.Hello? {
      var d :| IsNumber(d, m.version) && p == Bar(ClientWord(m), d);
      ClientHelloParses(d, m);
    } else if m.KickRequest? && m.reason == [] && p == Bar(ClientWord(m), m.nickname) {
      ClientKickParses(m);
    } else {
      ClientPrints(p, m);
      C.ParseSerialize(m);
    }
  }

  lemma ClientPrints(p: Text, m: ClientMessage)
    requires IsClientForm(p, m) && !m.Hello? && (m.KickRequest? ==> p == Bar(ClientWord(m), Bar(m.nickname, m.reason)))
    ensures p == C.Serialize(m)
  {
    hide ClientWord, C.Name, C.Named;
    ClientWordIs(m);
  }

  lemma ClientHelloParses(d: Text, m: ClientMessage)
    requires m.Hello? && m.version == VERSION && IsNumber(d, VERSION)
    ensures C.Parse(Bar(ClientWord(m), d)) == Ok(m)
  {
    hide C.Named, C.Name, Split, RestAfter, Bar, ClientWord, ParseUnsigned, IsNumber;
    ClientWordIs(m);
    NumberIsClean(d, VERSION);
    NumberReadExactly(d, MAX_U32, VERSION);
    BarParts(ClientWord(m), d);
    SplitWhole(d, '|');
  }

  lemma NumberIsClean(d: Text, n: nat)
    requires IsNumber(d, n)
    ensures '|' !in d && ',' !in d && ';' !in d && d != []
  {
  }

  lemma ClientKickParses(m: ClientMessage)
    requires m.KickRequest? && m.reason == [] && IsValidNickname(m.nickname)
    ensures C.Parse(Bar(ClientWord(m), m.nickname)) == Ok(m)
  {
    hide C.Named, C.Name, Split, RestAfter, Bar, ClientWord, IsValidNickname, IsValidText;
    ClientWordIs(m);
    NicknameIsClean(m.nickname);
    BarParts(ClientWord(m), m.nickname);
    SplitWhole(m.nickname, '|');
  }

  /** The client parser takes a payload for a message exactly when the message is well formed and the
      payload is written that way. */
  lemma ClientParsesExactly(p: Text, m: ClientMessage)
    ensures C.Parse(p) == Ok(m) <==> ClientWellFormed(m) && IsClientForm(p, m)
  {
    hide C.Parse, ClientWellFormed, IsClientForm;
    if C.Parse(p) == Ok(m) {
      ClientParsedForm(p, m);
      C.ParseIsWellFormed(p);
    }
    if ClientWellFormed(m) && IsClientForm(p, m) { ClientFormParses(p, m); }
  }

  // ---- the lists of server messages ----

  /** One room: its id, its name and how many are there. */
  ghost predicate IsEntry(e: Text, s: RoomSummary)
  {
    exists id: Text, users: Text :: IsNumber(id, s.id) && IsNumber(users, s.userCount) && e == id + [','] + (s.name + [','] + users)
  }

  function Closed(t: Text): Text { t + [';'] }

  /** The rooms with semicolons between them, and perhaps one after the last. */
  ghost predicate IsRoomField(t: Text, rooms: seq<RoomSummary>)
  {
    exists entries: seq<Text> ::
      && |entries| == |rooms| && (forall k :: 0 <= k < |rooms| ==> IsEntry(entries[k], rooms[k]))
      && (t == Join(entries, ';') || (entries != [] && t == Closed(Join(entries, ';'))))
  }

  lemma EntryParts(e: Text)
    requires S.ParseEntry(e).Some?
    ensures var first := Find(e, ',');
      && first < |e|
      && var rest := e[first + 1..];
         var second := Find(rest, ',');
         && second < |rest| && e == e[..first] + [','] + (rest[..second] + [','] + rest[second + 1..])
         && var s := S.ParseEntry(e).value;
            && ParseUnsigned(e[..first], MAX_U64) == Some(s.id) && ParseUnsigned(rest[second + 1..], MAX_U64) == Some(s.userCount)
            && s.name == rest[..second]
  {
    hide Find, ParseUnsigned, IsValidRoomName;
  }

  lemma EntryExactly(e: Text, s: RoomSummary)
    ensures S.ParseEntry(e) == Some(s) <==> SummaryWellFormed(s) && IsEntry(e, s)
  {
    hide S.ParseEntry, IsNumber, SummaryWellFormed;
    if S.ParseEntry(e) == Some(s) { EntryRead(e, s); }
    if SummaryWellFormed(s) && IsEntry(e, s) {
      var id: Text, users: Text :| IsNumber(id, s.id) && IsNumber(users, s.userCount) && e == id + [','] + (s.name + [','] + users);
      EntryTaken(id, users, s);
    }
  }

  lemma EntryRead(e: Text, s: RoomSummary)
    requires S.ParseEntry(e) == Some(s)
    ensures SummaryWellFormed(s) && IsEntry(e, s)
  {
    hide Find, ParseUnsigned, IsNumber, S.ParseEntry, SummaryWellFormed;
    S.EntryIsWellFormed(e);
    EntryParts(e);
    var first := Find(e, ',');
    var rest := e[first + 1..];
    var second := Find(rest, ',');
    NumberReadExactly(e[..first], MAX_U64, s.id);
    NumberReadExactly(rest[second + 1..], MAX_U64, s.userCount);
  }

  lemma EntryTaken(id: Text, users: Text, s: RoomSummary)
    requires IsNumber(id, s.id) && IsNumber(users, s.userCount) && SummaryWellFormed(s)
    ensures S.ParseEntry(id + [','] + (s.name + [','] + users)) == Some(s)
  {
    hide Find, ParseUnsigned, IsNumber, IsValidRoomName;
    NumberIsClean(id, s.id);
    S.RoomNameIsClean(s.name);
    NumberReadExactly(id, MAX_U64, s.id);
    NumberReadExactly(users, MAX_U64, s.userCount);
    CutAt(id, ',', s.name + [','] + users);
    CutAt(s.name, ',', users);
  }

  lemma EntryHasNoDelimiter(e: Text, s: RoomSummary)
    requires SummaryWellFormed(s) && IsEntry(e, s)
    ensures ';' !in e && '|' !in e && e != []
  {
    hide IsNumber;
    var id: Text, users: Text :| IsNumber(id, s.id) && IsNumber(users, s.userCount) && e == id + [','] + (s.name + [','] + users);
    NumberIsClean(id, s.id);
    NumberIsClean(users, s.userCount);
    S.RoomNameIsClean(s.name);
  }

  lemma UsersExactly(t: Text, names: seq<Text>)
    ensures S.ParseUsers(t) == Some(names) <==> (forall k :: 0 <= k < |names| ==> IsValidNickname(names[k])) && t == Join(names, ',')
  {
    hide IsValidNickname, Split;
    JoinSplit(t, ',');
    if forall k :: 0 <= k < |names| ==> IsValidNickname(names[k]) { S.UsersRoundTrip(names); }
  }

  lemma {:induction false} RoomsRead(t: Text, rooms: seq<RoomSummary>)
    requires S.ParseRooms(t) == Some(rooms)
    ensures IsRoomField(t, rooms)
  {
    hide Split, IsEntry, S.ParseEntry;
    var pieces, entries := Split(t, ';'), S.EntryTexts(t);
    JoinSplit(t, ';');
    forall k | 0 <= k < |rooms| ensures IsEntry(entries[k], rooms[k]) { EntryExactly(entries[k], rooms[k]); }
    if pieces[|pieces| - 1] == [] {
      assert pieces == entries + [[]];
      if entries != [] {
        JoinAppend(entries, ';', []);
        assert Join(entries, ';') + [';'] + [] == Closed(Join(entries, ';'));
      }
    }
  }

  lemma {:induction false} RoomsTaken(t: Text, rooms: seq<RoomSummary>, entries: seq<Text>)
    requires ServerWellFormed(RoomList(rooms)) && |entries| == |rooms|
    requires forall k :: 0 <= k < |rooms| ==> IsEntry(entries[k], rooms[k])
    requires t == Join(entries, ';') || (entries != [] && t == Closed(Join(entries, ';')))
    ensures S.ParseRooms(t) == Some(rooms) && '|' !in t
  {
    hide Split, IsEntry, S.ParseEntry, SummaryWellFormed, Join;
    forall k | 0 <= k < |rooms|
      ensures ';' !in entries[k] && '|' !in entries[k] && entries[k] != [] && S.ParseEntry(entries[k]) == Some(rooms[k])
    {
      EntryHasNoDelimiter(entries[k], rooms[k]);
      EntryExactly(entries[k], rooms[k]);
    }
    S.JoinIsClean(entries, ';', '|');
    EntriesOf(t, entries);
    S.RoomsParsed(t, rooms);
  }

  lemma {:induction false} EntriesOf(t: Text, entries: seq<Text>)
    requires forall k :: 0 <= k < |entries| ==> ';' !in entries[k] && entries[k] != []
    requires t == Join(entries, ';') || (entries != [] && t == Closed(Join(entries, ';')))
    ensures S.EntryTexts(t) == entries
  {
    hide Split, Join;
    if entries == [] {
      S.JoinOfNone(';');
      S.EntryTextsOfEmpty();
    } else if t == Join(entries, ';') {
      SplitJoin(entries, ';');
    } else {
      JoinAppend(entries, ';', []);
      assert Join(entries, ';') + [';'] + [] == t;
      SplitJoin(entries + [[]], ';');
    }
  }

  // ---- server messages ----

  function ServerWord(m: ServerMessage): Text
  {
    match m
    case Hello(_) => "HELLO"
    case AuthRequired => "AUTH_REQUIRED"
    case AuthAccepted => "AUTH_OK"
    case AuthRejected => "AUTH_FAIL"
    case Challenge(_) => "CHALLENGE"
    case IdentityAccepted(_) => "IDENTITY_OK"
    case JoinAccepted => "JOIN_OK"
    case Banned => "BANNED"
    case NicknameTaken => "NICK_TAKEN"
    case JoinRejected(_) => "JOIN_FAIL"
    case Kick(_, _) => "KICK"
    case UserList(_, _) => "USERS"
    case RoomList(_) => "ROOMS"
    case RoomJoined(_, _, _) => "ROOM"
    case RoomTopic(_, _) => "TOPIC"
    case RoomText(_, _) => "ROOM_TEXT"
    case DirectText(_) => "TEXT"
    case ServerError(_) => "ERROR"
  }

  ghost predicate IsServerForm(p: Text, m: ServerMessage)
  {
    var w := ServerWord(m);
    match m
    case Hello(version) => exists d :: IsNumber(d, version) && p == Bar(w, d)
    case AuthRequired => p == w
    case AuthAccepted => p == w
    case AuthRejected => p == w
    case Challenge(challenge) => p == Bar(w, challenge)
    case IdentityAccepted(fingerprint) => p == Bar(w, fingerprint)
    case JoinAccepted => p == w
    case Banned => p == w
    case NicknameTaken => p == w
    case JoinRejected(reason) => p == Bar(w, reason)
    case Kick(nickname, reason) => p == Bar(w, Bar(nickname, reason)) || (reason == [] && p == Bar(w, nickname))
    case UserList(id, names) => exists d :: IsNumber(d, id) && p == Bar(w, Bar(d, Join(names, ',')))
    case RoomList(rooms) => exists t :: IsRoomField(t, rooms) && p == Bar(w, t)
    case RoomJoined(id, name, topic) => exists d :: IsNumber(d, id) && p == Bar(w, Bar(d, Bar(name, topic)))
    case RoomTopic(id, topic) => exists d :: IsNumber(d, id) && p == Bar(w, Bar(d, topic))
    case RoomText(id, body) => exists d :: IsNumber(d, id) && p == Bar(w, Bar(d, body))
    case DirectText(body) => p == Bar(w, body)
    case ServerError(reason) => p == Bar(w, reason)
  }

  lemma ServerWordIs(m: ServerMessage)
    ensures ServerWord(m) == S.Name(S.CommandOf(m)) && '|' !in ServerWord(m) && ServerWord(m) != []
    ensures S.Named(ServerWord(m)) == Some(S.CommandOf(m))
  {
    S.NamedName(S.CommandOf(m));
  }

  lemma ServerFirst(p: Text, m: ServerMessage)
    requires S.Parse(p) == Ok(m)
    ensures Split(p, '|')[0] == ServerWord(m) && S.ParseBody(S.CommandOf(m), Split(p, '|'), p) == Ok(m)
  {
    hide S.Named, S.Name, Split, RestAfter, IsValidNickname, IsValidText, IsHex, IsValidRoomName, NoControls, ServerWord,
      IsValidRoomTopic, S.ParseUsers, S.ParseRooms, ParseUnsigned;
    S.NameNamed(Split(p, '|')[0]);
    ServerWordIs(m);
  }

  lemma ServerNumberRead(p: Text, m: ServerMessage)
    requires S.ParseBody(S.CommandOf(m), Split(p, '|'), p) == Ok(m)
    ensures m.Hello? ==> |Split(p, '|')| > 1 && IsNumber(Split(p, '|')[1], m.version)
    ensures m.UserList? ==> |Split(p, '|')| > 1 && IsNumber(Split(p, '|')[1], m.roomId)
    ensures m.RoomJoined? ==> |Split(p, '|')| > 1 && IsNumber(Split(p, '|')[1], m.id)
    ensures m.RoomTopic? ==> |Split(p, '|')| > 1 && IsNumber(Split(p, '|')[1], m.roomId)
    ensures m.RoomText? ==> |Split(p, '|')| > 1 && IsNumber(Split(p, '|')[1], m.roomId)
  {
    hide Split, RestAfter, IsValidNickname, IsValidText, IsHex, IsValidRoomName, NoControls, IsValidRoomTopic, S.ParseUsers,
      S.ParseRooms, ParseUnsigned, IsNumber;
    var f := Split(p, '|');
    if |f| > 1 {
      forall n: nat ensures ParseUnsigned(f[1], MAX_U32) == Some(n) ==> IsNumber(f[1], n) { NumberReadExactly(f[1], MAX_U32, n); }
      forall n: nat ensures ParseUnsigned(f[1], MAX_U64) == Some(n) ==> IsNumber(f[1], n) { NumberReadExactly(f[1], MAX_U64, n); }
    }
  }

  lemma ServerListRead(p: Text, m: ServerMessage)
    requires S.ParseBody(S.CommandOf(m), Split(p, '|'), p) == Ok(m)
    ensures m.UserList? ==> |Split(p, '|')| == 3 && Split(p, '|')[2] == Join(m.nicknames, ',')
    ensures m.RoomList? ==> |Split(p, '|')| == 2 && IsRoomField(Split(p, '|')[1], m.rooms)
  {
    hide Split, RestAfter, IsValidNickname, IsValidText, IsHex, IsValidRoomName, NoControls, IsValidRoomTopic, S.ParseUsers,
      S.ParseRooms, ParseUnsigned, IsRoomField, Join;
    var f := Split(p, '|');
    if m.UserList? { UsersExactly(f[2], m.nicknames); }
    if m.RoomList? { RoomsRead(f[1], m.rooms); }
  }

  lemma ServerParsedForm(p: Text, m: ServerMessage)
    requires S.Parse(p) == Ok(m)
    ensures IsServerForm(p, m)
  {
    hide S.Parse, S.Named, S.Name, Split, RestAfter, IsValidNickname, IsValidText, IsHex, IsValidRoomName, NoControls, ServerWord,
      IsValidRoomTopic, Bar, IsNumber, ParseUnsigned, S.ParseUsers, S.ParseRooms, IsRoomField, Join;
    ServerFirst(p, m);
    Pieces(p);
    ServerNumberRead(p, m);
    ServerListRead(p, m);
  }

  // ---- and back ----

  predicate HasNumber(m: ServerMessage) { m.Hello? || m.UserList? || m.RoomJoined? || m.RoomTopic? || m.RoomText? }

  lemma ServerPrints(p: Text, m: ServerMessage)
    requires IsServerForm(p, m) && !HasNumber(m) && !m.RoomList? && (m.Kick? ==> p == Bar(ServerWord(m), Bar(m.nickname, m.reason)))
    ensures p == S.Serialize(m)
  {
    hide ServerWord, S.Name, S.Named;
    ServerWordIs(m);
  }

  /** What follows the number in a message that has one. */
  function AfterNumber(m: ServerMessage): Text
    requires HasNumber(m) && !m.Hello?
  {
    match m
    case UserList(_, names) => Join(names, ',')
    case RoomJoined(_, name, topic) => Bar(name, topic)
    case RoomTopic(_, topic) => topic
    case RoomText(_, body) => body
  }

  function NumberIn(m: ServerMessage): nat
    requires HasNumber(m)
  {
    match m
    case Hello(version) => version
    case UserList(id, _) => id
    case RoomJoined(id, _, _) => id
    case RoomTopic(id, _) => id
    case RoomText(id, _) => id
  }

  lemma ServerNumberTaken(d: Text, m: ServerMessage)
    requires ServerWellFormed(m) && HasNumber(m) && !m.Hello? && IsNumber(d, NumberIn(m))
    ensures S.Parse(Bar(ServerWord(m), Bar(d, AfterNumber(m)))) == Ok(m)
  {
    hide S.Named, S.Name, Split, RestAfter, Bar, ServerWord, ParseUnsigned, IsNumber, IsValidNickname, IsValidText, IsValidRoomName,
      IsValidRoomTopic, S.ParseUsers, Join;
    var w, n, rest := ServerWord(m), NumberIn(m), AfterNumber(m);
    ServerWordIs(m);
    NumberIsClean(d, n);
    NumberReadExactly(d, MAX_U64, n);
    BarParts(w, Bar(d, rest));
    BarParts(d, rest);
    BarBarRest(w, d, rest);
    if m.UserList? {
      S.UsersRoundTrip(m.nicknames);
      SplitWhole(rest, '|');
    } else if m.RoomJoined? {
      S.RoomNameIsClean(m.name);
      BarParts(m.name, m.topic);
      BarBarBarRest(w, d, m.name, m.topic);
    }
  }

  lemma ServerHelloTaken(d: Text, m: ServerMessage)
    requires m.Hello? && m.version == VERSION && IsNumber(d, VERSION)
    ensures S.Parse(Bar(ServerWord(m), d)) == Ok(m)
  {
    hide S.Named, S.Name, Split, RestAfter, Bar, ServerWord, ParseUnsigned, IsNumber;
    ServerWordIs(m);
    NumberIsClean(d, VERSION);
    NumberReadExactly(d, MAX_U32, VERSION);
    BarParts(ServerWord(m), d);
    SplitWhole(d, '|');
  }

  lemma ServerRoomsTaken(t: Text, m: ServerMessage)
    requires m.RoomList? && ServerWellFormed(m) && IsRoomField(t, m.rooms)
    ensures S.Parse(Bar(ServerWord(m), t)) == Ok(m)
  {
    hide S.Named, S.Name, Split, RestAfter, Bar, ServerWord, S.ParseRooms, Join, IsEntry, SummaryWellFormed;
    ServerWordIs(m);
    var entries: seq<Text> :| |entries| == |m.rooms| && (forall k :: 0 <= k < |m.rooms| ==> IsEntry(entries[k], m.rooms[k]))
      && (t == Join(entries, ';') || (entries != [] && t == Closed(Join(entries, ';'))));
    RoomsTaken(t, m.rooms, entries);
    BarParts(ServerWord(m), t);
    SplitWhole(t, '|');
  }

  lemma ServerKickTaken(m: ServerMessage)
    requires m.Kick? && m.reason == [] && IsValidNickname(m.nickname)
    ensures S.Parse(Bar(ServerWord(m), m.nickname)) == Ok(m)
  {
    hide S.Named, S.Name, Split, RestAfter, Bar, ServerWord, IsValidNickname, IsValidText;
    ServerWordIs(m);
    NicknameIsClean(m.nickname);
    BarParts(ServerWord(m), m.nickname);
    SplitWhole(m.nickname, '|');
  }

  lemma ServerFormParses(p: Text, m: ServerMessage)
    requires ServerWellFormed(m) && IsServerForm(p, m)
    ensures S.Parse(p) == Ok(m)
  {
    hide S.Parse, S.Serialize, ServerWord, Bar, IsNumber, IsValidNickname, IsValidText, IsHex, IsValidRoomName, NoControls, IsRoomField,
      Join;
    ServerWordIs(m);
    if m.Hello? {
      var d :| IsNumber(d, m.version) && p == Bar(ServerWord(m), d);
      ServerHelloTaken(d, m);
    } else if HasNumber(m) {
      var d :| IsNumber(d, NumberIn(m)) && p == Bar(ServerWord(m), Bar(d, AfterNumber(m)));
      ServerNumberTaken(d, m);
    } else if m.RoomList? {
      var t :| IsRoomField(t, m.rooms) && p == Bar(ServerWord(m), t);
      ServerRoomsTaken(t, m);
    } else if m.Kick? && m.reason == [] && p == Bar(ServerWord(m), m.nickname) {
      ServerKickTaken(m);
    } else {
      ServerPrints(p, m);
      S.ParseSerialize(m);
    }
  }

  /** And the server messages' parser. */
  lemma ServerParsesExactly(p: Text, m: ServerMessage)
    ensures S.Parse(p) == Ok(m) <==> ServerWellFormed(m) && IsServerForm(p, m)
  {
    hide S.Parse, ServerWellFormed, IsServerForm;
    if S.Parse(p) == Ok(m) {
      ServerParsedForm(p, m);
      S.ParseIsWellFormed(p);
    }
    if ServerWellFormed(m) && IsServerForm(p, m) { ServerFormParses(p, m); }
  }
}
