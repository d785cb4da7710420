/** For the messages the server makes, having a frame is being well formed: their names hold no
    separators, and the encoder's own parse checks the rest. */
module CleanFrames {
  import opened Octets
  import opened Base64
  import opened Messages
  import opened ServerGrammar
  import opened Frames
  import A = ServerActions

  lemma NumberParses(n: nat, max: nat)
    ensures ParseUnsigned(ToDecimal(n), max) == if n <= max then Some(n) else None
    ensures '|' !in ToDecimal(n) && ',' !in ToDecimal(n) && ';' !in ToDecimal(n)
  {
    DecimalRoundTrip(n);
    DigitsHaveNoDelimiter(ToDecimal(n), '|');
    DigitsHaveNoDelimiter(ToDecimal(n), ',');
    DigitsHaveNoDelimiter(ToDecimal(n), ';');
  }

  lemma ParsedBody(m: ServerMessage)
    requires Parse(Serialize(m)).Ok? && FieldsOf(m).Some?
    ensures Split(Serialize(m), '|') == [Name(CommandOf(m))] + Split(FieldsOf(m).value, '|')
    ensures ParseBody(CommandOf(m), Split(Serialize(m), '|'), Serialize(m)).Ok?
    ensures RestAfter(Serialize(m), '|', 1) == FieldsOf(m).value
  {
    hide Split, RestAfter, Name, Named, ParseBody, Bar;
    NamedName(CommandOf(m));
    BarParts(Name(CommandOf(m)), FieldsOf(m).value);
  }

  lemma TextWellFormed(m: ServerMessage)
    requires Parse(Serialize(m)).Ok? && (m.JoinRejected? || m.DirectText? || m.ServerError?)
    ensures ServerWellFormed(m)
  {
    hide Split, RestAfter, Name, IsValidText, Serialize, Parse;
    ParsedBody(m);
  }

  lemma OnePiece(t: Text, d: Octet)
    requires |Split(t, d)| == 1
    ensures Split(t, d) == [t]
  {
    hide Split;
    JoinSplit(t, d);
  }

  lemma HexWellFormed(m: ServerMessage)
    requires Parse(Serialize(m)).Ok? && (m.Challenge? || m.IdentityAccepted?)
    ensures ServerWellFormed(m)
  {
    hide Split, RestAfter, Name, IsHex, Serialize, Parse;
    ParsedBody(m);
    OnePiece(FieldsOf(m).value, '|');
  }

  lemma KickNameIsClean(m: ServerMessage)
    requires m.Kick? && A.Clean(m)
    ensures '|' !in m.nickname
  {
    if m.nickname != [] { NicknameIsClean(m.nickname); }
  }

  lemma KickWellFormed(m: ServerMessage)
    requires Parse(Serialize(m)).Ok? && m.Kick? && A.Clean(m)
    ensures ServerWellFormed(m)
  {
    hide Split, RestAfter, Name, Bar, IsValidNickname, IsValidText, Parse, A.Clean;
    ParsedBody(m);
    KickNameIsClean(m);
    NamedName(KickCmd);
    BarParts(m.nickname, m.reason);
    BarBarRest(Name(KickCmd), m.nickname, m.reason);
    KickReason(m.nickname, m.reason);
  }

  lemma KickReason(nick: Text, reason: Text)
    ensures |Split(reason, '|')| >= 1
  {
  }

  lemma IdWellFormed(m: ServerMessage)
    requires Parse(Serialize(m)).Ok? && A.Clean(m) && (m.UserList? || m.RoomTopic? || m.RoomText?)
    ensures ServerWellFormed(m)
  {
    hide Split, RestAfter, Name, Bar, IsValidNickname, IsValidText, NoControls, Parse, ParseUnsigned, ToDecimal,
      ParseUsers, Join;
    ParsedBody(m);
    NamedName(CommandOf(m));
    var id := ToDecimal(m.roomId);
    var rest := if m.UserList? then Join(m.nicknames, ',') else if m.RoomTopic? then m.topic else m.body;
    NumberParses(m.roomId, MAX_U64);
    BarParts(id, rest);
    BarBarRest(Name(CommandOf(m)), id, rest);
  }

  lemma JoinedWellFormed(m: ServerMessage)
    requires Parse(Serialize(m)).Ok? && A.Clean(m) && m.RoomJoined?
    ensures ServerWellFormed(m)
  {
    hide Split, RestAfter, Name, Bar, NoControls, Parse, ParseUnsigned, ToDecimal, IsValidRoomName;
    ParsedBody(m);
    NamedName(RoomCmd);
    var id := ToDecimal(m.id);
    NumberParses(m.id, MAX_U64);
    RoomNameIsClean(m.name);
    BarParts(id, Bar(m.name, m.topic));
    BarParts(m.name, m.topic);
    BarBarBarRest(Name(RoomCmd), id, m.name, m.topic);
  }

  lemma EntryOk(s: RoomSummary)
    requires IsValidRoomName(s.name)
    ensures '|' !in PrintEntry(s) && ';' !in PrintEntry(s) && PrintEntry(s) != []
    ensures ParseEntry(PrintEntry(s)).Some? ==> SummaryWellFormed(s)
  {
    hide ToDecimal, ParseUnsigned, Find, IsValidRoomName;
    NumberParses(s.id, MAX_U64);
    NumberParses(s.userCount, MAX_U64);
    RoomNameIsClean(s.name);
    CutAt(ToDecimal(s.id), ',', s.name + [','] + ToDecimal(s.userCount));
    CutAt(s.name, ',', ToDecimal(s.userCount));
  }

  lemma {:induction false} EntriesWellFormed(rooms: seq<RoomSummary>)
    requires forall i :: 0 <= i < |rooms| ==> IsValidRoomName(rooms[i].name)
    requires rooms != [] && ParseRooms(Join(PrintEntries(rooms), ';')).Some?
    ensures forall i :: 0 <= i < |rooms| ==> SummaryWellFormed(rooms[i])
    ensures '|' !in Join(PrintEntries(rooms), ';')
  {
    hide PrintEntry, ParseEntry, SummaryWellFormed, Split, Join, IsValidRoomName;
    var entries := PrintEntries(rooms);
    forall i | 0 <= i < |rooms|
      ensures '|' !in entries[i] && ';' !in entries[i] && entries[i] != []
      ensures ParseEntry(entries[i]).Some? ==> SummaryWellFormed(rooms[i])
    {
      EntryOk(rooms[i]);
    }
    JoinIsClean(entries, ';', '|');
    SplitJoin(entries, ';');
    assert EntryTexts(Join(entries, ';')) == entries;
  }

  lemma RoomsField(m: ServerMessage)
    requires Parse(Serialize(m)).Ok? && m.RoomList?
    ensures ParseRooms(FieldsOf(m).value).Some?
  {
    hide Split, RestAfter, Name, Serialize, Parse, ParseRooms, Join, PrintEntries;
    ParsedBody(m);
    OnePiece(FieldsOf(m).value, '|');
  }

  lemma RoomsWellFormed(m: ServerMessage)
    requires Parse(Serialize(m)).Ok? && A.Clean(m) && m.RoomList?
    ensures ServerWellFormed(m)
  {
    hide Parse, Serialize, ParseRooms, Join, PrintEntries, IsValidRoomName, SummaryWellFormed;
    RoomsField(m);
    if m.rooms != [] { EntriesWellFormed(m.rooms); }
  }

  /** A message with clean names that has a frame is well formed, so the frame decodes to it. */
  lemma CleanIsWellFormed(m: ServerMessage)
    requires A.Clean(m) && EncodeServerFrame(m).Ok?
    ensures ServerWellFormed(m) && DecodeServerFrame(EncodeServerFrame(m).value) == Ok(m)
  {
    assert Parse(Serialize(m)).Ok?;
    hide Parse, Serialize, EncodeServerFrame, DecodeServerFrame;
    match m {
      case JoinRejected(_) => TextWellFormed(m);
      case DirectText(_) => TextWellFormed(m);
      case ServerError(_) => TextWellFormed(m);
      case Challenge(_) => HexWellFormed(m);
      case IdentityAccepted(_) => HexWellFormed(m);
      case Kick(_, _) => KickWellFormed(m);
      case UserList(_, _) => IdWellFormed(m);
      case RoomTopic(_, _) => IdWellFormed(m);
      case RoomText(_, _) => IdWellFormed(m);
      case RoomJoined(_, _, _) => JoinedWellFormed(m);
      case RoomList(_) => RoomsWellFormed(m);
      case _ =>
    }
    hide ServerWellFormed;
    EncodeOkFits(m);
    ServerFrameRoundTrip(m);
  }
}
