/** The server, the codec, the write queue and the client together: what the client makes of the
    octets it receives agrees with the server. */
module EndToEnd {
  import opened Octets
  import opened Base64
  import opened Messages
  import opened Frames
  import opened ServerModel
  import opened ServerStructure
  import opened ClientView
  import opened ClientSafety
  import opened CleanFrames
  import S = ServerGrammar
  import A = ServerActions
  import O = Outgoing

  /** The server encodes with the codec, and its host has no nickname or a valid one. */
  ghost predicate UsesCodec(c: Config)
  {
    && (forall m :: c.encodes(m) <==> EncodeServerFrame(m).Ok?)
    && (c.localNickname == [] || IsValidNickname(c.localNickname))
  }

  lemma BarLength(a: Text, b: Text)
    ensures |Bar(a, b)| == |a| + 1 + |b|
  {
  }

  /** Room announcements always have frames. */
  lemma RoomMessagesFit(m: ServerMessage)
    requires ServerWellFormed(m) && (m.RoomJoined? || m.RoomTopic? || m.Hello?)
    ensures EncodeServerFrame(m).Ok?
  {
    hide S.Parse, EncodeServerFrame, ToDecimal, NoControls, S.Name, Bar;
    EncodeOkFits(m);
    S.NamedName(S.CommandOf(m));
    BarLength(S.Name(S.CommandOf(m)), S.FieldsOf(m).value);
    match m
    case Hello(version) => U64DecimalLength(version);
    case RoomJoined(id, name, topic) =>
      U64DecimalLength(id);
      BarLength(ToDecimal(id), Bar(name, topic));
      BarLength(name, topic);
    case RoomTopic(id, topic) =>
      U64DecimalLength(id);
      BarLength(ToDecimal(id), topic);
  }

  lemma NamelessKickHasNoFrame(reason: Text)
    ensures EncodeServerFrame(Kick([], reason)).Err?
  {
    hide EncodeServerFrame;
    if EncodeServerFrame(Kick([], reason)).Ok? { CleanIsWellFormed(Kick([], reason)); }
  }

  lemma CodecIsGood(c: Config)
    requires UsesCodec(c)
    ensures GoodCodec(c)
  {
    hide EncodeServerFrame, IsValidRoomName, IsValidRoomTopic;
    RoomMessagesFit(ServerMessage.Hello(VERSION));
    forall id: nat, name, topic | 1 <= id <= MAX_U64 && IsValidRoomName(name) && IsValidRoomTopic(topic)
      ensures c.encodes(RoomJoined(id, name, topic)) && c.encodes(RoomTopic(id, topic))
    {
      RoomMessagesFit(RoomJoined(id, name, topic));
      RoomMessagesFit(RoomTopic(id, topic));
    }
    forall reason ensures !c.encodes(Kick([], reason)) {
      NamelessKickHasNoFrame(reason);
    }
  }

  // ---- the client's end of the wire ----

  /** The client's read loop over complete lines: a bad frame is skipped, and one of an unsupported
      version ends the reading. */
  function ReadLines(lines: seq<Text>): View
  {
    if lines == [] then BLANK
    else
      var v := ReadLines(lines[..|lines| - 1]);
      match DecodeServerFrame(lines[|lines| - 1])
      case Ok(m) => Consume(v, m)
      case Err(e) => if e == UnsupportedVersion then v.(reading := false) else v
  }

  lemma {:induction false} ReadIsView(lines: seq<Text>, messages: seq<ServerMessage>)
    requires |lines| <= |messages|
    requires forall i :: 0 <= i < |lines| ==> DecodeServerFrame(lines[i]) == Ok(messages[i])
    ensures ReadLines(lines) == ViewOf(messages[..|lines|])
  {
    hide DecodeServerFrame, Consume;
    if lines != [] {
      var n := |lines| - 1;
      ReadIsView(lines[..n], messages);
      assert messages[..|lines|][..n] == messages[..n];
    }
  }

  /** What was discarded once stays discarded. */
  lemma {:induction false} NothingDiscarded(messages: seq<ServerMessage>, n: nat)
    requires n <= |messages| && !ViewOf(messages).discarded
    ensures !ViewOf(messages[..n]).discarded
    decreases |messages|
  {
    if n < |messages| {
      NothingDiscarded(messages[..|messages| - 1], n);
      assert messages[..|messages| - 1][..n] == messages[..n];
    } else {
      assert messages[..n] == messages;
    }
  }

  lemma {:induction false} OutWellFormed(c: Config, out: seq<ServerMessage>)
    requires UsesCodec(c) && AllClean(c, out)
    ensures forall k :: 0 <= k < |out| ==> ServerWellFormed(out[k])
  {
    hide EncodeServerFrame, DecodeServerFrame, ServerWellFormed, A.Clean;
    forall k | 0 <= k < |out| ensures ServerWellFormed(out[k]) {
      CleanIsWellFormed(out[k]);
    }
  }

  /** Session `i`'s client after reading whatever part of the session's octets has arrived: it has
      consumed an initial run of the messages and discarded no room text; and once everything has
      been sent, its room, name and topic are the session's, and it shows exactly who is in the room,
      if the list of them has a frame. */
  lemma {:induction false} ClientAgrees(c: Config, states: seq<Server>, inputs: seq<Input>, n: nat, i: SessionId,
                     events: seq<O.Event>, writers: seq<O.Writer>)
    requires IsRun(c, states, inputs) && Sound(c, states[0]) && states[0].clients == map[] && UsesCodec(c)
    requires n <= |inputs| && i in states[n].clients
    requires O.IsRun(events, writers) && O.ErrorFree(events) && O.Posted(events) == states[n].clients[i].outbox
    ensures var s, bytes := states[n], writers[|events|].sent;
      var x, v := s.clients[i], ReadLines(CutLines(bytes).0);
      && !v.discarded
      && (x.activeRoom != 0 && bytes == Concat(O.Wires(events)) ==>
            && x.activeRoom in s.rooms && RoomAgrees(v, x.activeRoom, s.rooms[x.activeRoom])
            && ShowsOccupants(c, s, i, v))
  {
    hide Sound, ServerModel.Step, ServerModel.Enabled, GoodCodec, EncodeServerFrame, DecodeServerFrame, CutLines, ShowsOccupants,
      Fresh, ViewOf, ReadLines, O.Posted, O.Wires, Concat, AllClean, O.Step, O.Enabled;
    CodecIsGood(c);
    RunInView(c, states, inputs, n);
    var s, out, lines := states[n], states[n].clients[i].outbox, CutLines(writers[|events|].sent).0;
    assert Tuned(c, s, i) && Fresh(c, s, i);
    OutWellFormed(c, out);
    O.ReceiverGetsPosted(events, writers);
    ReadIsView(lines, out);
    BlankDiscardsNothing(out);
    NothingDiscarded(out, |lines|);
    if |lines| == |out| { assert out[..|lines|] == out; }
  }

  lemma {:induction false} BlankDiscardsNothing(out: seq<ServerMessage>)
    ensures out == [] ==> !ViewOf(out).discarded
  {
  }
}
