/** The four frame wrappers, and streams of frames cut at line feeds. */
module Frames {
  import opened Octets
  import opened Base64
  import opened Messages
  import C = ClientGrammar
  import S = ServerGrammar

  function EncodeClientFrame(m: ClientMessage): Result<Text>
  {
    var payload := C.Serialize(m);
    match C.Parse(payload)
    case Err(e) => Err(e)
    case Ok(_) => EncodeFrame(payload)
  }

  function EncodeServerFrame(m: ServerMessage): Result<Text>
  {
    var payload := S.Serialize(m);
    match S.Parse(payload)
    case Err(e) => Err(e)
    case Ok(_) => EncodeFrame(payload)
  }

  function DecodeClientFrame(frame: Text): Result<ClientMessage>
  {
    match DecodeFrame(frame)
    case Err(e) => Err(e)
    case Ok(payload) => C.Parse(payload)
  }

  function DecodeServerFrame(frame: Text): Result<ServerMessage>
  {
    match DecodeFrame(frame)
    case Err(e) => Err(e)
    case Ok(payload) => S.Parse(payload)
  }

  /** A client message survives its frame exactly when it is well formed. */
  lemma ClientFrameRoundTrip(m: ClientMessage)
    ensures EncodeClientFrame(m).Ok? && DecodeClientFrame(EncodeClientFrame(m).value) == Ok(m)
            <==> ClientWellFormed(m)
  {
    hide C.Parse, C.Serialize, EncodeFrame, DecodeFrame, ClientWellFormed;
    FrameRoundTrip(C.Serialize(m));
    C.RoundTripExactly(m);
    if ClientWellFormed(m) { C.SerializeLength(m); }
  }

  /** A server message survives its frame exactly when it is well formed and its payload fits. */
  lemma ServerFrameRoundTrip(m: ServerMessage)
    ensures EncodeServerFrame(m).Ok? && DecodeServerFrame(EncodeServerFrame(m).value) == Ok(m)
            <==> ServerWellFormed(m) && |S.Serialize(m)| <= MAX_PAYLOAD_LENGTH
  {
    hide S.Parse, S.Serialize, EncodeFrame, DecodeFrame, ServerWellFormed;
    FrameRoundTrip(S.Serialize(m));
    S.RoundTripExactly(m);
    if ServerWellFormed(m) { assert S.Parse([]).Err? by { S.ParseOfEmpty(); } }
  }

  lemma EncodeOkFits(m: ServerMessage)
    ensures EncodeServerFrame(m).Ok? ==> |S.Serialize(m)| <= MAX_PAYLOAD_LENGTH
    ensures ServerWellFormed(m) && |S.Serialize(m)| <= MAX_PAYLOAD_LENGTH ==> EncodeServerFrame(m).Ok?
  {
    hide S.Parse, S.Serialize, DecodeFrame, ServerWellFormed, FrameOf;
    ServerFrameRoundTrip(m);
  }

  /** Encoding checks only that the printed payload parses, not that it parses back: a whisper to
      a target with a bar in it is sent and arrives as a different whisper. */
  lemma EncodableIsNotEnough()
    ensures var m := Whisper("a|b", "c");
            && !ClientWellFormed(m)
            && EncodeClientFrame(m).Ok?
            && DecodeClientFrame(EncodeClientFrame(m).value) == Ok(Whisper("a", "b|c"))
  {
    var sent, read := Whisper("a|b", "c"), Whisper("a", "b|c");
    assert C.Serialize(sent) == C.Serialize(read) == "WHISPER|a|b|c";
    assert "a|b"[1] == '|';
    hide C.Parse, C.Serialize, EncodeFrame, DecodeFrame;
    C.ParseSerialize(read);
    ClientFrameRoundTrip(read);
  }

  // ---- what was read can be sent again ----

  lemma ClientReencodes(frame: Text)
    requires DecodeClientFrame(frame).Ok?
    ensures var m := DecodeClientFrame(frame).value;
            EncodeClientFrame(m).Ok? && DecodeClientFrame(EncodeClientFrame(m).value) == Ok(m)
  {
    hide C.Parse, DecodeFrame, ClientWellFormed, EncodeFrame, C.Serialize;
    C.ParseIsWellFormed(DecodeFrame(frame).value);
    ClientFrameRoundTrip(DecodeClientFrame(frame).value);
  }

  lemma ServerReencodes(frame: Text)
    requires DecodeServerFrame(frame).Ok?
    ensures var m := DecodeServerFrame(frame).value;
            EncodeServerFrame(m).Ok? && DecodeServerFrame(EncodeServerFrame(m).value) == Ok(m)
  {
    hide S.Parse, DecodeFrame, ServerWellFormed, EncodeFrame, S.Serialize;
    var payload := DecodeFrame(frame).value;
    FrameCanonical(frame);
    S.ParseIsWellFormed(payload);
    S.ReprintIsNoLonger(payload);
    ServerFrameRoundTrip(DecodeServerFrame(frame).value);
  }

  // ---- a stream of frames ----

  function Concat(frames: seq<Text>): Text
  {
    if frames == [] then [] else frames[0] + Concat(frames[1..])
  }

  /** The complete lines of a byte stream, each with its line feed, and the unfinished rest:
      what repeated `async_read_until` hands to the read loop. */
  function CutLines(bytes: Text): (r: (seq<Text>, Text))
    decreases |bytes|
  {
    var k := Find(bytes, '\n');
    if k == |bytes| then ([], bytes)
    else
      var (lines, rest) := CutLines(bytes[k + 1..]);
      ([bytes[..k + 1]] + lines, rest)
  }

  predicate IsFrame(frame: Text)
  {
    |frame| > 0 && frame[|frame| - 1] == '\n' && '\n' !in frame[..|frame| - 1]
  }

  lemma EncodedIsFrame(m: ServerMessage)
    requires EncodeServerFrame(m).Ok?
    ensures IsFrame(EncodeServerFrame(m).value) && |EncodeServerFrame(m).value| <= MAX_FRAME_LENGTH
  {
    hide S.Parse, S.Serialize;
    var payload := S.Serialize(m);
    FrameRoundTrip(payload);
    BodyHasNoLineEnd(payload);
    var frame := FrameOf(payload);
    assert frame[..|frame| - 1] == EncodeBody(payload);
  }

  lemma CutFrame(f: Text, more: Text)
    requires IsFrame(f)
    ensures CutLines(f + more) == ([f] + CutLines(more).0, CutLines(more).1)
  {
    var bytes := f + more;
    FindUnique(bytes, '\n', |f| - 1) by { assert bytes[..|f| - 1] == f[..|f| - 1]; }
    assert bytes[..|f|] == f && bytes[|f|..] == more;
  }

  lemma CutPartial(f: Text, bytes: Text)
    requires IsFrame(f) && bytes < f
    ensures CutLines(bytes) == ([], bytes)
  {
    forall j | 0 <= j < |bytes| ensures bytes[j] != '\n' {
      assert bytes[j] == f[..|f| - 1][j];
    }
    FindUnique(bytes, '\n', |bytes|) by { assert bytes[..|bytes|] == bytes; }
  }

  /** However much of a stream of frames has arrived, cutting it at line feeds gives an initial
      run of exactly the frames sent, and the rest is the beginning of the next one. */
  lemma {:induction false} CutLinesOfPrefix(frames: seq<Text>, bytes: Text)
    requires forall i :: 0 <= i < |frames| ==> IsFrame(frames[i])
    requires bytes <= Concat(frames)
    ensures var (lines, rest) := CutLines(bytes);
            && lines <= frames
            && bytes == Concat(lines) + rest
            && (if |lines| < |frames| then rest < frames[|lines|] else rest == [])
  {
    hide CutLines, IsFrame;
    if frames == [] {
      CutNothing();
    } else {
      var f := frames[0];
      var all := Concat(frames);
      if |bytes| < |f| {
        assert bytes == all[..|bytes|] == f[..|bytes|];
        CutPartial(f, bytes);
      } else {
        var more := bytes[|f|..];
        assert f == all[..|f|] && bytes == f + more;
        assert Concat(frames[1..]) == all[|f|..];
        assert more == all[..|bytes|][|f|..] == all[|f|..][..|more|];
        CutLinesOfPrefix(frames[1..], more);
        CutFrame(f, more);
        ConcatCons(f, CutLines(more).0);
        assert frames == [f] + frames[1..];
      }
    }
  }

  lemma CutNothing()
    ensures CutLines([]) == ([], [])
  {
  }

  lemma {:induction false} ConcatCons(f: Text, frames: seq<Text>)
    ensures Concat([f] + frames) == f + Concat(frames)
  {
    assert ([f] + frames)[1..] == frames;
  }

  lemma {:induction false} CutLinesOfAll(frames: seq<Text>)
    requires forall i :: 0 <= i < |frames| ==> IsFrame(frames[i])
    ensures CutLines(Concat(frames)) == (frames, [])
  {
    hide CutLines, IsFrame;
    if frames == [] {
      CutNothing();
    } else {
      CutLinesOfAll(frames[1..]);
      CutFrame(frames[0], Concat(frames[1..]));
      assert frames == [frames[0]] + frames[1..];
    }
  }

  lemma {:induction false} PrefixConcat(frames: seq<Text>, n: nat)
    requires n <= |frames|
    ensures Concat(frames) == Concat(frames[..n]) + Concat(frames[n..])
  {
    if n > 0 {
      PrefixConcat(frames[1..], n - 1);
      assert frames[..n][1..] == frames[1..][..n - 1] && frames[1..][n - 1..] == frames[n..];
    } else {
      assert frames[0..] == frames;
    }
  }
}
