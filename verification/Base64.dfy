/** Strict Base64 line framing: sections 3.5 and 4 of RFC 4648, one frame per line. */
module Base64 {
  import opened Octets

  /** `protocol::Error`; the human-readable detail strings are not modelled. */
  datatype Error =
    | EmptyFrame | FrameTooLarge | InvalidBase64 | EmptyPayload
    | UnknownMessage | WrongFieldCount | InvalidField | UnsupportedVersion

  datatype Result<+T> = Ok(value: T) | Err(error: Error)

  const MAX_FRAME_LENGTH: nat := 4096
  const MAX_PAYLOAD_LENGTH: nat := (MAX_FRAME_LENGTH - 1) / 4 * 3

  // ---- the alphabet ----

  function Digit(v: nat): (c: Octet)
    requires v < 64
  {
    if v < 26 then (v + 65) as char
    else if v < 52 then (v + 71) as char
    else if v < 62 then (v - 4) as char
    else if v == 62 then '+' else '/'
  }

  /** `base64_value`: the six bits of a digit, or -1. */
  function Value(c: Octet): (v: int)
    ensures -1 <= v < 64
  {
    if 'A' <= c <= 'Z' then c as int - 65
    else if 'a' <= c <= 'z' then c as int - 71
    else if '0' <= c <= '9' then c as int + 4
    else if c == '+' then 62
    else if c == '/' then 63
    else -1
  }

  lemma DigitValue(v: nat)
    requires v < 64
    ensures Value(Digit(v)) == v && Digit(v) != '=' && Digit(v) != '\n' && Digit(v) != '\r'
  {
  }

  lemma ValueDigit(c: Octet)
    ensures Value(c) >= 0 ==> Digit(Value(c)) == c && c != '='
  {
  }

  // ---- one group: up to three octets, four characters ----

  function EncodeGroup(g: Text): (out: Text)
    requires 1 <= |g| <= 3
    ensures |out| == 4
  {
    var b0 := g[0] as int;
    var b1 := if |g| > 1 then g[1] as int else 0;
    var b2 := if |g| > 2 then g[2] as int else 0;
    [Digit(b0 / 4), Digit(b0 % 4 * 16 + b1 / 16),
     if |g| > 1 then Digit(b1 % 16 * 4 + b2 / 64) else '=',
     if |g| > 2 then Digit(b2 % 64) else '=']
  }

  /** Valid digits, padding only as `==` or `=` at the end of the last group, and the unused
      bits before the padding all zero. */
  predicate GroupOk(g: Text, last: bool)
    requires |g| == 4
  {
    && Value(g[0]) >= 0
    && Value(g[1]) >= 0
    && (if g[2] == '=' then last && g[3] == '=' && Value(g[1]) % 16 == 0
        else
          && Value(g[2]) >= 0
          && (if g[3] == '=' then last && Value(g[2]) % 4 == 0 else Value(g[3]) >= 0))
  }

  function DecodeGroup(g: Text): (out: Text)
    requires |g| == 4 && GroupOk(g, true)
    ensures 1 <= |out| <= 3
    ensures |out| < 3 <==> g[3] == '='
  {
    var first := (Value(g[0]) * 4 + Value(g[1]) / 16) as char;
    if g[2] == '=' then [first]
    else
      var second := (Value(g[1]) % 16 * 16 + Value(g[2]) / 4) as char;
      if g[3] == '=' then [first, second]
      else [first, second, (Value(g[2]) % 4 * 64 + Value(g[3])) as char]
  }

  /** The four sextets of three octets carry all their bits, and only theirs. */
  lemma SextetsOfOctets(b0: nat, b1: nat, b2: nat)
    requires b0 < 256 && b1 < 256 && b2 < 256
    ensures b0 / 4 < 64 && b0 % 4 * 16 + b1 / 16 < 64 && b1 % 16 * 4 + b2 / 64 < 64
    ensures b0 / 4 * 4 + (b0 % 4 * 16 + b1 / 16) / 16 == b0
    ensures (b0 % 4 * 16 + b1 / 16) % 16 * 16 + (b1 % 16 * 4 + b2 / 64) / 4 == b1
    ensures (b1 % 16 * 4 + b2 / 64) % 4 * 64 + b2 % 64 == b2
    ensures b1 == 0 ==> (b0 % 4 * 16 + b1 / 16) % 16 == 0
    ensures b2 == 0 ==> (b1 % 16 * 4 + b2 / 64) % 4 == 0
  {
  }

  /** The three octets of four sextets, taken apart again. */
  lemma OctetsOfSextets(v0: nat, v1: nat, v2: nat, v3: nat)
    requires v0 < 64 && v1 < 64 && v2 < 64 && v3 < 64
    ensures var b0, b1, b2 := v0 * 4 + v1 / 16, v1 % 16 * 16 + v2 / 4, v2 % 4 * 64 + v3;
            && b0 < 256 && b1 < 256 && b2 < 256
            && b0 / 4 == v0
            && b0 % 4 * 16 + b1 / 16 == v1
            && b1 % 16 * 4 + b2 / 64 == v2
            && b2 % 64 == v3
  {
  }

  lemma GroupRoundTrip(g: Text, last: bool)
    requires 1 <= |g| <= 3 && (|g| == 3 || last)
    ensures GroupOk(EncodeGroup(g), last) && DecodeGroup(EncodeGroup(g)) == g
  {
    hide Digit, Value;
    var b0 := g[0] as int;
    var b1 := if |g| > 1 then g[1] as int else 0;
    var b2 := if |g| > 2 then g[2] as int else 0;
    SextetsOfOctets(b0, b1, b2);
    DigitValue(b0 / 4);
    DigitValue(b0 % 4 * 16 + b1 / 16);
    DigitValue(b1 % 16 * 4 + b2 / 64);
    DigitValue(b2 % 64);
  }

  lemma GroupCanonical(g: Text)
    requires |g| == 4 && GroupOk(g, true)
    ensures EncodeGroup(DecodeGroup(g)) == g
  {
    hide Digit, Value;
    ValueDigit(g[0]);
    ValueDigit(g[1]);
    ValueDigit(g[2]);
    ValueDigit(g[3]);
    OctetsOfSextets(Value(g[0]), Value(g[1]),
      if g[2] == '=' then 0 else Value(g[2]), if g[3] == '=' then 0 else Value(g[3]));
  }

  // ---- whole payloads ----

  function UpTo(p: Text, n: nat): Text { if |p| <= n then p else p[..n] }

  function From(p: Text, n: nat): Text { if |p| <= n then [] else p[n..] }

  function EncodeBody(payload: Text): Text
    decreases |payload|
  {
    if payload == [] then [] else EncodeGroup(UpTo(payload, 3)) + EncodeBody(From(payload, 3))
  }

  predicate BodyOk(frame: Text)
  {
    if frame == [] then true
    else
      && |frame| >= 4
      && GroupOk(frame[..4], |frame| == 4)
      && BodyOk(frame[4..])
  }

  function DecodeBody(frame: Text): Text
    requires BodyOk(frame)
  {
    if frame == [] then [] else DecodeGroup(frame[..4]) + DecodeBody(frame[4..])
  }

  lemma {:induction false} BodyRoundTrip(p: Text)
    ensures BodyOk(EncodeBody(p)) && DecodeBody(EncodeBody(p)) == p
    ensures |EncodeBody(p)| == (|p| + 2) / 3 * 4
    decreases |p|
  {
    hide EncodeGroup, DecodeGroup, GroupOk;
    if p != [] {
      BodyRoundTrip(From(p, 3));
      GroupRoundTrip(UpTo(p, 3), |p| <= 3);
      var e := EncodeBody(p);
      assert e[..4] == EncodeGroup(UpTo(p, 3)) && e[4..] == EncodeBody(From(p, 3));
      assert p == UpTo(p, 3) + From(p, 3);
    }
  }

  lemma {:induction false} BodyCanonical(f: Text)
    requires BodyOk(f)
    ensures EncodeBody(DecodeBody(f)) == f
    ensures |f| % 4 == 0 && (f != [] ==> DecodeBody(f) != [])
    ensures |DecodeBody(f)| <= |f| / 4 * 3
  {
    hide EncodeGroup, DecodeGroup;
    if f != [] {
      BodyCanonical(f[4..]);
      GroupCanonical(f[..4]);
      var g := DecodeGroup(f[..4]);
      var p := DecodeBody(f);
      assert f == f[..4] + f[4..];
      if |f| == 4 {
        assert f[4..] == [] && p == g;
      } else {
        assert |g| == 3;
        assert p[..3] == g && p[3..] == DecodeBody(f[4..]);
      }
    }
  }

  // ---- frames ----

  /** What a successful encoding of `payload` looks like on the wire. */
  function FrameOf(payload: Text): Text { EncodeBody(payload) + ['\n'] }

  /** The line without its optional line feed and, before it, its optional carriage return. */
  function Stripped(frame: Text): Text
  {
    var f := if frame != [] && frame[|frame| - 1] == '\n' then frame[..|frame| - 1] else frame;
    if f != [] && f[|f| - 1] == '\r' then f[..|f| - 1] else f
  }

  function EncodeFrame(payload: Text): (r: Result<Text>)
  {
    if payload == [] then Err(EmptyPayload)
    else if |payload| > MAX_PAYLOAD_LENGTH then Err(FrameTooLarge)
    else Ok(FrameOf(payload))
  }

  function DecodeFrame(frame: Text): (r: Result<Text>)
  {
    var f := Stripped(frame);
    if f == [] then Err(EmptyFrame)
    else if |f| + 1 > MAX_FRAME_LENGTH then Err(FrameTooLarge)
    else if |f| % 4 != 0 || !BodyOk(f) then Err(InvalidBase64)
    else Ok(DecodeBody(f))
  }

  /** `encode_frame`: the loop over groups of three octets, and the size check after it, which
      the earlier check on the payload leaves nothing to catch. */
  method EncodeFrameLoop(payload: Text) returns (r: Result<Text>)
    ensures r == EncodeFrame(payload)
  {
    hide EncodeGroup;
    if payload == [] { return Err(EmptyPayload); }
    if |payload| > MAX_PAYLOAD_LENGTH { return Err(FrameTooLarge); }
    var output: Text := [];
    var i := 0;
    while i < |payload|
      invariant 0 <= i
      invariant output + EncodeBody(From(payload, i)) == EncodeBody(payload)
    {
      var rest := payload[i..];
      assert From(payload, i) == rest && From(rest, 3) == From(payload, i + 3);
      output := output + EncodeGroup(UpTo(rest, 3));
      i := i + 3;
    }
    BodyRoundTrip(payload);
    assert output == EncodeBody(payload);
    output := output + ['\n'];
    if |output| > MAX_FRAME_LENGTH { assert false; }
    return Ok(output);
  }

  lemma BodyStep(f: Text, i: nat)
    requires i + 4 <= |f|
    ensures var g := f[i..i + 4];
            && (BodyOk(f[i..]) <==> GroupOk(g, i + 4 == |f|) && BodyOk(f[i + 4..]))
            && (GroupOk(g, i + 4 == |f|) ==> GroupOk(g, true))
            && (BodyOk(f[i..]) ==> DecodeBody(f[i..]) == DecodeGroup(g) + DecodeBody(f[i + 4..]))
  {
    hide Value, DecodeGroup;
    assert f[i..][..4] == f[i..i + 4] && f[i..][4..] == f[i + 4..];
  }

  /** `decode_frame`: the loop over groups of four characters. */
  method DecodeFrameLoop(frame: Text) returns (r: Result<Text>)
    ensures r == DecodeFrame(frame)
  {
    hide GroupOk, DecodeGroup, BodyOk, DecodeBody;
    var f := frame;
    if f != [] && f[|f| - 1] == '\n' { f := f[..|f| - 1]; }
    if f != [] && f[|f| - 1] == '\r' { f := f[..|f| - 1]; }
    assert f == Stripped(frame);
    if f == [] { return Err(EmptyFrame); }
    if |f| + 1 > MAX_FRAME_LENGTH { return Err(FrameTooLarge); }
    if |f| % 4 != 0 { return Err(InvalidBase64); }
    var output: Text := [];
    var i := 0;
    assert f[0..] == f;
    while i < |f|
      invariant 0 <= i <= |f| && i % 4 == 0
      invariant BodyOk(f[i..]) <==> BodyOk(f)
      invariant BodyOk(f) ==> output + DecodeBody(f[i..]) == DecodeBody(f)
      invariant i > 0 ==> output != []
    {
      BodyStep(f, i);
      var group := f[i..i + 4];
      if !GroupOk(group, i + 4 == |f|) { return Err(InvalidBase64); }
      output := output + DecodeGroup(group);
      i := i + 4;
    }
    assert f[i..] == [];
    BodyEmpty();
    if output == [] { assert false; }
    assert output == output + [];
    return Ok(output);
  }

  lemma BodyEmpty()
    ensures BodyOk([]) && DecodeBody([]) == []
  {
  }

  /** Encoding succeeds exactly for payloads of 1 to 3069 octets, and what it produces decodes
      to the payload, fits the frame limit, and ends with its only line feed. */
  lemma FrameRoundTrip(payload: Text)
    ensures EncodeFrame(payload).Ok? <==> 1 <= |payload| <= 3069
    ensures EncodeFrame(payload).Ok? ==>
              var frame := EncodeFrame(payload).value;
              && |frame| == (|payload| + 2) / 3 * 4 + 1 <= MAX_FRAME_LENGTH
              && DecodeFrame(frame) == Ok(payload)
  {
    hide EncodeGroup, DecodeGroup, GroupOk;
    BodyRoundTrip(payload);
    if EncodeFrame(payload).Ok? {
      var body := EncodeBody(payload);
      var frame := FrameOf(payload);
      assert frame[..|frame| - 1] == body;
      BodyHasNoLineEnd(payload);
    }
  }

  lemma {:induction false} BodyHasNoLineEnd(p: Text)
    ensures '\n' !in EncodeBody(p) && '\r' !in EncodeBody(p)
    decreases |p|
  {
    hide Digit;
    if p != [] {
      var g := UpTo(p, 3);
      var b0 := g[0] as int;
      var b1 := if |g| > 1 then g[1] as int else 0;
      var b2 := if |g| > 2 then g[2] as int else 0;
      DigitValue(b0 / 4);
      DigitValue(b0 % 4 * 16 + b1 / 16);
      DigitValue(b1 % 16 * 4 + b2 / 64);
      DigitValue(b2 % 64);
      BodyHasNoLineEnd(From(p, 3));
    }
  }

  /** Decoding accepts nothing but canonical encodings: re-encoding what a line decoded to gives
      the stripped line back with a line feed. */
  lemma FrameCanonical(frame: Text)
    requires DecodeFrame(frame).Ok?
    ensures EncodeFrame(DecodeFrame(frame).value) == Ok(Stripped(frame) + ['\n'])
    ensures 1 <= |DecodeFrame(frame).value| <= 3069
  {
    hide EncodeBody, DecodeBody, BodyOk;
    BodyCanonical(Stripped(frame));
  }

  /** No two lines that differ after stripping decode alike. */
  lemma DecodeInjective(a: Text, b: Text)
    requires DecodeFrame(a).Ok? && DecodeFrame(a) == DecodeFrame(b)
    ensures Stripped(a) == Stripped(b)
  {
    FrameCanonical(a);
    FrameCanonical(b);
    var x := Stripped(a) + ['\n'];
    var y := Stripped(b) + ['\n'];
    assert x[..|x| - 1] == Stripped(a) && y[..|y| - 1] == Stripped(b);
  }
}
