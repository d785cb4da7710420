/** What Base64 is, bit by bit (section 4 of RFC 4648): the encoder writes the bits of the payload, six
    at a time and most significant first, each as its letter of the alphabet. */
module Sextets {
  import opened Octets
  import opened Base64

  const ALPHABET: Text := ("ABCDEFGHIJKLMNOPQRSTUVWXYZ" + "abcdefghijklmnopqrstuvwxyz") + "0123456789+/"

  /** The value of the bit of weight `2^k` in an octet. */
  function BitOf(b: int, k: nat): int
  {
    match k
    case 0 => b % 2
    case 1 => b / 2 % 2
    case 2 => b / 4 % 2
    case 3 => b / 8 % 2
    case 4 => b / 16 % 2
    case 5 => b / 32 % 2
    case 6 => b / 64 % 2
    case _ => b / 128 % 2
  }

  /** The `n`-th bit of a payload, most significant first, and zero after its end. */
  function Bit(p: Text, n: nat): int { if n / 8 < |p| then BitOf(p[n / 8] as int, 7 - n % 8) else 0 }

  /** The six bits from the `6k`-th on, as a number. */
  function Sextet(p: Text, k: nat): int
  {
    32 * Bit(p, 6 * k) + 16 * Bit(p, 6 * k + 1) + 8 * Bit(p, 6 * k + 2)
    + 4 * Bit(p, 6 * k + 3) + 2 * Bit(p, 6 * k + 4) + Bit(p, 6 * k + 5)
  }

  /** The letter for the six bits from the `6k`-th on; padding where the payload has none of them. */
  function Letter(p: Text, k: nat): Octet
  {
    if 6 * k >= 8 * |p| then '=' else Lookup(Sextet(p, k))
  }

  function Lookup(v: int): Octet { if 0 <= v < |ALPHABET| then ALPHABET[v] else '=' }

  lemma AlphabetIs()
    ensures |ALPHABET| == 64
    ensures forall v :: 0 <= v < 26 ==> ALPHABET[v] == (v + 65) as char
    ensures forall v :: 26 <= v < 52 ==> ALPHABET[v] == (v + 71) as char
    ensures forall v :: 52 <= v < 62 ==> ALPHABET[v] == (v - 4) as char
    ensures ALPHABET[62] == '+' && ALPHABET[63] == '/'
  {
  }

  lemma DigitIs(v: nat)
    requires v < 64
    ensures Digit(v) == Lookup(v)
  {
    AlphabetIs();
    hide ALPHABET;
  }

  lemma BitsOfOctet(b: int)
    requires 0 <= b < 256
    ensures forall k: nat :: k < 8 ==> 0 <= BitOf(b, k) <= 1
    ensures b / 4 == 32 * BitOf(b, 7) + 16 * BitOf(b, 6) + 8 * BitOf(b, 5) + 4 * BitOf(b, 4) + 2 * BitOf(b, 3) + BitOf(b, 2)
    ensures b % 4 == 2 * BitOf(b, 1) + BitOf(b, 0)
    ensures b / 16 == 8 * BitOf(b, 7) + 4 * BitOf(b, 6) + 2 * BitOf(b, 5) + BitOf(b, 4)
    ensures b % 16 == 8 * BitOf(b, 3) + 4 * BitOf(b, 2) + 2 * BitOf(b, 1) + BitOf(b, 0)
    ensures b / 64 == 2 * BitOf(b, 7) + BitOf(b, 6)
    ensures b % 64 == 32 * BitOf(b, 5) + 16 * BitOf(b, 4) + 8 * BitOf(b, 3) + 4 * BitOf(b, 2) + 2 * BitOf(b, 1) + BitOf(b, 0)
  {
    Halves(b);
    MoreHalves(b);
    hide BitOf;
  }

  lemma Halves(b: int)
    requires 0 <= b < 256
    ensures forall k: nat :: k < 8 ==> 0 <= BitOf(b, k) <= 1
    ensures b == 2 * (b / 2) + BitOf(b, 0) && b / 2 == 2 * (b / 4) + BitOf(b, 1)
    ensures b / 4 == 2 * (b / 8) + BitOf(b, 2)
  {
  }

  lemma MoreHalves(b: int)
    requires 0 <= b < 256
    ensures b / 8 == 2 * (b / 16) + BitOf(b, 3)
    ensures b / 16 == 2 * (b / 32) + BitOf(b, 4) && b / 32 == 2 * (b / 64) + BitOf(b, 5)
    ensures b / 64 == 2 * (b / 128) + BitOf(b, 6) && b / 128 == BitOf(b, 7)
  {
  }

  function At(p: Text, n: nat): int { if n < |p| then p[n] as int else 0 }

  lemma BitIs(p: Text, n: nat, q: nat, k: nat)
    requires n == 8 * q + k && k < 8
    ensures Bit(p, n) == BitOf(At(p, q), 7 - k)
  {
  }

  /** The four sextets of the first three octets. */
  lemma FirstSextets(p: Text)
    ensures Sextet(p, 0) == At(p, 0) / 4
    ensures Sextet(p, 1) == At(p, 0) % 4 * 16 + At(p, 1) / 16
    ensures Sextet(p, 2) == At(p, 1) % 16 * 4 + At(p, 2) / 64
    ensures Sextet(p, 3) == At(p, 2) % 64
  {
    BitsOfOctet(At(p, 0));
    BitsOfOctet(At(p, 1));
    BitsOfOctet(At(p, 2));
    FirstBits(p);
    hide Bit, BitOf;
  }

  lemma FirstBits(p: Text)
    ensures forall n: nat :: n < 8 ==> Bit(p, n) == BitOf(At(p, 0), 7 - n)
    ensures forall n: nat :: 8 <= n < 16 ==> Bit(p, n) == BitOf(At(p, 1), 15 - n)
    ensures forall n: nat :: 16 <= n < 24 ==> Bit(p, n) == BitOf(At(p, 2), 23 - n)
  {
    hide BitOf, Bit, At;
    forall n: nat | n < 24 ensures Bit(p, n) == BitOf(At(p, n / 8), 7 - n % 8) { BitIs(p, n, n / 8, n % 8); }
  }

  lemma GroupLetters(p: Text, k: nat)
    requires p != [] && k < 4
    ensures EncodeGroup(UpTo(p, 3))[k] == Letter(p, k)
  {
    hide Digit, Lookup, Sextet;
    var b0, b1, b2 := At(p, 0), At(p, 1), At(p, 2);
    FirstSextets(p);
    DigitIs(b0 / 4);
    DigitIs(b0 % 4 * 16 + b1 / 16);
    DigitIs(b1 % 16 * 4 + b2 / 64);
    DigitIs(b2 % 64);
  }

  lemma LaterBits(p: Text, n: nat)
    requires |p| >= 3
    ensures Bit(p, n + 24) == Bit(p[3..], n)
  {
    hide BitOf;
  }

  lemma LaterLetters(p: Text, k: nat)
    requires |p| >= 3
    ensures Letter(p, k + 4) == Letter(p[3..], k)
  {
    hide Bit, Lookup;
    forall n: nat ensures Bit(p, n + 24) == Bit(p[3..], n) { LaterBits(p, n); }
  }

  /** Every octet of an encoded payload is the letter of its six bits. */
  lemma {:induction false} EncodedBits(p: Text, k: nat)
    requires k < |EncodeBody(p)|
    ensures |EncodeBody(p)| == (|p| + 2) / 3 * 4
    ensures EncodeBody(p)[k] == Letter(p, k)
    decreases |p|
  {
    hide EncodeGroup, Letter;
    BodyRoundTrip(p);
    if k < 4 {
      GroupLetters(p, k);
    } else {
      EncodedBits(From(p, 3), k - 4);
      LaterLetters(p, k - 4);
    }
  }

  /** The frame of a payload is its bits, six at a time, and a line feed. */
  lemma FrameIsBits(payload: Text)
    requires EncodeFrame(payload).Ok?
    ensures var frame, n := EncodeFrame(payload).value, (|payload| + 2) / 3 * 4;
      |frame| == n + 1 && frame[n] == '\n' && forall k :: 0 <= k < n ==> frame[k] == Letter(payload, k)
  {
    hide EncodeBody, Letter;
    BodyRoundTrip(payload);
    forall k | 0 <= k < |EncodeBody(payload)| ensures EncodeBody(payload)[k] == Letter(payload, k) { EncodedBits(payload, k); }
  }
}
