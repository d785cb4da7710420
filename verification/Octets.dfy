/** Byte strings (`std::string` and `std::string_view`), the `<cctype>` classes of the C
    locale, splitting at a delimiter, and decimal numbers as `std::to_string` writes them and
    `std::from_chars` reads them. */
module Octets {

  /** One `char` of the source: an eight-bit code unit, not a Unicode character. */
  type Octet = c: char | c as int < 256 witness 'a'

  type Text = seq<Octet>

  datatype Option<+T> = None | Some(value: T)

  // ---- <cctype>, C locale ----

  predicate IsControl(c: Octet) { c as int < 32 || c as int == 127 }

  predicate IsSpace(c: Octet) { c == ' ' || 9 <= c as int <= 13 }

  predicate IsDigit(c: Octet) { '0' <= c <= '9' }

  predicate IsAlnum(c: Octet) { IsDigit(c) || 'a' <= c <= 'z' || 'A' <= c <= 'Z' }

  predicate IsHexDigit(c: Octet) { IsDigit(c) || 'a' <= c <= 'f' || 'A' <= c <= 'F' }

  function ToLower(c: Octet): Octet { if 'A' <= c <= 'Z' then (c as int + 32) as char else c }

  function ToUpper(c: Octet): Octet { if 'a' <= c <= 'z' then (c as int - 32) as char else c }

  // ---- find, split, join ----

  /** `find(d)`, with the length of `p` standing for `npos`. */
  function Find(p: Text, d: Octet): (k: nat)
    ensures k <= |p|
    ensures k < |p| ==> p[k] == d
    ensures forall j :: 0 <= j < k ==> p[j] != d
  {
    if p == [] || p[0] == d then 0 else 1 + Find(p[1..], d)
  }

  /** The pieces of `p` between delimiters; there is always at least one piece. */
  function Split(p: Text, d: Octet): (fields: seq<Text>)
    ensures |fields| >= 1
  {
    var k := Find(p, d);
    if k == |p| then [p] else [p[..k]] + Split(p[k + 1..], d)
  }

  function Join(fields: seq<Text>, d: Octet): Text
  {
    if fields == [] then []
    else if |fields| == 1 then fields[0]
    else fields[0] + [d] + Join(fields[1..], d)
  }

  /** What follows the `n`-th delimiter, or nothing when there are fewer. */
  function RestAfter(p: Text, d: Octet, n: nat): Text
  {
    if n == 0 then p
    else
      var k := Find(p, d);
      if k == |p| then [] else RestAfter(p[k + 1..], d, n - 1)
  }

  lemma FindUnique(p: Text, d: Octet, k: nat)
    requires k <= |p| && d !in p[..k] && (k < |p| ==> p[k] == d)
    ensures Find(p, d) == k
  {
    assert forall j :: 0 <= j < k ==> p[j] == p[..k][j];
  }

  lemma CutAt(head: Text, d: Octet, rest: Text)
    requires d !in head
    ensures var p := head + [d] + rest;
            Find(p, d) == |head| < |p| && p[..|head|] == head && p[|head| + 1..] == rest
  {
    var p := head + [d] + rest;
    FindUnique(p, d, |head|) by { assert p[..|head|] == head; }
  }

  lemma SplitCons(head: Text, d: Octet, rest: Text)
    requires d !in head
    ensures Split(head + [d] + rest, d) == [head] + Split(rest, d)
  {
    CutAt(head, d, rest);
  }

  lemma SplitStep(p: Text, d: Octet)
    ensures var k := Find(p, d);
            Split(p, d) == [p[..k]] + (if k == |p| then [] else Split(p[k + 1..], d))
  {
    hide Find;
    var k := Find(p, d);
    if k == |p| {
      assert p[..k] == p;
      assert [p] + [] == [p];
    }
  }

  lemma SplitWhole(p: Text, d: Octet)
    requires d !in p
    ensures Split(p, d) == [p]
  {
    FindUnique(p, d, |p|) by { assert p[..|p|] == p; }
  }

  lemma RestAfterCons(head: Text, d: Octet, rest: Text, n: nat)
    requires d !in head
    ensures RestAfter(head + [d] + rest, d, n + 1) == RestAfter(rest, d, n)
  {
    CutAt(head, d, rest);
  }

  /** No piece of a split contains the delimiter. */
  lemma {:induction false} SplitPiecesAreClean(p: Text, d: Octet)
    ensures forall i :: 0 <= i < |Split(p, d)| ==> d !in Split(p, d)[i]
    decreases |p|
  {
    var k := Find(p, d);
    if k < |p| {
      SplitPiecesAreClean(p[k + 1..], d);
    }
  }

  lemma {:induction false} JoinSplit(p: Text, d: Octet)
    ensures Join(Split(p, d), d) == p
    decreases |p|
  {
    var k := Find(p, d);
    if k < |p| {
      JoinSplit(p[k + 1..], d);
      var fields := [p[..k]] + Split(p[k + 1..], d);
      assert fields[1..] == Split(p[k + 1..], d);
      assert p == p[..k] + [d] + p[k + 1..];
    }
  }

  lemma {:induction false} SplitJoin(fields: seq<Text>, d: Octet)
    requires fields != []
    requires forall i :: 0 <= i < |fields| ==> d !in fields[i]
    ensures Split(Join(fields, d), d) == fields
  {
    if |fields| == 1 {
      SplitWhole(fields[0], d);
    } else {
      SplitJoin(fields[1..], d);
      SplitCons(fields[0], d, Join(fields[1..], d));
      assert fields == [fields[0]] + fields[1..];
    }
  }

  lemma {:induction false} JoinAppend(fields: seq<Text>, d: Octet, last: Text)
    requires fields != []
    ensures Join(fields + [last], d) == Join(fields, d) + [d] + last
  {
    if |fields| > 1 {
      JoinAppend(fields[1..], d, last);
      assert (fields + [last])[1..] == fields[1..] + [last];
    }
  }

  /** The rest after the `n`-th delimiter is the join of the pieces from the `n`-th on. */
  lemma {:induction false} RestIsJoin(p: Text, d: Octet, n: nat)
    requires n < |Split(p, d)|
    ensures RestAfter(p, d, n) == Join(Split(p, d)[n..], d)
    decreases n
  {
    JoinSplit(p, d);
    if n > 0 {
      var k := Find(p, d);
      RestIsJoin(p[k + 1..], d, n - 1);
      assert Split(p, d)[n..] == Split(p[k + 1..], d)[n - 1..];
    } else {
      assert Split(p, d)[0..] == Split(p, d);
    }
  }

  /** A text with at least one delimiter is its first piece, the delimiter, and the rest. */
  lemma SplitTail(p: Text, d: Octet)
    requires |Split(p, d)| >= 2
    ensures var rest := RestAfter(p, d, 1);
            p == Split(p, d)[0] + [d] + rest && Split(rest, d) == Split(p, d)[1..]
  {
    hide Split, Find;
    SplitStep(p, d);
    var k := Find(p, d);
    assert p == p[..k] + [d] + p[k + 1..];
    assert RestAfter(p[k + 1..], d, 0) == p[k + 1..];
  }

  lemma RestAfterTail(p: Text, d: Octet, n: nat)
    requires |Split(p, d)| >= 2
    ensures RestAfter(p, d, n + 1) == RestAfter(RestAfter(p, d, 1), d, n)
  {
    hide Split, Find;
    SplitStep(p, d);
    assert RestAfter(p, d, 1) == RestAfter(p[Find(p, d) + 1..], d, 0) == p[Find(p, d) + 1..];
  }

  lemma {:induction false} JoinLength(a: seq<Text>, b: seq<Text>, d: Octet)
    requires |a| == |b| && forall i :: 0 <= i < |a| ==> |a[i]| <= |b[i]|
    ensures |Join(a, d)| <= |Join(b, d)|
  {
    if |a| > 1 { JoinLength(a[1..], b[1..], d); }
  }

  // ---- two fields with a bar between them ----

  /** Two parts with a field delimiter between them. */
  function Bar(head: Text, rest: Text): Text { head + ['|'] + rest }

  lemma BarParts(head: Text, rest: Text)
    requires '|' !in head
    ensures Split(Bar(head, rest), '|') == [head] + Split(rest, '|')
    ensures RestAfter(Bar(head, rest), '|', 1) == rest
    ensures Bar(head, rest) != []
  {
    SplitCons(head, '|', rest);
    RestAfterCons(head, '|', rest, 0);
  }

  lemma BarBarRest(a: Text, b: Text, rest: Text)
    requires '|' !in a && '|' !in b
    ensures RestAfter(Bar(a, Bar(b, rest)), '|', 2) == rest
  {
    RestAfterCons(a, '|', Bar(b, rest), 1);
    RestAfterCons(b, '|', rest, 0);
  }

  lemma BarBarBarRest(a: Text, b: Text, c: Text, rest: Text)
    requires '|' !in a && '|' !in b && '|' !in c
    ensures RestAfter(Bar(a, Bar(b, Bar(c, rest))), '|', 3) == rest
  {
    RestAfterCons(a, '|', Bar(b, Bar(c, rest)), 2);
    BarBarRest(b, c, rest);
  }

  // ---- decimal numbers ----

  const MAX_U64: nat := 0xFFFF_FFFF_FFFF_FFFF
  const MAX_U32: nat := 0xFFFF_FFFF

  function DigitChar(n: nat): (c: Octet)
    requires n < 10
    ensures IsDigit(c)
  {
    (n + 48) as char
  }

  predicate AllDigits(t: Text) { forall i :: 0 <= i < |t| ==> IsDigit(t[i]) }

  /** `std::to_string` of an unsigned number. */
  function ToDecimal(n: nat): Text
  {
    if n < 10 then [DigitChar(n)] else ToDecimal(n / 10) + [DigitChar(n % 10)]
  }

  function DecimalValue(t: Text): nat
    requires AllDigits(t)
  {
    if t == [] then 0 else DecimalValue(t[..|t| - 1]) * 10 + (t[|t| - 1] as int - 48)
  }

  /** `std::from_chars` into an unsigned integer, with the whole text required to be consumed:
      no sign, no blanks, at least one digit, and no overflow. Leading zeros are accepted. */
  function ParseUnsigned(t: Text, max: nat): (r: Option<nat>)
    ensures r.Some? ==> r.value <= max
  {
    if t != [] && AllDigits(t) && DecimalValue(t) <= max then Some(DecimalValue(t)) else None
  }

  lemma {:induction false} DecimalRoundTrip(n: nat)
    ensures ToDecimal(n) != [] && AllDigits(ToDecimal(n)) && DecimalValue(ToDecimal(n)) == n
  {
    if n >= 10 {
      DecimalRoundTrip(n / 10);
      var t := ToDecimal(n);
      assert t[..|t| - 1] == ToDecimal(n / 10);
    }
  }

  /** The printed form is the shortest text with its value. */
  lemma {:induction false} DecimalIsShortest(t: Text)
    requires t != [] && AllDigits(t)
    ensures |ToDecimal(DecimalValue(t))| <= |t|
  {
    var head := t[..|t| - 1];
    if head == [] {
      assert DecimalValue(t) == t[0] as int - 48;
    } else {
      DecimalIsShortest(head);
      var v := DecimalValue(t);
      assert v / 10 == DecimalValue(head);
    }
  }

  function Pow10(k: nat): nat { if k == 0 then 1 else 10 * Pow10(k - 1) }

  lemma {:induction false} DecimalLength(n: nat, k: nat)
    requires k >= 1 && n < Pow10(k)
    ensures |ToDecimal(n)| <= k
  {
    if n >= 10 {
      assert k > 1;
      DecimalLength(n / 10, k - 1);
    }
  }

  /** A 64-bit number prints in at most twenty digits. */
  lemma U64DecimalLength(n: nat)
    requires n <= MAX_U64
    ensures |ToDecimal(n)| <= 20
  {
    assert Pow10(5) == 100000;
    assert Pow10(10) == 10000000000;
    assert Pow10(15) == 1000000000000000;
    assert Pow10(20) == 100000000000000000000;
    DecimalLength(n, 20);
  }

  lemma DigitsHaveNoDelimiter(t: Text, d: Octet)
    requires AllDigits(t) && !IsDigit(d)
    ensures d !in t
  {
  }

  // ---- byte order ----

  /** The order of `std::string::compare` and of SQLite's binary collation. */
  predicate LexLess(a: Text, b: Text)
  {
    if b == [] then false
    else if a == [] then true
    else a[0] < b[0] || (a[0] == b[0] && LexLess(a[1..], b[1..]))
  }

  lemma {:induction false} LexTotal(a: Text, b: Text)
    ensures LexLess(a, b) || a == b || LexLess(b, a)
  {
    if a != [] && b != [] && a[0] == b[0] {
      LexTotal(a[1..], b[1..]);
      assert a == [a[0]] + a[1..] && b == [b[0]] + b[1..];
    }
  }

  lemma {:induction false} LexIrreflexive(a: Text)
    ensures !LexLess(a, a)
  {
    if a != [] { LexIrreflexive(a[1..]); }
  }

  lemma {:induction false} LexTransitive(a: Text, b: Text, c: Text)
    requires LexLess(a, b) && LexLess(b, c)
    ensures LexLess(a, c)
  {
    if a != [] && a[0] == b[0] && b[0] == c[0] {
      LexTransitive(a[1..], b[1..], c[1..]);
    }
  }

  /** The first octet that differs decides, and a proper initial part comes first. */
  lemma {:induction false} LexLessExactly(a: Text, b: Text)
    ensures LexLess(a, b) <==>
              exists k :: 0 <= k <= |a| && k < |b| && a[..k] == b[..k] && (k == |a| || a[k] < b[k])
  {
    if LexLess(a, b) {
      if a == [] {
        assert a[..0] == b[..0];
      } else if a[0] < b[0] {
        assert a[..0] == b[..0];
      } else {
        LexLessExactly(a[1..], b[1..]);
        var k :| 0 <= k <= |a[1..]| && k < |b[1..]| && a[1..][..k] == b[1..][..k] && (k == |a[1..]| || a[1..][k] < b[1..][k]);
        assert a[..k + 1] == [a[0]] + a[1..][..k] && b[..k + 1] == [b[0]] + b[1..][..k];
      }
    }
    if exists k :: 0 <= k <= |a| && k < |b| && a[..k] == b[..k] && (k == |a| || a[k] < b[k]) {
      var k :| 0 <= k <= |a| && k < |b| && a[..k] == b[..k] && (k == |a| || a[k] < b[k]);
      if k > 0 {
        assert a[0] == a[..k][0] == b[..k][0] == b[0];
        assert a[1..][..k - 1] == a[..k][1..] == b[..k][1..] == b[1..][..k - 1];
        LexLessExactly(a[1..], b[1..]);
        assert k - 1 == |a[1..]| || a[1..][k - 1] < b[1..][k - 1];
      }
    }
  }

  // ---- letters ----

  const CAPITALS: Text := "ABCDEFGHIJKLMNOPQRSTUVWXYZ"
  const SMALL_LETTERS: Text := "abcdefghijklmnopqrstuvwxyz"

  /** Each letter has its counterpart, and nothing else changes. */
  lemma LettersMatch(k: nat, c: Octet)
    requires k < 26
    ensures ToLower(CAPITALS[k]) == SMALL_LETTERS[k] && ToUpper(SMALL_LETTERS[k]) == CAPITALS[k]
    ensures c !in CAPITALS ==> ToLower(c) == c
    ensures c !in SMALL_LETTERS ==> ToUpper(c) == c
  {
    assert forall i: nat :: i < 26 ==> CAPITALS[i] as int == 65 + i && SMALL_LETTERS[i] as int == 97 + i;
    if 'A' <= c <= 'Z' { assert c == CAPITALS[c as int - 65]; }
    if 'a' <= c <= 'z' { assert c == SMALL_LETTERS[c as int - 97]; }
  }
}
