/** Fingerprints and the text file of trusted ones: one `address|fingerprint` a line. */
module TrustFile {
  import opened Octets

  // ---- fingerprints ----

  const FINGERPRINT_LENGTH: nat := 64

  predicate IsSeparator(c: Octet) { c == ':' || c == '-' || IsSpace(c) }

  predicate IsUpperHex(c: Octet) { IsDigit(c) || 'A' <= c <= 'F' }

  predicate IsFingerprint(t: Text)
  {
    |t| == FINGERPRINT_LENGTH && forall i :: 0 <= i < |t| ==> IsUpperHex(t[i])
  }

  /** The hexadecimal digits of a text, in upper case. */
  function UpperDigits(t: Text): Text
  {
    if t == [] then []
    else (if IsHexDigit(t[0]) then [ToUpper(t[0])] else []) + UpperDigits(t[1..])
  }

  predicate OnlyDigitsAndSeparators(t: Text)
  {
    forall i :: 0 <= i < |t| ==> IsHexDigit(t[i]) || IsSeparator(t[i])
  }

  /** 64 digits, in either case and with separators anywhere; or nothing. */
  function Normalize(t: Text): Text
  {
    if OnlyDigitsAndSeparators(t) && |UpperDigits(t)| == FINGERPRINT_LENGTH then UpperDigits(t) else []
  }

  /** `normalize_fingerprint`. */
  method NormalizeFingerprint(fingerprint: Text) returns (normalized: Text)
    ensures normalized == Normalize(fingerprint)
  {
    normalized := [];
    for i := 0 to |fingerprint|
      invariant normalized + UpperDigits(fingerprint[i..]) == UpperDigits(fingerprint)
      invariant OnlyDigitsAndSeparators(fingerprint[..i])
    {
      var ch := fingerprint[i];
      assert fingerprint[i..][1..] == fingerprint[i + 1..];
      if IsHexDigit(ch) {
        normalized := normalized + [ToUpper(ch)];
      } else if ch != ':' && ch != '-' && !IsSpace(ch) {
        return [];
      }
    }
    assert fingerprint[..|fingerprint|] == fingerprint;
    if |normalized| != FINGERPRINT_LENGTH { normalized := []; }
  }

  lemma {:induction false} UpperDigitsAreUpper(t: Text)
    ensures forall i :: 0 <= i < |UpperDigits(t)| ==> IsUpperHex(UpperDigits(t)[i])
  {
    if t != [] { UpperDigitsAreUpper(t[1..]); }
  }

  lemma {:induction false} UpperDigitsOfUpper(t: Text)
    requires forall i :: 0 <= i < |t| ==> IsUpperHex(t[i])
    ensures UpperDigits(t) == t
  {
    if t != [] { UpperDigitsOfUpper(t[1..]); }
  }

  /** What is normal is a fingerprint or nothing, and a fingerprint is its own normal form. */
  lemma {:induction false} NormalForms(t: Text)
    ensures Normalize(t) == [] || IsFingerprint(Normalize(t))
    ensures IsFingerprint(t) ==> Normalize(t) == t
    ensures Normalize(Normalize(t)) == Normalize(t)
  {
    UpperDigitsAreUpper(t);
    UpperDigitsOfUpper(UpperDigits(t));
    if IsFingerprint(t) { UpperDigitsOfUpper(t); }
  }

  const CAPITAL_DIGITS: Text := "0123456789ABCDEF"
  const SMALL_DIGITS: Text := "0123456789abcdef"

  /** The hexadecimal digit `d`, in capitals, written in either case. */
  predicate WritesDigit(c: Octet, d: Octet)
  {
    exists k :: 0 <= k < 16 && CAPITAL_DIGITS[k] == d && (c == d || c == SMALL_DIGITS[k])
  }

  predicate MayBeBetween(c: Octet)
  {
    c == ':' || c == '-' || c == ' ' || 9 as char <= c <= 13 as char
  }

  /** The text is the digits of `f` in order, in either case, with colons, dashes and blanks anywhere. */
  predicate IsSpelling(t: Text, f: Text)
  {
    if t == [] then f == []
    else
      || (MayBeBetween(t[0]) && IsSpelling(t[1..], f))
      || (f != [] && WritesDigit(t[0], f[0]) && IsSpelling(t[1..], f[1..]))
  }

  lemma DigitsWritten(c: Octet)
    ensures IsHexDigit(c) ==> WritesDigit(c, ToUpper(c))
    ensures forall d :: WritesDigit(c, d) ==> IsHexDigit(c) && d == ToUpper(c)
    ensures MayBeBetween(c) <==> IsSeparator(c)
    ensures !(IsSeparator(c) && IsHexDigit(c))
  {
    DigitTables();
    hide CAPITAL_DIGITS, SMALL_DIGITS;
    if IsHexDigit(c) {
      var k := if IsDigit(c) then c as int - 48 else if c <= 'F' then c as int - 55 else c as int - 87;
      assert CAPITAL_DIGITS[k] == ToUpper(c);
    }
  }

  lemma DigitTables()
    ensures |CAPITAL_DIGITS| == 16 && |SMALL_DIGITS| == 16
    ensures forall k :: 0 <= k < 10 ==> CAPITAL_DIGITS[k] == (k + 48) as char == SMALL_DIGITS[k]
    ensures forall k :: 10 <= k < 16 ==> CAPITAL_DIGITS[k] == (k + 55) as char && SMALL_DIGITS[k] == (k + 87) as char
  {
  }

  lemma {:induction false} SpellingIs(t: Text, f: Text)
    ensures IsSpelling(t, f) <==> OnlyDigitsAndSeparators(t) && UpperDigits(t) == f
  {
    hide WritesDigit, IsSeparator, IsHexDigit, ToUpper, MayBeBetween;
    if t != [] {
      DigitsWritten(t[0]);
      SpellingIs(t[1..], f);
      if f != [] { SpellingIs(t[1..], f[1..]); }
      assert OnlyDigitsAndSeparators(t) <==> (IsHexDigit(t[0]) || IsSeparator(t[0])) && OnlyDigitsAndSeparators(t[1..]);
    }
  }

  /** A text normalizes to a fingerprint exactly when it spells it, and to nothing when it spells none. */
  lemma {:induction false} NormalizesExactly(t: Text, f: Text)
    requires f != []
    ensures Normalize(t) == f <==> IsSpelling(t, f) && IsFingerprint(f)
  {
    hide IsSpelling, UpperDigits, OnlyDigitsAndSeparators;
    SpellingIs(t, f);
    UpperDigitsAreUpper(t);
  }

  // ---- reading ----

  type Entries = map<Text, Text>

  function Learn(entries: Entries, line: Text): Entries
  {
    var k := Find(line, '|');
    if k == |line| then entries
    else
      var fingerprint := Normalize(line[k + 1..]);
      if k > 0 && fingerprint != [] then entries[line[..k] := fingerprint] else entries
  }

  function LearnAll(entries: Entries, lines: seq<Text>): Entries
    decreases |lines|
  {
    if lines == [] then entries else LearnAll(Learn(entries, lines[0]), lines[1..])
  }

  function Read(file: Text): Entries { LearnAll(map[], Split(file, '\n')) }

  /** `read_trust_store`: a later line for an address replaces an earlier one. */
  method ReadTrustStore(file: Text) returns (entries: Entries)
    ensures entries == Read(file)
  {
    hide Split, Find, Normalize;
    entries := map[];
    var rest := file;
    while rest != []
      invariant LearnAll(entries, Split(rest, '\n')) == Read(file)
      decreases |rest|
    {
      var end := Find(rest, '\n');
      SplitStep(rest, '\n');
      var line := rest[..end];
      LearnAllCons(entries, line, if end == |rest| then [] else Split(rest[end + 1..], '\n'));
      var separator := Find(line, '|');
      if separator < |line| {
        var address := line[..separator];
        var fingerprint := NormalizeFingerprint(line[separator + 1..]);
        if address != [] && fingerprint != [] { entries := entries[address := fingerprint]; }
      }
      if end < |rest| {
        rest := rest[end + 1..];
      } else {
        BlankLearnsNothing(entries);
        rest := [];
      }
    }
    BlankLearnsNothing(entries);
  }

  lemma {:induction false} LearnAllCons(entries: Entries, line: Text, lines: seq<Text>)
    ensures LearnAll(entries, [line] + lines) == LearnAll(Learn(entries, line), lines)
  {
    assert ([line] + lines)[1..] == lines;
  }

  lemma BlankLearnsNothing(entries: Entries)
    ensures LearnAll(entries, Split([], '\n')) == LearnAll(entries, []) == entries
  {
    assert Split([], '\n') == [[]];
    LearnAllCons(entries, [], []);
  }

  // ---- writing ----

  function Line(address: Text, fingerprint: Text): Text { address + ['|'] + fingerprint }

  /** The file with the entries of `addresses`, in that order. */
  function Print(addresses: seq<Text>, entries: Entries): Text
    requires forall a :: a in addresses ==> a in entries
  {
    if addresses == [] then []
    else Line(addresses[0], entries[addresses[0]]) + ['\n'] + Print(addresses[1..], entries)
  }

  ghost predicate Lists(addresses: seq<Text>, entries: Entries)
  {
    (forall a :: a in addresses <==> a in entries) && forall i, j :: 0 <= i < j < |addresses| ==> addresses[i] != addresses[j]
  }

  /** `write_trust_store`, up to the order of the lines. */
  method WriteTrustStore(entries: Entries) returns (file: Text, ghost addresses: seq<Text>)
    ensures Lists(addresses, entries) && file == Print(addresses, entries)
    ensures Read(file) == entries <==> Plain(entries)
  {
    file := [];
    addresses := [];
    var rest := entries.Keys;
    while rest != {}
      invariant rest <= entries.Keys
      invariant forall a :: a in addresses <==> a in entries && a !in rest
      invariant forall i, j :: 0 <= i < j < |addresses| ==> addresses[i] != addresses[j]
      invariant file == Print(addresses, entries)
      decreases rest
    {
      var address :| address in rest;
      PrintAppend(addresses, address, entries);
      file := file + Line(address, entries[address]) + ['\n'];
      addresses := addresses + [address];
      rest := rest - {address};
    }
    ReadBack(addresses, entries);
  }

  lemma {:induction false} PrintAppend(addresses: seq<Text>, last: Text, entries: Entries)
    requires last in entries && forall a :: a in addresses ==> a in entries
    ensures Print(addresses + [last], entries) == Print(addresses, entries) + Line(last, entries[last]) + ['\n']
  {
    var all := addresses + [last];
    if addresses == [] {
      assert all[1..] == [];
      assert Print([], entries) == [];
      assert Print(all, entries) == Line(last, entries[last]) + ['\n'] + Print(all[1..], entries);
    } else {
      assert all[1..] == addresses[1..] + [last];
      PrintAppend(addresses[1..], last, entries);
    }
  }

  // ---- the round trip ----

  predicate IsPlainAddress(a: Text) { a != [] && '|' !in a && '\n' !in a }

  /** Entries that a file can hold. */
  ghost predicate Plain(entries: Entries)
  {
    forall a :: a in entries ==> IsPlainAddress(a) && IsFingerprint(entries[a])
  }

  lemma {:induction false} LearnIsPlain(entries: Entries, line: Text)
    requires Plain(entries) && '\n' !in line
    ensures Plain(Learn(entries, line))
  {
    hide Normalize, IsFingerprint;
    var k := Find(line, '|');
    if k < |line| {
      NormalForms(line[k + 1..]);
      assert '|' !in line[..k] && '\n' !in line[..k];
    }
  }

  lemma {:induction false} LearnAllIsPlain(entries: Entries, lines: seq<Text>)
    requires Plain(entries) && forall i :: 0 <= i < |lines| ==> '\n' !in lines[i]
    ensures Plain(LearnAll(entries, lines))
    decreases |lines|
  {
    hide Learn, Plain;
    if lines != [] {
      LearnIsPlain(entries, lines[0]);
      LearnAllIsPlain(Learn(entries, lines[0]), lines[1..]);
    }
  }

  lemma {:induction false} ReadIsPlain(file: Text)
    ensures Plain(Read(file))
  {
    hide Split;
    SplitPiecesAreClean(file, '\n');
    LearnAllIsPlain(map[], Split(file, '\n'));
  }

  lemma {:induction false} LearnLine(entries: Entries, address: Text, fingerprint: Text)
    requires IsPlainAddress(address) && IsFingerprint(fingerprint)
    ensures Learn(entries, Line(address, fingerprint)) == entries[address := fingerprint]
    ensures '\n' !in Line(address, fingerprint)
  {
    CutAt(address, '|', fingerprint);
    NormalForms(fingerprint);
    hide Normalize, Find;
  }

  lemma {:induction false} Merged(addresses: seq<Text>, entries: Entries, known: Entries)
    requires addresses != [] && forall a :: a in addresses ==> a in entries
    ensures var a, rest := addresses[0], addresses[1..];
            known[a := entries[a]] + (map b | b in rest :: entries[b]) == known + map b | b in addresses :: entries[b]
  {
    var a, rest := addresses[0], addresses[1..];
    assert addresses == [a] + rest;
    var one, two := map b | b in rest :: entries[b], map b | b in addresses :: entries[b];
    assert two.Keys == one.Keys + {a};
  }

  lemma {:induction false} ReadPrinted(addresses: seq<Text>, entries: Entries, known: Entries)
    requires Plain(entries) && forall a :: a in addresses ==> a in entries
    ensures LearnAll(known, Split(Print(addresses, entries), '\n')) == known + map a | a in addresses :: entries[a]
    decreases |addresses|
  {
    hide Learn, Line, IsFingerprint, IsPlainAddress, Split, LearnAll;
    if addresses == [] {
      BlankLearnsNothing(known);
    } else {
      var a, rest := addresses[0], addresses[1..];
      LearnLine(known, a, entries[a]);
      SplitCons(Line(a, entries[a]), '\n', Print(rest, entries));
      LearnAllCons(known, Line(a, entries[a]), Split(Print(rest, entries), '\n'));
      ReadPrinted(rest, entries, known[a := entries[a]]);
      Merged(addresses, entries, known);
    }
  }

  /** A written file reads back as the entries written exactly when every address is non-empty and
      has no bar and no line feed, and every fingerprint is in normal form. */
  lemma {:induction false} ReadBack(addresses: seq<Text>, entries: Entries)
    requires Lists(addresses, entries)
    ensures Read(Print(addresses, entries)) == entries <==> Plain(entries)
  {
    hide IsFingerprint, IsPlainAddress, LearnAll, Split;
    ReadIsPlain(Print(addresses, entries));
    if Plain(entries) {
      ReadPrinted(addresses, entries, map[]);
      assert map[] + (map a | a in addresses :: entries[a]) == entries;
    }
  }

  /** An address with a bar in it is not read back: what follows its bar is no fingerprint. */
  lemma {:induction false} BarIsLost(fingerprint: Text)
    requires IsFingerprint(fingerprint)
    ensures var entries := map["a|b" := fingerprint];
            Lists(["a|b"], entries) && Read(Print(["a|b"], entries)) == map[]
  {
    var address: Text := "a|b";
    var entries := map[address := fingerprint];
    var line := Line(address, fingerprint);
    var rest := ['b', '|'] + fingerprint;
    assert line == ['a'] + ['|'] + rest;
    CutAt(['a'], '|', rest);
    assert !OnlyDigitsAndSeparators(rest) by { assert rest[1] == '|'; }
    assert Learn(map[], line) == map[];
    assert Print([address], entries) == line + ['\n'] + [];
    hide Learn, Normalize, IsFingerprint, OnlyDigitsAndSeparators, LearnAll, Line;
    LineHasNoFeed(address, fingerprint);
    SplitCons(line, '\n', []);
    LearnAllCons(map[], line, Split([], '\n'));
    BlankLearnsNothing(map[]);
  }

  lemma LineHasNoFeed(address: Text, fingerprint: Text)
    requires '\n' !in address && IsFingerprint(fingerprint)
    ensures '\n' !in Line(address, fingerprint)
  {
  }

  // ---- what a file says ----

  /** The line gives this fingerprint for this address. */
  ghost predicate Says(line: Text, a: Text, f: Text)
  {
    a != [] && '|' !in a && IsFingerprint(f) && exists t :: line == Line(a, t) && IsSpelling(t, f)
  }

  /** The last of the lines that give a fingerprint for the address gives this one. */
  ghost predicate SaysLast(lines: seq<Text>, a: Text, f: Text)
  {
    exists k :: 0 <= k < |lines| && Says(lines[k], a, f) && forall j, g :: k < j < |lines| ==> !Says(lines[j], a, g)
  }

  lemma LearnExactly(entries: Entries, line: Text, a: Text)
    ensures forall f :: Says(line, a, f) ==> a in Learn(entries, line) && Learn(entries, line)[a] == f
    ensures (forall f :: !Says(line, a, f)) ==>
              (a in Learn(entries, line) <==> a in entries) && (a in entries ==> Learn(entries, line)[a] == entries[a])
  {
    hide IsSpelling, Normalize, IsFingerprint, Find;
    forall f | Says(line, a, f) ensures Find(line, '|') == |a| && Normalize(line[|a| + 1..]) == f && f != [] && |a| < |line| {
      var t :| line == Line(a, t) && IsSpelling(t, f);
      CutAt(a, '|', t);
      FingerprintsAreLong(f);
      NormalizesExactly(t, f);
    }
    var k := Find(line, '|');
    if k < |line| && k > 0 && a == line[..k] && Normalize(line[k + 1..]) != [] {
      NormalizesExactly(line[k + 1..], Normalize(line[k + 1..]));
      assert line == Line(a, line[k + 1..]);
      assert Says(line, a, Normalize(line[k + 1..]));
    }
  }

  lemma FingerprintsAreLong(f: Text)
    requires IsFingerprint(f)
    ensures f != []
  {
  }

  lemma {:induction false} LearnAllAppend(entries: Entries, lines: seq<Text>, last: Text)
    ensures LearnAll(entries, lines + [last]) == Learn(LearnAll(entries, lines), last)
    decreases |lines|
  {
    hide Learn;
    if lines == [] {
      LearnAllCons(entries, last, []);
      assert [last] + [] == [] + [last];
    } else {
      LearnAllAppend(Learn(entries, lines[0]), lines[1..], last);
      LearnAllCons(entries, lines[0], lines[1..] + [last]);
      assert lines + [last] == [lines[0]] + (lines[1..] + [last]);
    }
  }

  lemma {:induction false} LearnAllExactly(lines: seq<Text>, a: Text, f: Text)
    ensures (a in LearnAll(map[], lines) && LearnAll(map[], lines)[a] == f) <==> SaysLast(lines, a, f)
    decreases |lines|
  {
    hide Learn, Says, LearnAll;
    if lines == [] {
      LearnsNothing();
    } else {
      var n := |lines| - 1;
      var before := LearnAll(map[], lines[..n]);
      assert lines == lines[..n] + [lines[n]];
      LearnAllAppend(map[], lines[..n], lines[n]);
      LearnAllExactly(lines[..n], a, f);
      LearnExactly(before, lines[n], a);
      OneMoreLine(lines, a, f);
    }
  }

  lemma LearnsNothing()
    ensures LearnAll(map[], []) == map[]
  {
  }

  lemma {:induction false} OneMoreLine(lines: seq<Text>, a: Text, f: Text)
    requires lines != []
    ensures var n := |lines| - 1;
      SaysLast(lines, a, f) <==> Says(lines[n], a, f) || ((forall g :: !Says(lines[n], a, g)) && SaysLast(lines[..n], a, f))
  {
    hide Says;
    var n := |lines| - 1;
    if SaysLast(lines[..n], a, f) && forall g :: !Says(lines[n], a, g) {
      var k :| 0 <= k < n && Says(lines[..n][k], a, f) && forall j, g :: k < j < n ==> !Says(lines[..n][j], a, g);
      forall j, g | k < j < |lines| ensures !Says(lines[j], a, g) {
        if j < n { assert lines[..n][j] == lines[j]; }
      }
    }
    if SaysLast(lines, a, f) && !Says(lines[n], a, f) {
      var k :| 0 <= k < |lines| && Says(lines[k], a, f) && forall j, g :: k < j < |lines| ==> !Says(lines[j], a, g);
      assert k < n && lines[..n][k] == lines[k];
    }
  }

  /** A file has a fingerprint for an address exactly when the last of its lines that gives one for that
      address gives this one. */
  lemma {:induction false} ReadExactly(file: Text, a: Text, f: Text)
    ensures (a in Read(file) && Read(file)[a] == f) <==> SaysLast(Split(file, '\n'), a, f)
  {
    hide LearnAll, Split, SaysLast;
    LearnAllExactly(Split(file, '\n'), a, f);
  }
}
