/** The client's message ring and room state, the laid-out transcript, and the scroll anchor. */
module Transcript {
  import opened Octets
  import opened Messages
  import V = ClientView

  const MAX_MESSAGES: nat := 200

  // ---- the ring ----

  /** `sequence` counts every message ever pushed; it is never set back. */
  datatype Ring = Ring(messages: seq<Text>, sequence: nat)

  ghost predicate IsRing(r: Ring) { |r.messages| <= MAX_MESSAGES && |r.messages| <= r.sequence }

  /** The number of the first retained message: how many were pushed before it. */
  function First(r: Ring): int { r.sequence - |r.messages| }

  predicate Retains(r: Ring, number: int) { First(r) <= number < r.sequence }

  function Numbered(r: Ring, number: int): Text
    requires Retains(r, number)
  {
    r.messages[number - First(r)]
  }

  function Push(r: Ring, message: Text): Ring
  {
    var grown := r.messages + [message];
    Ring(if |grown| > MAX_MESSAGES then grown[1..] else grown, r.sequence + 1)
  }

  function Clear(r: Ring): Ring { r.(messages := []) }

  datatype Change = Pushed(message: Text) | Cleared

  function Changed(r: Ring, change: Change): Ring
  {
    match change
    case Pushed(message) => Push(r, message)
    case Cleared => Clear(r)
  }

  ghost predicate IsRun(changes: seq<Change>, rings: seq<Ring>)
  {
    && |rings| == |changes| + 1 && IsRing(rings[0])
    && forall i :: 0 <= i < |changes| ==> rings[i + 1] == Changed(rings[i], changes[i])
  }

  lemma ChangeKeepsNumbers(r: Ring, change: Change, number: int)
    requires IsRing(r)
    ensures var t := Changed(r, change);
      && IsRing(t) && First(r) <= First(t) && r.sequence <= t.sequence
      && (Retains(r, number) && Retains(t, number) ==> Numbered(t, number) == Numbered(r, number))
  {
  }

  // ---- what is retained ----

  /** The texts pushed since the last clear. */
  function SinceClear(changes: seq<Change>): seq<Text>
  {
    if changes == [] then []
    else
      var n := |changes| - 1;
      match changes[n]
      case Pushed(message) => SinceClear(changes[..n]) + [message]
      case Cleared => []
  }

  function Pushes(changes: seq<Change>): nat
  {
    if changes == [] then 0
    else
      var n := |changes| - 1;
      Pushes(changes[..n]) + if changes[n].Pushed? then 1 else 0
  }

  function Newest(texts: seq<Text>): seq<Text> { if |texts| <= 200 then texts else texts[|texts| - 200..] }

  /** Exactly the newest two hundred texts since the last clear are retained, in order, and every text
      ever pushed has been counted. */
  lemma {:induction false} RetainsNewest(changes: seq<Change>, rings: seq<Ring>, n: nat)
    requires IsRun(changes, rings) && rings[0] == Ring([], 0) && n <= |changes|
    ensures rings[n] == Ring(Newest(SinceClear(changes[..n])), Pushes(changes[..n]))
  {
    if n > 0 {
      RetainsNewest(changes, rings, n - 1);
      assert changes[..n][..n - 1] == changes[..n - 1];
      assert rings[n] == Changed(rings[n - 1], changes[n - 1]);
      if changes[n - 1].Pushed? { NewestGrows(SinceClear(changes[..n - 1]), changes[n - 1].message); }
    }
  }

  lemma {:induction false} NewestGrows(texts: seq<Text>, message: Text)
    ensures Newest(texts + [message]) ==
      if |Newest(texts) + [message]| > 200 then (Newest(texts) + [message])[1..] else Newest(texts) + [message]
  {
  }

  /** A number keeps its message for as long as the message is retained, across pushes, evictions,
      clears and room changes, and is not given again. */
  lemma {:induction false} NumbersAreStable(changes: seq<Change>, rings: seq<Ring>, m: nat, n: nat, number: int)
    requires IsRun(changes, rings) && m <= n <= |changes|
    ensures IsRing(rings[m]) && IsRing(rings[n]) && First(rings[m]) <= First(rings[n]) && rings[m].sequence <= rings[n].sequence
    ensures Retains(rings[m], number) && Retains(rings[n], number) ==> Numbered(rings[n], number) == Numbered(rings[m], number)
    decreases n
  {
    hide Changed, Numbered, IsRing;
    if n == 0 {
    } else if m < n {
      NumbersAreStable(changes, rings, m, n - 1, number);
      ChangeKeepsNumbers(rings[n - 1], changes[n - 1], number);
    } else {
      NumbersAreStable(changes, rings, m - 1, n - 1, number);
      ChangeKeepsNumbers(rings[n - 1], changes[n - 1], number);
    }
  }

  // ---- the client's state ----

  function EnteredLine(name: Text, topic: Text): Text
  {
    "[system] Entered #" + name + if topic == [] then [] else " - " + topic
  }

  function TopicLine(topic: Text): Text { "[system] Topic: " + if topic == [] then "(none)" else topic }

  /** What a room message does to the transcript: only what concerns the room shown, or no room, is
      shown; entering a room begins a new transcript. */
  function After(r: Ring, room: RoomId, m: ServerMessage): Ring
  {
    match m
    case RoomJoined(_, name, topic) => Push(Clear(r), EnteredLine(name, topic))
    case RoomTopic(id, topic) => if id == room then Push(r, TopicLine(topic)) else r
    case RoomText(id, body) => if id == room then Push(r, body) else r
    case DirectText(body) => Push(r, body)
    case ServerError(reason) => Push(r, "[system] " + reason)
    case _ => r
  }

  /** The four fields of the view a room message may change. */
  lemma Consumed(v: V.View, m: ServerMessage)
    requires v.reading && v.negotiated
    ensures var w := V.Consume(v, m);
      && (w.room, w.name, w.topic) ==
           (match m
            case RoomJoined(id, name, topic) => (id, name, topic)
            case RoomTopic(id, topic) => (v.room, v.name, if id == v.room then topic else v.topic)
            case _ => (v.room, v.name, v.topic))
      && w.users == if m.RoomJoined? then [] else if m.UserList? && m.roomId == v.room then m.nicknames else v.users
  {
  }

  datatype Snapshot = Snapshot(
    messages: seq<Text>, users: seq<Text>, rooms: seq<RoomSummary>, room: RoomId, name: Text, topic: Text, sequence: nat)

  class AppState {
    var messages: seq<Text>
    var sequence: nat
    var users: seq<Text>
    var rooms: seq<RoomSummary>
    var room: RoomId
    var name: Text
    var topic: Text

    ghost predicate Valid()
      reads this
    {
      IsRing(History())
    }

    function History(): Ring
      reads this
    {
      Ring(messages, sequence)
    }

    constructor ()
      ensures Valid() && History() == Ring([], 0) && room == 0 && name == [] && topic == [] && users == []
    {
      messages, sequence, users, rooms, room, name, topic := [], 0, [], [], 0, [], [];
    }

    method TakeSnapshot() returns (s: Snapshot)
      ensures s == Snapshot(messages, users, rooms, room, name, topic, sequence)
    {
      s := Snapshot(messages, users, rooms, room, name, topic, sequence);
    }

    method PushMessage(message: Text)
      requires Valid()
      modifies this`messages, this`sequence
      ensures Valid() && History() == old(Push(History(), message))
    {
      messages := messages + [message];
      sequence := sequence + 1;
      if |messages| > MAX_MESSAGES { messages := messages[1..]; }
    }

    method ClearMessages()
      requires Valid()
      modifies this`messages
      ensures Valid() && History() == old(Clear(History()))
    {
      messages := [];
    }

    /** Everything is reset but the running count. */
    method ResetChatState()
      requires Valid()
      modifies this
      ensures Valid() && History() == old(Clear(History()))
      ensures users == [] && rooms == [] && room == 0 && name == [] && topic == []
    {
      messages, users, rooms, room, name, topic := [], [], [], 0, [], [];
    }

    method ActivateRoom(id: RoomId, newName: Text, newTopic: Text)
      requires Valid()
      modifies this
      ensures Valid() && History() == old(Clear(History())) && rooms == old(rooms)
      ensures room == id && name == newName && topic == newTopic && users == []
    {
      room, name, topic := id, newName, newTopic;
      messages, users := [], [];
    }

    method UpdateRoomTopic(id: RoomId, newTopic: Text)
      modifies this`topic
      ensures topic == if id == room then newTopic else old(topic)
    {
      if room == id { topic := newTopic; }
    }

    method UpdateRoomUsers(id: RoomId, names: seq<Text>)
      modifies this`users
      ensures users == if id == room then names else old(users)
    {
      if id == room { users := names; }
    }

    method UpdateRoomList(summaries: seq<RoomSummary>)
      modifies this`rooms
      ensures rooms == summaries
    {
      rooms := summaries;
    }

    /** The room the state shows, as the client's view has it. */
    ghost predicate Shows(v: V.View)
      reads this
    {
      room == v.room && name == v.name && topic == v.topic && users == v.users
    }

    /** The dispatch of a room message in the client's read loop, once the protocol is negotiated. */
    method Dispatch(m: ServerMessage, ghost v: V.View)
      requires Valid() && Shows(v) && v.reading && v.negotiated
      modifies this
      ensures Valid() && Shows(V.Consume(v, m))
      ensures History() == old(After(History(), room, m)) && rooms == if m.RoomList? then m.rooms else old(rooms)
    {
      hide V.Consume, EnteredLine, TopicLine, Push, Clear, IsRing;
      Consumed(v, m);
      match m {
        case UserList(id, names) => UpdateRoomUsers(id, names);
        case RoomList(summaries) => UpdateRoomList(summaries);
        case RoomJoined(id, newName, newTopic) =>
          ActivateRoom(id, newName, newTopic);
          PushMessage(EnteredLine(newName, newTopic));
        case RoomTopic(id, newTopic) =>
          UpdateRoomTopic(id, newTopic);
          if id == room { PushMessage(TopicLine(newTopic)); }
        case RoomText(id, body) => if id == room { PushMessage(body); }
        case DirectText(body) => PushMessage(body);
        case ServerError(reason) => PushMessage("[system] " + reason);
        case _ =>
      }
    }
  }

  // ---- the transcript ----

  datatype TranscriptLine = TranscriptLine(message: int, part: nat, text: Text)

  function Before(line: TranscriptLine, message: int, part: nat): bool
  {
    line.message < message || (line.message == message && line.part < part)
  }

  /** The lines of one message, wrapped into parts. */
  function MessageLines(number: int, parts: seq<Text>): seq<TranscriptLine>
  {
    seq(|parts|, p requires 0 <= p < |parts| => TranscriptLine(number, p, parts[p]))
  }

  /** The lines of the messages from `number` on. */
  function Layout(messages: seq<Text>, number: int, wrap: Text -> seq<Text>): seq<TranscriptLine>
    decreases |messages|
  {
    if messages == [] then [] else MessageLines(number, wrap(messages[0])) + Layout(messages[1..], number + 1, wrap)
  }

  function LinesOf(r: Ring, wrap: Text -> seq<Text>): seq<TranscriptLine> { Layout(r.messages, First(r), wrap) }

  /** Building the lines anew before each drawing. */
  method BuildLines(messages: seq<Text>, sequence: nat, wrap: Text -> seq<Text>) returns (lines: seq<TranscriptLine>)
    requires |messages| <= sequence
    ensures lines == LinesOf(Ring(messages, sequence), wrap)
  {
    hide Layout, MessageLines;
    lines := [];
    assert messages[0..] == messages;
    var first := sequence - |messages|;
    LayoutOfNone(sequence, wrap);
    for i := 0 to |messages|
      invariant lines + Layout(messages[i..], first + i, wrap) == Layout(messages, first, wrap)
    {
      var wrapped := wrap(messages[i]);
      ghost var before := lines;
      assert messages[i..][1..] == messages[i + 1..];
      LayoutOfSome(messages[i..], first + i, wrap);
      PartsInOrder(first + i, wrapped);
      for part := 0 to |wrapped|
        invariant lines == before + MessageLines(first + i, wrapped)[..part]
      {
        lines := lines + [TranscriptLine(first + i, part, wrapped[part])];
      }
      assert MessageLines(first + i, wrapped)[..|wrapped|] == MessageLines(first + i, wrapped);
    }
    assert messages[|messages|..] == [];
  }

  lemma LayoutOfNone(number: int, wrap: Text -> seq<Text>)
    ensures Layout([], number, wrap) == []
  {
  }

  lemma LayoutOfSome(messages: seq<Text>, number: int, wrap: Text -> seq<Text>)
    requires messages != []
    ensures Layout(messages, number, wrap) == MessageLines(number, wrap(messages[0])) + Layout(messages[1..], number + 1, wrap)
  {
  }

  lemma PartsInOrder(number: int, parts: seq<Text>)
    ensures |MessageLines(number, parts)| == |parts|
    ensures forall p :: 0 <= p < |parts| ==> MessageLines(number, parts)[p] == TranscriptLine(number, p, parts[p])
  {
  }

  ghost predicate Ascending(lines: seq<TranscriptLine>)
  {
    forall i, j :: 0 <= i < j < |lines| ==> Before(lines[i], lines[j].message, lines[j].part)
  }

  lemma {:induction false} LayoutAscends(messages: seq<Text>, number: int, wrap: Text -> seq<Text>)
    ensures Ascending(Layout(messages, number, wrap))
    ensures forall i :: 0 <= i < |Layout(messages, number, wrap)| ==>
              number <= Layout(messages, number, wrap)[i].message < number + |messages|
    decreases |messages|
  {
    if messages != [] {
      LayoutAscends(messages[1..], number + 1, wrap);
      var head, tail := MessageLines(number, wrap(messages[0])), Layout(messages[1..], number + 1, wrap);
      assert Layout(messages, number, wrap) == head + tail;
    }
  }

  /** A line is among those of a transcript exactly when it is one of the wrapped parts of a message, under
      the message's number and the part's. */
  lemma {:induction false} LayoutExactly(messages: seq<Text>, number: int, wrap: Text -> seq<Text>, line: TranscriptLine)
    ensures line in Layout(messages, number, wrap) <==>
      var k := line.message - number;
      0 <= k < |messages| && line.part < |wrap(messages[k])| && line.text == wrap(messages[k])[line.part]
    decreases |messages|
  {
    if messages != [] {
      LayoutExactly(messages[1..], number + 1, wrap, line);
      var first := MessageLines(number, wrap(messages[0]));
      PartsExactly(number, wrap(messages[0]), line);
      assert Layout(messages, number, wrap) == first + Layout(messages[1..], number + 1, wrap);
    }
  }

  lemma PartsExactly(number: int, parts: seq<Text>, line: TranscriptLine)
    ensures line in MessageLines(number, parts) <==>
      line.message == number && line.part < |parts| && line.text == parts[line.part]
  {
    if line.message == number && line.part < |parts| && line.text == parts[line.part] {
      assert MessageLines(number, parts)[line.part] == line;
    }
  }

  lemma {:induction false} LayoutSplits(a: seq<Text>, b: seq<Text>, number: int, wrap: Text -> seq<Text>)
    ensures Layout(a + b, number, wrap) == Layout(a, number, wrap) + Layout(b, number + |a|, wrap)
    decreases |a|
  {
    if a == [] {
      assert a + b == b;
    } else {
      assert (a + b)[1..] == a[1..] + b;
      LayoutSplits(a[1..], b, number + 1, wrap);
    }
  }

  // ---- the scroll anchor ----

  /** How many lines come before the anchor: where `std::lower_bound` stops. */
  function CountBefore(lines: seq<TranscriptLine>, message: int, part: nat): (k: nat)
    ensures k <= |lines|
  {
    if lines == [] then 0
    else if Before(lines[0], message, part) then 1 + CountBefore(lines[1..], message, part)
    else 0
  }

  lemma {:induction false} CountBeforeIs(lines: seq<TranscriptLine>, message: int, part: nat, k: nat)
    requires k <= |lines| && forall i :: 0 <= i < k ==> Before(lines[i], message, part)
    requires k < |lines| ==> !Before(lines[k], message, part)
    ensures CountBefore(lines, message, part) == k
    decreases k
  {
    if k > 0 { CountBeforeIs(lines[1..], message, part, k - 1); }
  }

  /** Binary search, as `std::lower_bound` does it. */
  method LowerBound(lines: seq<TranscriptLine>, message: int, part: nat) returns (k: nat)
    requires Ascending(lines)
    ensures k == CountBefore(lines, message, part)
  {
    var low, high := 0, |lines|;
    while low < high
      invariant 0 <= low <= high <= |lines|
      invariant forall i :: 0 <= i < low ==> Before(lines[i], message, part)
      invariant forall i :: high <= i < |lines| ==> !Before(lines[i], message, part)
    {
      var middle := (low + high) / 2;
      if Before(lines[middle], message, part) { low := middle + 1; } else { high := middle; }
    }
    CountBeforeIs(lines, message, part, low);
    k := low;
  }

  datatype Anchor = Anchor(follow: bool, message: int, part: nat)

  function Page(height: int): nat { if height < 1 then 1 else height }

  function Last(lines: seq<TranscriptLine>, height: int): nat
  {
    if |lines| > Page(height) then |lines| - Page(height) else 0
  }

  function Min(a: nat, b: nat): nat { if a < b then a else b }

  function Start(a: Anchor, lines: seq<TranscriptLine>, height: int): nat
  {
    if a.follow then Last(lines, height) else Min(Last(lines, height), CountBefore(lines, a.message, a.part))
  }

  function Clamp(x: int, high: nat): nat { if x < 0 then 0 else if x > high then high else x }

  /** Where `move_by` goes. */
  function Target(a: Anchor, lines: seq<TranscriptLine>, height: int, delta: int): nat
  {
    Clamp(Start(a, lines, height) + delta, Last(lines, height))
  }

  class Scrollback {
    var follow: bool
    var message: int
    var part: nat

    function State(): Anchor
      reads this
    {
      Anchor(follow, message, part)
    }

    constructor ()
      ensures State() == Anchor(true, 0, 0)
    {
      follow, message, part := true, 0, 0;
    }

    method StartLine(lines: seq<TranscriptLine>, height: int) returns (start: nat)
      requires Ascending(lines)
      ensures start == Start(State(), lines, height)
    {
      var page := if height < 1 then 1 else height;
      var last := if |lines| > page then |lines| - page else 0;
      if follow { return last; }
      var found := LowerBound(lines, message, part);
      start := if last < found then last else found;
    }

    method MoveBy(lines: seq<TranscriptLine>, height: int, delta: int)
      requires Ascending(lines)
      modifies this
      ensures lines == [] ==> State() == old(State())
      ensures lines != [] ==>
                var target := old(Target(State(), lines, height, delta));
                State() == Anchor(target == Last(lines, height), lines[target].message, lines[target].part)
      ensures lines != [] ==>
                var from, to, last := old(Start(State(), lines, height)), Start(State(), lines, height), Last(lines, height);
                && (follow <==> to == last) && to <= last
                && to == if from + delta < 0 then 0 else if from + delta > last then last else from + delta
    {
      if lines == [] { return; }
      var last := if |lines| > Page(height) then |lines| - Page(height) else 0;
      var start := StartLine(lines, height);
      var target := Clamp(start + delta, last);
      follow := target == last;
      message, part := lines[target].message, lines[target].part;
      MoveThenStart(lines, height, target);
    }

    method Latest()
      modifies this`follow
      ensures State() == old(State()).(follow := true)
    {
      follow := true;
    }
  }

  /** Moving puts the target line first: the next `start` is where the move went. */
  lemma {:induction false} MoveThenStart(lines: seq<TranscriptLine>, height: int, target: nat)
    requires Ascending(lines) && lines != [] && target <= Last(lines, height)
    ensures Start(Anchor(target == Last(lines, height), lines[target].message, lines[target].part), lines, height) == target
  {
    CountBeforeIs(lines, lines[target].message, lines[target].part, target);
  }

  /** An anchored line, not clamped: `start` shows exactly it. */
  ghost predicate Anchored(a: Anchor, lines: seq<TranscriptLine>, height: int)
  {
    && !a.follow
    && exists k :: 0 <= k < |lines| && k <= Last(lines, height) && lines[k].message == a.message && lines[k].part == a.part
  }

  lemma {:induction false} AnchoredStart(a: Anchor, lines: seq<TranscriptLine>, height: int, k: nat)
    requires Ascending(lines) && !a.follow && k < |lines| && k <= Last(lines, height)
    requires lines[k].message == a.message && lines[k].part == a.part
    ensures Start(a, lines, height) == k
  {
    CountBeforeIs(lines, a.message, a.part, k);
  }

  /** A push adds lines at the end, and takes away those of the message evicted, if any. */
  lemma {:induction false} PushedLines(r: Ring, message: Text, wrap: Text -> seq<Text>)
    returns (cut: nat, added: seq<TranscriptLine>)
    requires IsRing(r)
    ensures var before, after := LinesOf(r, wrap), LinesOf(Push(r, message), wrap);
      && cut <= |before| && after == (before + added)[cut..]
      && forall i :: 0 <= i < cut ==> before[i].message < First(Push(r, message))
  {
    hide Layout, MessageLines;
    var before := LinesOf(r, wrap);
    LayoutSplits(r.messages, [message], First(r), wrap);
    cut, added := 0, Layout([message], First(r) + |r.messages|, wrap);
    if |r.messages| + 1 > MAX_MESSAGES {
      var first := MessageLines(First(r), wrap(r.messages[0]));
      LayoutOfSome(r.messages, First(r), wrap);
      LayoutOfSome(r.messages + [message], First(r), wrap);
      PartsInOrder(First(r), wrap(r.messages[0]));
      assert before == first + Layout(r.messages[1..], First(r) + 1, wrap);
      cut := |first|;
      forall i | 0 <= i < cut ensures before[i].message == First(r) { assert before[i] == first[i]; }
    }
  }

  /** One push, or one eviction with it: the anchored line stays where it was relative to the end, as
      long as its message is retained. */
  lemma {:induction false} PushKeepsAnchor(a: Anchor, r: Ring, message: Text, wrap: Text -> seq<Text>, height: int)
    requires IsRing(r) && Anchored(a, LinesOf(r, wrap), height) && Retains(Push(r, message), a.message)
    ensures var before, after := LinesOf(r, wrap), LinesOf(Push(r, message), wrap);
      && Anchored(a, after, height)
      && Start(a, before, height) < |before| && Start(a, after, height) < |after|
      && after[Start(a, after, height)] == before[Start(a, before, height)]
      && before[Start(a, before, height)].message == a.message && before[Start(a, before, height)].part == a.part
  {
    hide Ascending, Start, Layout;
    var before, after := LinesOf(r, wrap), LinesOf(Push(r, message), wrap);
    LayoutAscends(r.messages, First(r), wrap);
    LayoutAscends(Push(r, message).messages, First(Push(r, message)), wrap);
    var k: nat :| k < |before| && k <= Last(before, height) && before[k].message == a.message && before[k].part == a.part;
    AnchoredStart(a, before, height, k);
    var cut, added := PushedLines(r, message, wrap);
    assert k >= cut;
    assert after[k - cut] == (before + added)[k];
    AnchoredStart(a, after, height, k - cut);
  }

  ghost predicate OnlyPushes(changes: seq<Change>) { forall i :: 0 <= i < |changes| ==> changes[i].Pushed? }

  /** After any pushes, with the evictions they cause, the reader who is not following still sees the
      same line first, as long as its message is retained. */
  lemma {:induction false} AnchorIsStable(a: Anchor, changes: seq<Change>, rings: seq<Ring>, wrap: Text -> seq<Text>, height: int, n: nat)
    requires IsRun(changes, rings) && OnlyPushes(changes) && n <= |changes|
    requires Anchored(a, LinesOf(rings[0], wrap), height) && Retains(rings[n], a.message)
    ensures var before, after := LinesOf(rings[0], wrap), LinesOf(rings[n], wrap);
      && Anchored(a, after, height)
      && Start(a, before, height) < |before| && Start(a, after, height) < |after|
      && after[Start(a, after, height)] == before[Start(a, before, height)]
  {
    hide Start, Anchored, Layout;
    if n == 0 {
      AnchoredExists(a, rings[0], wrap, height);
    } else {
      NumbersAreStable(changes, rings, 0, n - 1, a.message);
      NumbersAreStable(changes, rings, n - 1, n, a.message);
      AnchoredRetained(a, rings[0], wrap, height);
      NumbersAreStable(changes, rings, 0, n, a.message);
      AnchorIsStable(a, changes, rings, wrap, height, n - 1);
      PushKeepsAnchor(a, rings[n - 1], changes[n - 1].message, wrap, height);
    }
  }

  lemma {:induction false} AnchoredExists(a: Anchor, r: Ring, wrap: Text -> seq<Text>, height: int)
    requires IsRing(r) && Anchored(a, LinesOf(r, wrap), height)
    ensures Start(a, LinesOf(r, wrap), height) < |LinesOf(r, wrap)|
  {
    var lines := LinesOf(r, wrap);
    LayoutAscends(r.messages, First(r), wrap);
    var k: nat :| k < |lines| && k <= Last(lines, height) && lines[k].message == a.message && lines[k].part == a.part;
    AnchoredStart(a, lines, height, k);
  }

  lemma {:induction false} AnchoredRetained(a: Anchor, r: Ring, wrap: Text -> seq<Text>, height: int)
    requires IsRing(r) && Anchored(a, LinesOf(r, wrap), height)
    ensures Retains(r, a.message)
  {
    LayoutAscends(r.messages, First(r), wrap);
  }
}
