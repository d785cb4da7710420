/** The per-room sliding-window message quota of one session. Times are readings of the steady
    clock in nanoseconds. */
module RateLimit {
  import opened Messages

  const LIMIT: nat := 20
  const WINDOW: int := 60_000_000_000

  type Queues = map<RoomId, seq<int>>

  /** The pop loop: drop from the front while the front is older than the window. */
  function DropExpired(queue: seq<int>, now: int): seq<int>
  {
    if queue != [] && now - queue[0] > WINDOW then DropExpired(queue[1..], now) else queue
  }

  function QueueOf(queues: Queues, room: RoomId): seq<int>
  {
    if room in queues then queues[room] else []
  }

  /** One call of `consume_message_quota` while the session's active room is `room`. */
  function Consume(queues: Queues, room: RoomId, now: int): (bool, Queues)
  {
    var queue := DropExpired(QueueOf(queues, room), now);
    if |queue| >= LIMIT then (false, queues[room := queue]) else (true, queues[room := queue + [now]])
  }

  class MessageQuota {
    var recentMessagesByRoom: Queues

    constructor ()
      ensures recentMessagesByRoom == map[]
    {
      recentMessagesByRoom := map[];
    }

    method ConsumeMessageQuota(room: RoomId, now: int) returns (accepted: bool)
      modifies this
      ensures (accepted, recentMessagesByRoom) == Consume(old(recentMessagesByRoom), room, now)
    {
      var queue := if room in recentMessagesByRoom then recentMessagesByRoom[room] else [];
      while queue != [] && now - queue[0] > WINDOW
        invariant DropExpired(queue, now) == DropExpired(QueueOf(recentMessagesByRoom, room), now)
        decreases |queue|
      {
        queue := queue[1..];
      }
      if |queue| >= LIMIT {
        recentMessagesByRoom := recentMessagesByRoom[room := queue];
        return false;
      }
      recentMessagesByRoom := recentMessagesByRoom[room := queue + [now]];
      return true;
    }
  }

  // ---- runs ----

  datatype Call = Call(room: RoomId, now: int)

  ghost predicate NonDecreasing(calls: seq<Call>)
  {
    forall i, j :: 0 <= i <= j < |calls| ==> calls[i].now <= calls[j].now
  }

  function After(calls: seq<Call>): Queues
  {
    if calls == [] then map[]
    else
      var last := calls[|calls| - 1];
      Consume(After(calls[..|calls| - 1]), last.room, last.now).1
  }

  predicate Accepted(calls: seq<Call>, i: nat)
    requires i < |calls|
  {
    Consume(After(calls[..i]), calls[i].room, calls[i].now).0
  }

  /** The times at which messages to `room` were accepted. */
  function History(calls: seq<Call>, room: RoomId): seq<int>
  {
    if calls == [] then []
    else
      var n := |calls| - 1;
      History(calls[..n], room) + if calls[n].room == room && Accepted(calls, n) then [calls[n].now] else []
  }

  /** Those of `times` in the closed interval from `a` to `b`. */
  function Within(times: seq<int>, a: int, b: int): seq<int>
  {
    if times == [] then []
    else (if a <= times[0] <= b then [times[0]] else []) + Within(times[1..], a, b)
  }

  ghost predicate Sorted(times: seq<int>) { forall i, j :: 0 <= i <= j < |times| ==> times[i] <= times[j] }

  ghost predicate Bounded(times: seq<int>, b: int) { forall i :: 0 <= i < |times| ==> times[i] <= b }

  lemma {:induction false} WithinAppend(times: seq<int>, t: int, a: int, b: int)
    ensures Within(times + [t], a, b) == Within(times, a, b) + if a <= t <= b then [t] else []
  {
    if times != [] {
      WithinAppend(times[1..], t, a, b);
      assert (times + [t])[1..] == times[1..] + [t];
    } else {
      assert ([t])[1..] == [];
    }
  }

  lemma {:induction false} WithinAll(times: seq<int>, a: int, b: int)
    requires Sorted(times) && Bounded(times, b) && (times != [] ==> a <= times[0])
    ensures Within(times, a, b) == times
  {
    if times != [] { WithinAll(times[1..], a, b); }
  }

  lemma {:induction false} WithinFewer(times: seq<int>, a: int, b: int, c: int, d: int)
    requires c <= a && Bounded(times, d)
    ensures |Within(times, a, b)| <= |Within(times, c, d)|
  {
    if times != [] { WithinFewer(times[1..], a, b, c, d); }
  }

  /** On sorted times the pop loop leaves exactly the closed window. */
  lemma {:induction false} DropIsWithin(times: seq<int>, now: int)
    requires Sorted(times) && Bounded(times, now)
    ensures DropExpired(times, now) == Within(times, now - WINDOW, now)
  {
    if times != [] {
      if now - times[0] > WINDOW { DropIsWithin(times[1..], now); } else { WithinAll(times, now - WINDOW, now); }
    }
  }

  lemma {:induction false} DropIsSuffix(times: seq<int>, now: int) returns (k: nat)
    ensures k <= |times| && DropExpired(times, now) == times[k..]
    ensures forall j :: 0 <= j < k ==> now - times[j] > WINDOW
  {
    k := 0;
    if times != [] && now - times[0] > WINDOW {
      var d := DropIsSuffix(times[1..], now);
      k := d + 1;
      assert times[1..][d..] == times[k..];
    }
  }

  lemma {:induction false} DropTwice(times: seq<int>, k: nat, now: int)
    requires k <= |times| && forall j :: 0 <= j < k ==> now - times[j] > WINDOW
    ensures DropExpired(times[k..], now) == DropExpired(times, now)
  {
    if k > 0 {
      DropTwice(times[1..], k - 1, now);
      assert times[1..][k - 1..] == times[k..];
    } else {
      assert times[0..] == times;
    }
  }

  lemma {:induction false} HistorySorted(calls: seq<Call>, room: RoomId, now: int)
    requires NonDecreasing(calls) && (calls != [] ==> calls[|calls| - 1].now <= now)
    ensures Sorted(History(calls, room)) && Bounded(History(calls, room), now)
  {
    if calls != [] {
      var n := |calls| - 1;
      HistorySorted(calls[..n], room, calls[n].now);
    }
  }

  /** A room's queue is its acceptance history without entries that have already expired. */
  lemma {:induction false} QueueInvariant(calls: seq<Call>, room: RoomId) returns (k: nat)
    requires NonDecreasing(calls)
    ensures k <= |History(calls, room)|
    ensures QueueOf(After(calls), room) == History(calls, room)[k..]
    ensures forall j :: 0 <= j < k ==> calls != [] && calls[|calls| - 1].now - History(calls, room)[j] > WINDOW
    decreases |calls|
  {
    hide DropExpired;
    k := 0;
    if calls != [] {
      var n := |calls| - 1;
      var h := History(calls[..n], room);
      k := QueueInvariant(calls[..n], room);
      assert calls[n].room != room ==> History(calls, room) == h;
      if calls[n].room == room {
        var d := DropIsSuffix(h[k..], calls[n].now);
        assert h[k..][d..] == h[k + d..];
        assert forall j :: k <= j < k + d ==> h[j] == h[k..][j - k];
        k := k + d;
      }
    }
  }

  /** What is left of a room's queue once a call has dropped the expired entries: the
      acceptances of the closed last sixty seconds. */
  lemma {:induction false} UnexpiredQueue(before: seq<Call>, room: RoomId, now: int)
    requires NonDecreasing(before) && (before != [] ==> before[|before| - 1].now <= now)
    ensures DropExpired(QueueOf(After(before), room), now) == Within(History(before, room), now - WINDOW, now)
  {
    HistorySorted(before, room, now);
    var k := QueueInvariant(before, room);
    DropTwice(History(before, room), k, now);
    DropIsWithin(History(before, room), now);
  }

  /** A message is accepted exactly when fewer than twenty were accepted in the same session and
      room in the closed last sixty seconds; and right after the call the room's queue is exactly
      the acceptances of those sixty seconds. */
  lemma {:induction false} QuotaMeetsSpec(calls: seq<Call>, i: nat)
    requires NonDecreasing(calls) && i < |calls|
    ensures var call := calls[i];
            && (Accepted(calls, i) <==>
                  |Within(History(calls[..i], call.room), call.now - WINDOW, call.now)| < LIMIT)
            && QueueOf(After(calls[..i + 1]), call.room)
                 == Within(History(calls[..i + 1], call.room), call.now - WINDOW, call.now)
  {
    var upTo, call := calls[..i + 1], calls[i];
    assert upTo[..i] == calls[..i];
    UnexpiredQueue(calls[..i], call.room, call.now);
    WithinAppend(History(calls[..i], call.room), call.now, call.now - WINDOW, call.now);
    assert Accepted(upTo, i) == Accepted(calls, i);
    var h := History(calls[..i], call.room);
    assert History(upTo, call.room) == if Accepted(calls, i) then h + [call.now] else h;
  }

  /** So no closed interval of sixty seconds ever holds more than twenty acceptances of a room. */
  lemma {:induction false} AtMostTwentyPerWindow(calls: seq<Call>, room: RoomId, a: int)
    requires NonDecreasing(calls)
    ensures |Within(History(calls, room), a, a + WINDOW)| <= LIMIT
    decreases |calls|
  {
    if calls != [] {
      var n := |calls| - 1;
      var now := calls[n].now;
      var h := History(calls[..n], room);
      AtMostTwentyPerWindow(calls[..n], room, a);
      WithinAppend(h, now, a, a + WINDOW);
      assert History(calls, room) == if calls[n].room == room && Accepted(calls, n) then h + [now] else h;
      if calls[n].room == room && a <= now <= a + WINDOW {
        QuotaMeetsSpec(calls, n);
        HistorySorted(calls[..n], room, now);
        WithinFewer(h, a, a + WINDOW, now - WINDOW, now);
      }
    }
  }
}
