/** `next_message_timestamp`: threads read a shared atomic and swap a later value in, retrying when
    another thread was faster or the exchange fails for no reason. */
module Timestamps {

  datatype Thread = Idle | Trying(now: int, observed: int)

  /** `issued` is every timestamp returned so far, in the order of the exchanges. */
  datatype Clock = Clock(last: int, threads: map<nat, Thread>, issued: seq<int>)

  datatype Event =
    | Read(thread: nat, now: int)
    | Exchange(thread: nat, spurious: bool)

  const START := Clock(0, map[], [])

  function ThreadOf(c: Clock, t: nat): Thread { if t in c.threads then c.threads[t] else Idle }

  predicate Enabled(c: Clock, e: Event)
  {
    match e
    case Read(t, _) => ThreadOf(c, t).Idle?
    case Exchange(t, _) => ThreadOf(c, t).Trying?
  }

  function Candidate(t: Thread): int
    requires t.Trying?
  {
    if t.now > t.observed + 1 then t.now else t.observed + 1
  }

  /** `compare_exchange_weak`: on failure the thread has read the atomic again. */
  function Step(c: Clock, e: Event): Clock
    requires Enabled(c, e)
  {
    match e
    case Read(t, now) => c.(threads := c.threads[t := Trying(now, c.last)])
    case Exchange(t, spurious) =>
      var thread := ThreadOf(c, t);
      if thread.observed == c.last && !spurious then
        Clock(Candidate(thread), c.threads[t := Idle], c.issued + [Candidate(thread)])
      else c.(threads := c.threads[t := Trying(thread.now, c.last)])
  }

  /** What an exchange of one thread meets: the value other threads left, and a failure for no reason. */
  datatype Attempt = Attempt(others: int, spurious: bool)

  /** Other threads only ever store later values. */
  predicate Rising(last: int, attempts: seq<Attempt>)
    decreases |attempts|
  {
    attempts != [] ==> last <= attempts[0].others && Rising(attempts[0].others, attempts[1..])
  }

  /** The value that the first successful exchange replaces. */
  function Found(last: int, attempts: seq<Attempt>): int
    decreases |attempts|
  {
    if attempts == [] || (attempts[0].others == last && !attempts[0].spurious) then last
    else Found(attempts[0].others, attempts[1..])
  }

  class Atomic {
    var last: int

    constructor ()
      ensures last == 0
    {
      last := 0;
    }

    method CompareExchange(observed: int, candidate: int, spurious: bool) returns (ok: bool, seen: int)
      modifies this
      ensures ok == (old(last) == observed && !spurious)
      ensures last == (if ok then candidate else old(last)) && seen == old(last)
    {
      seen := last;
      ok := last == observed && !spurious;
      if ok { last := candidate; }
    }

    /** The loop. Before each exchange other threads may have stored later values: `attempts` says what
        they left in the atomic then, and whether the exchange fails for no reason; after those, they
        are quiet. */
    method NextTimestamp(now: int, attempts: seq<Attempt>) returns (stamp: int)
      requires Rising(last, attempts)
      modifies this
      ensures var found := Found(old(last), attempts);
              stamp == last == Candidate(Trying(now, found)) && found >= old(last)
    {
      var observed, k := last, 0;
      assert attempts[0..] == attempts;
      while true
        invariant k <= |attempts| && observed == last >= old(last) && Rising(last, attempts[k..])
        invariant Found(last, attempts[k..]) == Found(old(last), attempts)
        decreases |attempts| - k
      {
        var candidate := if now > observed + 1 then now else observed + 1;
        var spurious := false;
        if k < |attempts| {
          assert attempts[k..][1..] == attempts[k + 1..];
          last, spurious := attempts[k].others, attempts[k].spurious;
          k := k + 1;
        }
        var ok;
        ok, observed := CompareExchange(observed, candidate, spurious);
        if ok { return candidate; }
      }
    }
  }

  ghost predicate IsRun(events: seq<Event>, clocks: seq<Clock>)
  {
    && |clocks| == |events| + 1 && clocks[0] == START
    && forall n :: 0 <= n < |events| ==> Enabled(clocks[n], events[n]) && clocks[n + 1] == Step(clocks[n], events[n])
  }

  ghost predicate Increasing(c: Clock)
  {
    && (forall i, j :: 0 <= i < j < |c.issued| ==> c.issued[i] < c.issued[j])
    && c.last == if c.issued == [] then 0 else c.issued[|c.issued| - 1]
  }

  /** Whatever the interleaving, the timestamps given out are strictly increasing. */
  lemma {:induction false} StampsIncrease(events: seq<Event>, clocks: seq<Clock>, n: nat)
    requires IsRun(events, clocks) && n <= |events|
    ensures Increasing(clocks[n])
  {
    if n > 0 { StampsIncrease(events, clocks, n - 1); }
  }

  /** A timestamp is not behind the clock reading of the thread that gets it. */
  lemma NotBehind(c: Clock, t: nat)
    requires Enabled(c, Exchange(t, false)) && ThreadOf(c, t).observed == c.last
    ensures var stamp := Step(c, Exchange(t, false)).last;
      && stamp >= ThreadOf(c, t).now && stamp > c.last
      && (stamp == ThreadOf(c, t).now || stamp == c.last + 1)
  {
  }
}
