/** Connection attempts: resolver, TCP, TLS and timer handlers may run in any order, also after the
    attempt they belong to has finished or has been replaced by another. */
module Connect {
  import opened Octets

  type AttemptId = nat

  datatype Stage = Resolving | Connecting | Negotiating

  datatype Failure = NoFailure | Dns | Refused | Network | TlsFailure | Timeout | Cancelled

  /** The asynchronous operations started and not yet reported; a timer carries the generation it
      was armed with. */
  datatype Handler =
    | ResolveHandler(attempt: AttemptId)
    | TcpHandler(attempt: AttemptId)
    | TlsHandler(attempt: AttemptId)
    | TimerHandler(attempt: AttemptId, generation: nat)

  datatype Completion = Completion(attempt: AttemptId, failure: Failure)

  /** `lifetime` is the attempt whose token is alive, `callback` the attempt whose completion
      callback is stored; `completions` are the callbacks made; `armed` says for which attempt and
      stage each generation of the timer was armed. */
  datatype Client = Client(
    tls: bool,
    started: nat,
    lifetime: Option<AttemptId>,
    callback: AttemptId,
    connecting: bool,
    generation: nat,
    stage: Stage,
    failure: Failure,
    connected: bool,
    pending: set<Handler>,
    completions: seq<Completion>,
    armed: map<nat, (AttemptId, Stage)>)

  function Initial(tls: bool): Client
  {
    Client(tls, 0, None, 0, false, 0, Resolving, NoFailure, false, {}, [], map[])
  }

  datatype TcpResult = TcpOk | TcpRefused | TcpError

  datatype Event =
    | Start
    | Cancel
    | Resolved(attempt: AttemptId, ok: bool)
    | TcpDone(attempt: AttemptId, result: TcpResult, nameSet: bool)
    | TlsDone(attempt: AttemptId, ok: bool, verified: bool)
    | TimerFired(attempt: AttemptId, generation: nat, aborted: bool)

  predicate Enabled(c: Client, e: Event)
  {
    match e
    case Start => true
    case Cancel => true
    case Resolved(a, _) => ResolveHandler(a) in c.pending
    case TcpDone(a, _, _) => TcpHandler(a) in c.pending
    case TlsDone(a, _, _) => TlsHandler(a) in c.pending
    case TimerFired(a, g, _) => TimerHandler(a, g) in c.pending
  }

  /** `arm_deadline`, for the attempt whose token is alive. */
  function Arm(c: Client, a: AttemptId, stage: Stage): Client
  {
    var g := c.generation + 1;
    c.(generation := g, stage := stage, pending := c.pending + {TimerHandler(a, g)}, armed := c.armed[g := (a, stage)])
  }

  /** `finish_connect`. */
  function Finish(c: Client, failure: Failure): Client
  {
    if !c.connecting then c
    else
      c.(connecting := false, lifetime := None, failure := failure, connected := c.connected || failure == NoFailure,
        completions := c.completions + [Completion(c.callback, failure)])
  }

  /** What every handler checks first. */
  predicate IsLive(c: Client, a: AttemptId) { c.lifetime == Some(a) && c.connecting }

  function Ran(c: Client, h: Handler): Client { c.(pending := c.pending - {h}) }

  function TcpFailure(result: TcpResult): Failure { if result == TcpRefused then Refused else Network }

  function Step(c: Client, e: Event): Client
  {
    match e
    case Start =>
      var a := c.started;
      var begun := c.(started := a + 1, lifetime := Some(a), callback := a, connecting := true, failure := NoFailure);
      var armed := Arm(begun, a, Resolving);
      armed.(pending := armed.pending + {ResolveHandler(a)})
    case Cancel => Finish(c, Cancelled)
    case Resolved(a, ok) =>
      var ran := Ran(c, ResolveHandler(a));
      if !IsLive(c, a) then ran
      else if !ok then Finish(ran, Dns)
      else
        var armed := Arm(ran, a, Connecting);
        armed.(pending := armed.pending + {TcpHandler(a)})
    case TcpDone(a, result, nameSet) =>
      var ran := Ran(c, TcpHandler(a));
      if !IsLive(c, a) then ran
      else if result != TcpOk then Finish(ran, TcpFailure(result))
      else if !c.tls then Finish(ran, NoFailure)
      else
        var armed := Arm(ran, a, Negotiating);
        if !nameSet then Finish(armed, TlsFailure) else armed.(pending := armed.pending + {TlsHandler(a)})
    case TlsDone(a, ok, verified) =>
      var ran := Ran(c, TlsHandler(a));
      if !IsLive(c, a) then ran
      else Finish(ran, if ok && verified then NoFailure else TlsFailure)
    case TimerFired(a, g, aborted) =>
      var ran := Ran(c, TimerHandler(a, g));
      if IsLive(c, a) && !aborted && g == c.generation then Finish(ran, Timeout) else ran
  }

  // ---- the same, in place ----

  class Connector {
    const tls: bool
    var started: nat
    var lifetime: Option<AttemptId>
    var callback: AttemptId
    var connecting: bool
    var generation: nat
    var stage: Stage
    var failure: Failure
    var connected: bool
    var pending: set<Handler>
    var completions: seq<Completion>
    var armed: map<nat, (AttemptId, Stage)>

    function State(): Client
      reads this
    {
      Client(tls, started, lifetime, callback, connecting, generation, stage, failure, connected, pending, completions, armed)
    }

    constructor (useTls: bool)
      ensures State() == Initial(useTls)
    {
      tls := useTls;
      started, lifetime, callback, connecting, generation := 0, None, 0, false, 0;
      stage, failure, connected, pending, completions, armed := Resolving, NoFailure, false, {}, [], map[];
    }

    method ArmDeadline(a: AttemptId, next: Stage)
      modifies this
      ensures State() == old(Arm(State(), a, next))
    {
      stage := next;
      generation := generation + 1;
      pending := pending + {TimerHandler(a, generation)};
      armed := armed[generation := (a, next)];
    }

    method FinishConnect(reason: Failure)
      modifies this
      ensures State() == old(Finish(State(), reason))
    {
      if !connecting { return; }
      connecting := false;
      lifetime := None;
      failure := reason;
      if reason == NoFailure { connected := true; }
      completions := completions + [Completion(callback, reason)];
    }

    method AsyncConnect()
      modifies this
      ensures State() == old(Step(State(), Start))
    {
      var attempt := started;
      started := attempt + 1;
      lifetime := Some(attempt);
      failure := NoFailure;
      callback := attempt;
      connecting := true;
      ArmDeadline(attempt, Resolving);
      pending := pending + {ResolveHandler(attempt)};
    }

    method CancelConnect()
      modifies this
      ensures State() == old(Step(State(), Cancel))
    {
      if connecting { FinishConnect(Cancelled); }
    }

    method OnResolved(a: AttemptId, ok: bool)
      modifies this
      ensures State() == old(Step(State(), Resolved(a, ok)))
    {
      pending := pending - {ResolveHandler(a)};
      if lifetime != Some(a) || !connecting { return; }
      if !ok {
        FinishConnect(Dns);
        return;
      }
      ArmDeadline(a, Connecting);
      pending := pending + {TcpHandler(a)};
    }

    method OnTcpDone(a: AttemptId, result: TcpResult, nameSet: bool)
      modifies this
      ensures State() == old(Step(State(), TcpDone(a, result, nameSet)))
    {
      pending := pending - {TcpHandler(a)};
      if lifetime != Some(a) || !connecting { return; }
      if result != TcpOk {
        FinishConnect(if result == TcpRefused then Refused else Network);
        return;
      }
      if !tls {
        FinishConnect(NoFailure);
        return;
      }
      ArmDeadline(a, Negotiating);
      if !nameSet {
        FinishConnect(TlsFailure);
        return;
      }
      pending := pending + {TlsHandler(a)};
    }

    method OnTlsDone(a: AttemptId, ok: bool, verified: bool)
      modifies this
      ensures State() == old(Step(State(), TlsDone(a, ok, verified)))
    {
      pending := pending - {TlsHandler(a)};
      if lifetime != Some(a) || !connecting { return; }
      if !ok || !verified {
        FinishConnect(TlsFailure);
        return;
      }
      FinishConnect(NoFailure);
    }

    method OnTimer(a: AttemptId, g: nat, aborted: bool)
      modifies this
      ensures State() == old(Step(State(), TimerFired(a, g, aborted)))
    {
      pending := pending - {TimerHandler(a, g)};
      if lifetime == Some(a) && !aborted && connecting && g == generation { FinishConnect(Timeout); }
    }
  }

  // ---- runs ----

  ghost predicate IsRun(tls: bool, events: seq<Event>, states: seq<Client>)
  {
    && |states| == |events| + 1 && states[0] == Initial(tls)
    && forall n :: 0 <= n < |events| ==> Enabled(states[n], events[n]) && states[n + 1] == Step(states[n], events[n])
  }

  /** What holds of the client at every moment. */
  ghost predicate Coherent(c: Client)
  {
    && (c.connecting <==> c.lifetime.Some?)
    && (c.lifetime.Some? ==> c.lifetime == Some(c.callback) && c.callback + 1 == c.started)
    && (forall k :: 0 <= k < |c.completions| ==> c.completions[k].attempt < c.started)
    && (c.connecting ==> forall k :: 0 <= k < |c.completions| ==> c.completions[k].attempt < c.callback)
    && (forall j, k :: 0 <= j < k < |c.completions| ==> c.completions[j].attempt < c.completions[k].attempt)
  }

  /** The three things a step can do to the attempt: nothing, finish it, or replace it. */
  lemma StepShape(c: Client, e: Event)
    ensures var t := Step(c, e);
      && t.tls == c.tls
      && (|| (!e.Start? && t.connecting == c.connecting && t.lifetime == c.lifetime && t.callback == c.callback
               && t.started == c.started && t.completions == c.completions)
          || (!e.Start? && c.connecting && !t.connecting && t.lifetime == None && t.callback == c.callback
               && t.started == c.started && t.completions == c.completions + [Completion(c.callback, t.failure)])
          || (e.Start? && t.connecting && t.lifetime == Some(c.started) && t.callback == c.started
               && t.started == c.started + 1 && t.completions == c.completions))
  {
  }

  lemma StepCoherent(c: Client, e: Event)
    requires Coherent(c)
    ensures Coherent(Step(c, e)) && Step(c, e).tls == c.tls
  {
    hide Step;
    StepShape(c, e);
  }

  lemma {:induction false} RunCoherent(tls: bool, events: seq<Event>, states: seq<Client>, n: nat)
    requires IsRun(tls, events, states) && n <= |events|
    ensures Coherent(states[n]) && states[n].tls == tls
  {
    hide Coherent, Step;
    if n == 0 {
      InitialCoherent(tls);
    } else {
      RunCoherent(tls, events, states, n - 1);
      StepCoherent(states[n - 1], events[n - 1]);
    }
  }

  lemma InitialCoherent(tls: bool)
    ensures Coherent(Initial(tls))
  {
  }

  predicate Completed(c: Client, a: AttemptId) { exists k :: 0 <= k < |c.completions| && c.completions[k].attempt == a }

  /** No attempt's callback is made twice. */
  lemma {:induction false} CompletesAtMostOnce(tls: bool, events: seq<Event>, states: seq<Client>, n: nat, j: nat, k: nat)
    requires IsRun(tls, events, states) && n <= |events|
    requires j < |states[n].completions| && k < |states[n].completions|
    requires states[n].completions[j].attempt == states[n].completions[k].attempt
    ensures j == k
  {
    hide Step;
    RunCoherent(tls, events, states, n);
  }

  /** The events that end a live attempt `a`, and how. */
  function Ending(c: Client, e: Event, a: AttemptId): Option<Failure>
  {
    match e
    case Start => None
    case Cancel => Some(Cancelled)
    case Resolved(b, ok) => if b == a && !ok then Some(Dns) else None
    case TcpDone(b, result, nameSet) =>
      if b != a then None
      else if result != TcpOk then Some(TcpFailure(result))
      else if !c.tls then Some(NoFailure)
      else if !nameSet then Some(TlsFailure)
      else None
    case TlsDone(b, ok, verified) =>
      if b != a then None else if ok && verified then Some(NoFailure) else Some(TlsFailure)
    case TimerFired(b, g, aborted) =>
      if b == a && !aborted && g == c.generation then Some(Timeout) else None
  }

  /** A step completes something exactly when an attempt is live and the event ends it; then the
      attempt completes with that outcome. */
  lemma StepCompletes(c: Client, e: Event)
    requires Coherent(c)
    ensures var t := Step(c, e);
      && (c.lifetime.None? ==> t.completions == c.completions)
      && (c.lifetime.Some? && Ending(c, e, c.lifetime.value).None? ==>
            t.completions == c.completions && (e.Start? || t.lifetime == c.lifetime))
      && (c.lifetime.Some? && Ending(c, e, c.lifetime.value).Some? ==>
            && t.completions == c.completions + [Completion(c.lifetime.value, Ending(c, e, c.lifetime.value).value)]
            && t.lifetime == None)
      && (e.Start? ==> t.lifetime == Some(c.started) && t.started == c.started + 1)
      && (!e.Start? ==> t.started == c.started && (t.lifetime == c.lifetime || t.lifetime == None))
  {
  }

  /** The event at `m` starts attempt `a`, and until `n` no other is started. */
  ghost predicate Runs(events: seq<Event>, states: seq<Client>, m: nat, n: nat, a: AttemptId)
  {
    && m < n <= |events| < |states| && events[m].Start? && states[m].started == a
    && forall k :: m < k < n ==> !events[k].Start?
  }

  ghost predicate EndsAt(events: seq<Event>, states: seq<Client>, m: nat, k: nat, a: AttemptId)
  {
    && m < k < |events| < |states| && Ending(states[k], events[k], a).Some?
    && forall j :: m < j < k ==> Ending(states[j], events[j], a).None?
  }

  /** An attempt that is not superseded is live, and not completed, until an event ends it. */
  lemma {:induction false} LiveUntilEnded(tls: bool, events: seq<Event>, states: seq<Client>, m: nat, n: nat, a: AttemptId)
    requires IsRun(tls, events, states) && Runs(events, states, m, n, a)
    requires forall k :: m < k < n ==> Ending(states[k], events[k], a).None?
    ensures states[n].lifetime == Some(a) && states[n].connecting && states[n].started == a + 1 && !Completed(states[n], a)
    decreases n
  {
    hide Step, Ending, Enabled;
    RunCoherent(tls, events, states, n - 1);
    RunCoherent(tls, events, states, n);
    StepCompletes(states[n - 1], events[n - 1]);
    if m < n - 1 { LiveUntilEnded(tls, events, states, m, n - 1, a); }
  }

  /** The first event that ends it completes it, with the outcome of that event, and it stays so. */
  lemma {:induction false} EndedByFirst(tls: bool, events: seq<Event>, states: seq<Client>, m: nat, k: nat, n: nat, a: AttemptId)
    requires IsRun(tls, events, states) && Runs(events, states, m, n, a) && EndsAt(events, states, m, k, a) && k < n
    ensures states[n].lifetime == None && !states[n].connecting && states[n].completions != []
    ensures states[n].completions[|states[n].completions| - 1] == Completion(a, Ending(states[k], events[k], a).value)
    decreases n
  {
    hide Step, Ending, Enabled;
    RunCoherent(tls, events, states, n - 1);
    RunCoherent(tls, events, states, n);
    StepCompletes(states[n - 1], events[n - 1]);
    if k < n - 1 { EndedByFirst(tls, events, states, m, k, n - 1, a); }
    else { LiveUntilEnded(tls, events, states, m, k, a); }
  }

  /** Unless superseded, an attempt has completed exactly when some event has ended it. */
  lemma {:induction false} CompletesOnFirstEnding(tls: bool, events: seq<Event>, states: seq<Client>, m: nat, n: nat, a: AttemptId)
    requires IsRun(tls, events, states) && Runs(events, states, m, n, a)
    ensures Completed(states[n], a) <==> exists k: nat :: k < n && EndsAt(events, states, m, k, a)
  {
    hide Step, Ending, Enabled;
    if forall k :: m < k < n ==> Ending(states[k], events[k], a).None? {
      LiveUntilEnded(tls, events, states, m, n, a);
    } else {
      var k :| m < k < n && Ending(states[k], events[k], a).Some?;
      FirstEnding(events, states, m, k, a);
      var j: nat :| j <= k && EndsAt(events, states, m, j, a);
      EndedByFirst(tls, events, states, m, j, n, a);
    }
  }

  lemma {:induction false} FirstEnding(events: seq<Event>, states: seq<Client>, m: nat, k: nat, a: AttemptId)
    requires m < k < |events| < |states| && Ending(states[k], events[k], a).Some?
    ensures exists j: nat :: j <= k && EndsAt(events, states, m, j, a)
    decreases k
  {
    hide Ending;
    if j :| m < j < k && Ending(states[j], events[j], a).Some? {
      FirstEnding(events, states, m, j, a);
    } else {
      assert EndsAt(events, states, m, k, a);
    }
  }

  /** A handler of an attempt that has finished or been superseded changes nothing. */
  lemma StaleHandlersDoNothing(c: Client, e: Event)
    requires Enabled(c, e) && !e.Start? && !e.Cancel? && !IsLive(c, e.attempt)
    ensures Step(c, e) == c.(pending := Step(c, e).pending) && Step(c, e).pending < c.pending
  {
  }

  // ---- timers ----

  ghost predicate Timed(c: Client)
  {
    && (forall a: nat, g: nat :: TimerHandler(a, g) in c.pending ==> g <= c.generation && g in c.armed && c.armed[g].0 == a)
    && (c.lifetime.Some? ==> c.generation in c.armed && c.armed[c.generation] == (c.lifetime.value, c.stage))
  }

  lemma StepTimed(c: Client, e: Event)
    requires Timed(c) && Coherent(c)
    ensures Timed(Step(c, e))
  {
  }

  lemma {:induction false} RunTimed(tls: bool, events: seq<Event>, states: seq<Client>, n: nat)
    requires IsRun(tls, events, states) && n <= |events|
    ensures Timed(states[n])
  {
    hide Timed, Step, Coherent;
    if n == 0 {
      InitialTimed(tls);
    } else {
      RunTimed(tls, events, states, n - 1);
      RunCoherent(tls, events, states, n - 1);
      StepTimed(states[n - 1], events[n - 1]);
    }
  }

  lemma InitialTimed(tls: bool)
    ensures Timed(Initial(tls))
  {
  }

  /** Only the timer armed for the present stage of the live attempt can time it out. */
  lemma {:induction false} TimesOutItsOwnStage(tls: bool, events: seq<Event>, states: seq<Client>, n: nat)
    requires IsRun(tls, events, states) && n < |events| && events[n].TimerFired?
    requires states[n + 1].completions != states[n].completions
    ensures var c, g := states[n], events[n].generation;
      && g in c.armed && c.armed[g] == (events[n].attempt, c.stage) && c.lifetime == Some(events[n].attempt)
      && states[n + 1].completions == c.completions + [Completion(events[n].attempt, Timeout)]
  {
    hide Coherent, Step;
    RunTimed(tls, events, states, n);
    RunCoherent(tls, events, states, n);
    StepCompletes(states[n], events[n]);
    TimerOnlyLive(states[n], events[n]);
  }

  lemma TimerOnlyLive(c: Client, e: Event)
    requires e.TimerFired? && Coherent(c) && Step(c, e).completions != c.completions
    ensures c.lifetime == Some(e.attempt) && e.generation == c.generation
  {
  }

  // ---- success ----

  ghost predicate DidResolve(events: seq<Event>, n: nat, a: AttemptId)
  {
    exists k :: 0 <= k < n <= |events| && events[k] == Resolved(a, true)
  }

  ghost predicate DidConnect(events: seq<Event>, n: nat, a: AttemptId)
  {
    exists k :: 0 <= k < n <= |events| && events[k].TcpDone? && events[k].attempt == a && events[k].result == TcpOk
  }

  ghost predicate DidVerify(events: seq<Event>, n: nat, a: AttemptId)
  {
    exists k :: 0 <= k < n <= |events| && events[k] == TlsDone(a, true, true)
  }

  ghost predicate Pending(c: Client, events: seq<Event>, n: nat)
  {
    && (forall h :: h in c.pending ==> h.attempt < c.started)
    && (forall a: nat :: TcpHandler(a) in c.pending ==> DidResolve(events, n, a))
    && (forall a: nat :: TlsHandler(a) in c.pending ==> DidResolve(events, n, a) && DidConnect(events, n, a))
  }

  /** Every success so far was earned stage by stage. */
  ghost predicate Earned(c: Client, events: seq<Event>, n: nat)
  {
    forall k :: 0 <= k < |c.completions| && c.completions[k].failure == NoFailure ==>
      var a := c.completions[k].attempt;
      DidResolve(events, n, a) && DidConnect(events, n, a) && (c.tls ==> DidVerify(events, n, a))
  }

  lemma {:induction false} Later(events: seq<Event>, n: nat, a: AttemptId)
    requires n < |events|
    ensures DidResolve(events, n, a) ==> DidResolve(events, n + 1, a)
    ensures DidConnect(events, n, a) ==> DidConnect(events, n + 1, a)
    ensures DidVerify(events, n, a) ==> DidVerify(events, n + 1, a)
    ensures events[n] == Resolved(a, true) ==> DidResolve(events, n + 1, a)
    ensures events[n].TcpDone? && events[n].attempt == a && events[n].result == TcpOk ==> DidConnect(events, n + 1, a)
    ensures events[n] == TlsDone(a, true, true) ==> DidVerify(events, n + 1, a)
  {
  }

  /** Where new handlers come from. */
  lemma NewHandlers(c: Client, e: Event, h: Handler)
    requires Enabled(c, e) && h in Step(c, e).pending
    ensures h in c.pending || (e.Start? && h.attempt == c.started) || (!e.Start? && !e.Cancel? && h.attempt == e.attempt && c.lifetime == Some(e.attempt))
    ensures h in c.pending || h.ResolveHandler? || h.TimerHandler?
         || (h.TcpHandler? && e == Resolved(h.attempt, true))
         || (h.TlsHandler? && e.TcpDone? && e.attempt == h.attempt && e.result == TcpOk && TcpHandler(h.attempt) in c.pending)
  {
  }

  lemma {:induction false} StepPending(c: Client, events: seq<Event>, n: nat)
    requires n < |events| && Enabled(c, events[n]) && Pending(c, events, n) && Coherent(c)
    ensures Pending(Step(c, events[n]), events, n + 1)
  {
    var t := Step(c, events[n]);
    hide DidResolve, DidConnect, DidVerify, Step, Enabled;
    StepShape(c, events[n]);
    forall h | h in t.pending ensures h.attempt < t.started {
      NewHandlers(c, events[n], h);
    }
    forall a: nat | TcpHandler(a) in t.pending ensures DidResolve(events, n + 1, a) {
      Later(events, n, a);
      NewHandlers(c, events[n], TcpHandler(a));
    }
    forall a: nat | TlsHandler(a) in t.pending ensures DidResolve(events, n + 1, a) && DidConnect(events, n + 1, a) {
      Later(events, n, a);
      NewHandlers(c, events[n], TlsHandler(a));
    }
  }

  lemma SuccessIs(c: Client, e: Event)
    requires Coherent(c) && Enabled(c, e)
    ensures var t := Step(c, e);
      t.completions == c.completions
      || (c.lifetime.Some? && t.completions == c.completions + [Completion(c.lifetime.value, t.failure)]
          && (t.failure == NoFailure ==>
                if c.tls then e == TlsDone(c.lifetime.value, true, true)
                else (e.TcpDone? && e.attempt == c.lifetime.value && e.result == TcpOk) || e == TlsDone(c.lifetime.value, true, true)))
  {
  }

  lemma {:induction false} StepEarned(c: Client, events: seq<Event>, n: nat)
    requires n < |events| && Enabled(c, events[n]) && Pending(c, events, n) && Earned(c, events, n) && Coherent(c)
    ensures Earned(Step(c, events[n]), events, n + 1)
  {
    hide DidResolve, DidConnect, DidVerify, Step;
    var e, t := events[n], Step(c, events[n]);
    SuccessIs(c, e);
    StepCoherent(c, e);
    forall k | 0 <= k < |t.completions| && t.completions[k].failure == NoFailure
      ensures var a := t.completions[k].attempt;
              DidResolve(events, n + 1, a) && DidConnect(events, n + 1, a) && (t.tls ==> DidVerify(events, n + 1, a))
    {
      Later(events, n, t.completions[k].attempt);
    }
  }

  /** An attempt that succeeds has resolved and connected, and with TLS its handshake and the
      verification of the peer have succeeded. */
  lemma {:induction false} SuccessIsEarned(tls: bool, events: seq<Event>, states: seq<Client>, n: nat)
    requires IsRun(tls, events, states) && n <= |events|
    ensures Pending(states[n], events, n) && Earned(states[n], events, n)
  {
    hide Step, Coherent, DidResolve, DidConnect, DidVerify;
    if n > 0 {
      SuccessIsEarned(tls, events, states, n - 1);
      RunCoherent(tls, events, states, n - 1);
      StepPending(states[n - 1], events, n - 1);
      StepEarned(states[n - 1], events, n - 1);
    }
  }
}
