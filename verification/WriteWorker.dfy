/** The storage write queue: any thread enqueues and flushes, one worker drains in batches, each an
    atomic transaction. The mutex makes each of the steps below atomic. */
module WriteWorker {
  import opened Octets
  import opened Tables

  const MAX_PENDING_WRITES: nat := 4096
  const MAX_BATCH: nat := 64

  /** Waiting for work; with a batch taken off the queue; with the batch's transaction over but not
      yet reported; or returned. */
  datatype Worker = Waiting | Writing(batch: seq<Write>) | Settling | Exited

  datatype Store = Store(queue: seq<Write>, writing: bool, stopping: bool, worker: Worker, db: Database, failed: bool)

  datatype Event =
    | Enqueue(write: Write)
    | TakeBatch
    | Execute(commits: bool)
    | Settle
    | FlushReturns
    | RequestStop
    | Exit

  function Start(db: Database): Store { Store([], false, false, Waiting, db, false) }

  predicate Accepts(s: Store) { !s.stopping && |s.queue| < MAX_PENDING_WRITES }

  predicate Enabled(s: Store, e: Event)
  {
    match e
    case TakeBatch => s.worker.Waiting? && s.queue != []
    case Execute(_) => s.worker.Writing?
    case Settle => s.worker.Settling?
    case FlushReturns => s.queue == [] && !s.writing
    case Exit => s.worker.Waiting? && s.stopping && s.queue == []
    case _ => true
  }

  function BatchSize(s: Store): nat { if |s.queue| <= MAX_BATCH then |s.queue| else MAX_BATCH }

  /** The database after a transaction over the batch: all of it, or nothing when a statement or
      the commit itself fails. */
  function Transacted(db: Database, batch: seq<Write>, commits: bool): Option<Database>
  {
    if commits then ApplyAll(db, batch) else None
  }

  function Step(s: Store, e: Event): Store
    requires Enabled(s, e)
  {
    match e
    case Enqueue(w) => if Accepts(s) then s.(queue := s.queue + [w]) else s.(failed := true)
    case TakeBatch =>
      var n := BatchSize(s);
      s.(writing := true, worker := Writing(s.queue[..n]), queue := s.queue[n..])
    case Execute(commits) =>
      var result := Transacted(s.db, s.worker.batch, commits);
      if result.Some? then s.(worker := Settling, db := result.value) else s.(worker := Settling, failed := true)
    case Settle => s.(worker := Waiting, writing := false)
    case FlushReturns => s
    case RequestStop => s.(stopping := true)
    case Exit => s.(worker := Exited)
  }

  // ---- the same, in place ----

  class WriteQueue {
    var queue: seq<Write>
    var writing: bool
    var stopping: bool
    var worker: Worker
    var db: Database
    var failed: bool

    function State(): Store
      reads this
    {
      Store(queue, writing, stopping, worker, db, failed)
    }

    constructor (initial: Database)
      ensures State() == Start(initial)
    {
      queue, writing, stopping, worker, db, failed := [], false, false, Waiting, initial, false;
    }

    method EnqueueWrite(w: Write) returns (ok: bool)
      modifies this
      ensures ok == Accepts(old(State()))
      ensures State() == Step(old(State()), Enqueue(w))
    {
      if stopping || |queue| >= MAX_PENDING_WRITES {
        failed := true;
        return false;
      }
      queue := queue + [w];
      return true;
    }

    /** The worker's critical section: up to 64 writes move from the queue to the batch. */
    method FormBatch()
      requires Enabled(State(), TakeBatch)
      modifies this
      ensures State() == Step(old(State()), TakeBatch)
    {
      writing := true;
      var count := if |queue| <= MAX_BATCH then |queue| else MAX_BATCH;
      var batch: seq<Write> := [];
      for index := 0 to count
        invariant batch == old(queue)[..index] && queue == old(queue)[index..]
        invariant writing && stopping == old(stopping) && worker == old(worker) && db == old(db) && failed == old(failed)
      {
        batch := batch + [queue[0]];
        queue := queue[1..];
      }
      worker := Writing(batch);
    }

    /** The transaction: the statements one by one until one fails, then commit or roll back. */
    method ExecuteBatch(commits: bool)
      requires worker.Writing?
      modifies this
      ensures State() == Step(old(State()), Execute(commits))
    {
      hide Apply;
      var batch, before := worker.batch, db;
      var index := 0;
      var open := commits;
      while open && index < |batch|
        invariant 0 <= index <= |batch|
        invariant open ==> commits && ApplyAll(before, batch[..index]) == Some(db)
        invariant !open ==> Transacted(before, batch, commits).None?
        invariant queue == old(queue) && writing == old(writing) && stopping == old(stopping) && worker == old(worker)
        invariant failed == old(failed)
        decreases open, |batch| - index
      {
        var next := Apply(db, batch[index]);
        assert batch[..index + 1][..index] == batch[..index];
        if next.Some? {
          db := next.value;
        } else {
          FailureStays(before, batch, index + 1);
          open := false;
        }
        index := index + 1;
      }
      assert open ==> batch[..index] == batch;
      if !open {
        db := before;
        failed := true;
      }
      worker := Settling;
    }

    method ReportSettled()
      requires worker.Settling?
      modifies this
      ensures State() == Step(old(State()), Settle)
    {
      writing := false;
      worker := Waiting;
    }

    method Stop()
      modifies this
      ensures State() == Step(old(State()), RequestStop)
    {
      stopping := true;
    }
  }

  lemma {:induction false} FailureStays(db: Database, ws: seq<Write>, n: nat)
    requires n <= |ws| && ApplyAll(db, ws[..n]).None?
    ensures ApplyAll(db, ws).None?
    decreases |ws|
  {
    hide Apply;
    if n < |ws| {
      var shorter := ws[..|ws| - 1];
      assert shorter[..n] == ws[..n];
      FailureStays(db, shorter, n);
    } else {
      assert ws[..n] == ws;
    }
  }

  // ---- runs ----

  ghost predicate IsRun(db: Database, events: seq<Event>, states: seq<Store>)
  {
    && |states| == |events| + 1
    && states[0] == Start(db)
    && forall i :: 0 <= i < |events| ==> Enabled(states[i], events[i]) && states[i + 1] == Step(states[i], events[i])
  }

  /** The writes accepted in the first `n` events, in order. */
  function Accepted(events: seq<Event>, states: seq<Store>, n: nat): seq<Write>
    requires n <= |events| && |states| == |events| + 1
  {
    if n == 0 then []
    else
      var e := events[n - 1];
      Accepted(events, states, n - 1)
        + if e.Enqueue? && Accepts(states[n - 1]) then [e.write] else []
  }

  datatype Outcome = Outcome(batch: seq<Write>, committed: bool)

  /** The transactions of the first `n` events, in order. */
  function Outcomes(events: seq<Event>, states: seq<Store>, n: nat): seq<Outcome>
    requires n <= |events| && |states| == |events| + 1
  {
    if n == 0 then []
    else
      var e, s := events[n - 1], states[n - 1];
      Outcomes(events, states, n - 1)
        + if e.Execute? && s.worker.Writing?
          then [Outcome(s.worker.batch, Transacted(s.db, s.worker.batch, e.commits).Some?)] else []
  }

  /** All the writes of the transactions, and those of the committed ones. */
  function Processed(outcomes: seq<Outcome>): seq<Write>
  {
    if outcomes == [] then []
    else
      var n := |outcomes| - 1;
      Processed(outcomes[..n]) + outcomes[n].batch
  }

  function Kept(outcomes: seq<Outcome>): seq<Write>
  {
    if outcomes == [] then []
    else
      var n := |outcomes| - 1;
      Kept(outcomes[..n]) + if outcomes[n].committed then outcomes[n].batch else []
  }

  function InFlight(s: Store): seq<Write> { if s.worker.Writing? then s.worker.batch else [] }

  ghost predicate Accounted(db: Database, s: Store, accepted: seq<Write>, outcomes: seq<Outcome>)
  {
    && accepted == Processed(outcomes) + InFlight(s) + s.queue
    && ApplyAll(db, Kept(outcomes)) == Some(s.db)
    && |s.queue| <= MAX_PENDING_WRITES
    && (s.worker.Writing? ==> 1 <= |s.worker.batch| <= MAX_BATCH)
    && (s.writing <==> s.worker.Writing? || s.worker.Settling?)
    && (s.worker.Exited? ==> s.stopping && s.queue == [])
  }

  lemma {:induction false} OneMoreOutcome(outcomes: seq<Outcome>, o: Outcome)
    ensures Processed(outcomes + [o]) == Processed(outcomes) + o.batch
    ensures Kept(outcomes + [o]) == Kept(outcomes) + if o.committed then o.batch else []
  {
    assert (outcomes + [o])[..|outcomes|] == outcomes;
  }

  lemma {:induction false} ExecuteAccounted(db: Database, s: Store, commits: bool, accepted: seq<Write>, outcomes: seq<Outcome>)
    requires Accounted(db, s, accepted, outcomes) && s.worker.Writing?
    ensures Accounted(db, Step(s, Execute(commits)), accepted,
              outcomes + [Outcome(s.worker.batch, Transacted(s.db, s.worker.batch, commits).Some?)])
  {
    hide Apply, ApplyAll, Processed, Kept;
    OneMoreOutcome(outcomes, Outcome(s.worker.batch, Transacted(s.db, s.worker.batch, commits).Some?));
    ApplyAllAppend(db, Kept(outcomes), s.worker.batch);
    assert Kept(outcomes) + [] == Kept(outcomes);
    assert Processed(outcomes) + s.worker.batch + [] + s.queue == Processed(outcomes) + s.worker.batch + s.queue;
  }

  lemma {:induction false} StepAccounted(db: Database, s: Store, e: Event, accepted: seq<Write>, outcomes: seq<Outcome>)
    requires Accounted(db, s, accepted, outcomes) && Enabled(s, e) && !e.Execute?
    ensures Accounted(db, Step(s, e),
              accepted + (if e.Enqueue? && Accepts(s) then [e.write] else []), outcomes)
  {
    hide Apply, ApplyAll, Processed, Kept;
    if e.TakeBatch? { assert s.queue == s.queue[..BatchSize(s)] + s.queue[BatchSize(s)..]; }
  }

  /** At every moment of every run: the accepted writes are, in order, those processed, those in
      flight and those queued; the database is the fold of the committed batches; the queue is
      bounded; and the worker exits only with nothing left. */
  lemma {:induction false} EveryRunAccounted(db: Database, events: seq<Event>, states: seq<Store>, n: nat)
    requires IsRun(db, events, states) && n <= |events|
    ensures Accounted(db, states[n], Accepted(events, states, n), Outcomes(events, states, n))
  {
    hide Apply, Accounted, Step;
    if n == 0 {
      StartAccounted(db);
    } else {
      EveryRunAccounted(db, events, states, n - 1);
      var e, s := events[n - 1], states[n - 1];
      var accepted, outcomes := Accepted(events, states, n - 1), Outcomes(events, states, n - 1);
      assert accepted + [] == accepted && outcomes + [] == outcomes;
      if e.Execute? { ExecuteAccounted(db, s, e.commits, accepted, outcomes); }
      else { StepAccounted(db, s, e, accepted, outcomes); }
    }
  }

  lemma StartAccounted(db: Database)
    ensures Accounted(db, Start(db), [], [])
  {
  }

  lemma {:induction false} AcceptedGrows(events: seq<Event>, states: seq<Store>, m: nat, n: nat)
    requires m <= n <= |events| && |states| == |events| + 1
    ensures Accepted(events, states, m) <= Accepted(events, states, n)
  {
    if m < n { AcceptedGrows(events, states, m, n - 1); }
  }

  /** A flush that returns finds processed everything accepted until then, in particular everything
      accepted before it was called. */
  lemma {:induction false} FlushSeesAll(db: Database, events: seq<Event>, states: seq<Store>, called: nat, n: nat)
    requires IsRun(db, events, states) && called <= n < |events| && events[n] == FlushReturns
    ensures Accepted(events, states, called) <= Processed(Outcomes(events, states, n))
         == Accepted(events, states, n)
  {
    hide ApplyAll, Step;
    EveryRunAccounted(db, events, states, n);
    AcceptedGrows(events, states, called, n);
  }

  lemma {:induction false} ExitedStays(db: Database, events: seq<Event>, states: seq<Store>, m: nat, n: nat)
    requires IsRun(db, events, states) && m <= n <= |events| && states[m].worker.Exited?
    ensures states[n].worker.Exited?
  {
    hide ApplyAll;
    if m < n { ExitedStays(db, events, states, m, n - 1); }
  }

  /** Once the worker has exited, everything ever accepted has been processed. */
  lemma {:induction false} ExitLeavesNothing(db: Database, events: seq<Event>, states: seq<Store>, m: nat, n: nat)
    requires IsRun(db, events, states) && m <= n <= |events| && states[m].worker.Exited?
    ensures Accepted(events, states, n) == Processed(Outcomes(events, states, n))
  {
    hide ApplyAll, Step;
    ExitedStays(db, events, states, m, n);
    EveryRunAccounted(db, events, states, n);
  }

  /** When no batch fails, the database holds every processed write, applied in order. */
  lemma {:induction false} NothingLost(outcomes: seq<Outcome>)
    requires forall i :: 0 <= i < |outcomes| ==> outcomes[i].committed
    ensures Kept(outcomes) == Processed(outcomes)
  {
    if outcomes != [] { NothingLost(outcomes[..|outcomes| - 1]); }
  }
}
