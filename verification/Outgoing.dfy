/** The outgoing half of a session: `deliver`, `write_next`, `close` and `abort`, whose bodies run
    as tasks posted to the session's executor, interleaved with write completions. */
module Outgoing {
  import opened Octets
  import opened Base64
  import opened Messages
  import opened Frames

  datatype Task = Push(wire: Text) | Close | Abort

  /** `tasks` are the posted closures not yet run, oldest first; `outstanding` says that an
      `async_write` of the front of the queue has been started and has not completed, `progress`
      how much of it the transport has taken; `sent` is everything the transport has taken. */
  datatype Writer = Writer(
    tasks: seq<Task>, queue: seq<Text>, outstanding: bool, progress: nat,
    closeAfterWrite: bool, suppressLeaveNotice: bool, open: bool, sent: Text)

  datatype Event =
    | Deliver(message: ServerMessage)
    | CallClose
    | CallAbort
    | RunTask
    | Transfer(count: nat)
    | WriteDone
    | WriteFailed

  const START := Writer([], [], false, 0, false, false, true, [])

  predicate Enabled(w: Writer, e: Event)
  {
    match e
    case RunTask => w.tasks != []
    case Transfer(n) => w.open && w.outstanding && w.queue != [] && w.progress + n <= |w.queue[0]|
    case WriteDone => w.outstanding && w.queue != [] && w.progress == |w.queue[0]|
    case WriteFailed => w.outstanding
    case _ => true
  }

  function StartWrite(w: Writer): Writer { w.(outstanding := true, progress := 0) }

  function Run(w: Writer, t: Task): Writer
  {
    match t
    case Push(wire) =>
      var pushed := w.(queue := w.queue + [wire]);
      if w.queue != [] then pushed else StartWrite(pushed)
    case Close =>
      if w.queue != [] then w.(suppressLeaveNotice := true, closeAfterWrite := true)
      else w.(suppressLeaveNotice := true, open := false)
    case Abort => w.(suppressLeaveNotice := true, open := false)
  }

  function Step(w: Writer, e: Event): Writer
    requires Enabled(w, e)
  {
    match e
    case Deliver(m) =>
      var encoded := EncodeServerFrame(m);
      if encoded.Ok? then w.(tasks := w.tasks + [Push(encoded.value)]) else w
    case CallClose => w.(tasks := w.tasks + [Close])
    case CallAbort => w.(tasks := w.tasks + [Abort])
    case RunTask => Run(w.(tasks := w.tasks[1..]), w.tasks[0])
    case Transfer(n) =>
      w.(sent := w.sent + w.queue[0][w.progress..w.progress + n], progress := w.progress + n)
    case WriteDone =>
      var rest := w.(queue := w.queue[1..]);
      if rest.queue != [] then StartWrite(rest)
      else if w.closeAfterWrite then rest.(outstanding := false, open := false)
      else rest.(outstanding := false)
    case WriteFailed => w.(outstanding := false)
  }

  /** The session's side of the machine; the transport's is left to its caller. */
  class SessionWriter {
    var tasks: seq<Task>
    var queue: seq<Text>
    var outstanding: bool
    var progress: nat
    var closeAfterWrite: bool
    var suppressLeaveNotice: bool
    var open: bool
    var sent: Text

    function State(): Writer
      reads this
    {
      Writer(tasks, queue, outstanding, progress, closeAfterWrite, suppressLeaveNotice, open, sent)
    }

    constructor ()
      ensures State() == START
    {
      tasks, queue, outstanding, progress := [], [], false, 0;
      closeAfterWrite, suppressLeaveNotice, open, sent := false, false, true, [];
    }

    method DeliverMessage(m: ServerMessage)
      modifies this
      ensures State() == Step(old(State()), Deliver(m))
    {
      hide EncodeServerFrame;
      var encoded := EncodeServerFrame(m);
      if encoded.Err? { return; }
      tasks := tasks + [Push(encoded.value)];
    }

    method PostClose()
      modifies this
      ensures State() == Step(old(State()), CallClose)
    {
      tasks := tasks + [Close];
    }

    method PostAbort()
      modifies this
      ensures State() == Step(old(State()), CallAbort)
    {
      tasks := tasks + [Abort];
    }

    method WriteNext()
      modifies this`outstanding, this`progress
      ensures State() == StartWrite(old(State()))
    {
      outstanding, progress := true, 0;
    }

    method RunNextTask()
      requires tasks != []
      modifies this
      ensures State() == Step(old(State()), RunTask)
    {
      var task := tasks[0];
      tasks := tasks[1..];
      match task {
        case Push(wire) =>
          var writing := queue != [];
          queue := queue + [wire];
          if !writing { WriteNext(); }
        case Close =>
          suppressLeaveNotice := true;
          if queue != [] {
            closeAfterWrite := true;
          } else {
            open := false;
          }
        case Abort =>
          suppressLeaveNotice := true;
          open := false;
      }
    }

    method OnWriteDone()
      requires Enabled(State(), WriteDone)
      modifies this
      ensures State() == Step(old(State()), WriteDone)
    {
      queue := queue[1..];
      if queue != [] {
        WriteNext();
        return;
      }
      outstanding := false;
      if closeAfterWrite { open := false; }
    }
  }

  // ---- runs ----

  ghost predicate IsRun(events: seq<Event>, states: seq<Writer>)
  {
    && |states| == |events| + 1
    && states[0] == START
    && forall i :: 0 <= i < |events| ==> Enabled(states[i], events[i]) && states[i + 1] == Step(states[i], events[i])
  }

  /** Neither a failed write nor an abort. */
  ghost predicate ErrorFree(events: seq<Event>)
  {
    forall i :: 0 <= i < |events| ==> !events[i].WriteFailed? && !events[i].CallAbort?
  }

  /** The messages delivered so far that have an encoding, in order. */
  function Posted(events: seq<Event>): seq<ServerMessage>
  {
    if events == [] then []
    else
      var last := events[|events| - 1];
      Posted(events[..|events| - 1])
        + if last.Deliver? && EncodeServerFrame(last.message).Ok? then [last.message] else []
  }

  function WiresOf(messages: seq<ServerMessage>): (wires: seq<Text>)
    requires forall i :: 0 <= i < |messages| ==> EncodeServerFrame(messages[i]).Ok?
    ensures |wires| == |messages|
  {
    seq(|messages|, i requires 0 <= i < |messages| => EncodeServerFrame(messages[i]).value)
  }

  /** How many messages had been posted when `close()` was first called, if it was. */
  function PostedBeforeClose(events: seq<Event>): Option<nat>
  {
    if events == [] then None
    else
      var before := events[..|events| - 1];
      var earlier := PostedBeforeClose(before);
      if earlier.Some? then earlier
      else if events[|events| - 1].CallClose? then Some(|Posted(before)|) else None
  }

  function Pushes(tasks: seq<Task>): seq<Text>
  {
    if tasks == [] then []
    else (if tasks[0].Push? then [tasks[0].wire] else []) + Pushes(tasks[1..])
  }

  /** The pushes posted before the first close still waiting to run. */
  function PushesBeforeClose(tasks: seq<Task>): nat
  {
    if tasks == [] || tasks[0].Close? then 0
    else (if tasks[0].Push? then 1 else 0) + PushesBeforeClose(tasks[1..])
  }

  ghost predicate HasClose(tasks: seq<Task>) { exists i :: 0 <= i < |tasks| && tasks[i].Close? }

  /** `done` wires have been written in full; then come the queue and the waiting pushes. */
  ghost predicate Accounted(w: Writer, wires: seq<Text>, done: nat)
  {
    && done + |w.queue| <= |wires|
    && w.queue == wires[done..done + |w.queue|]
    && Pushes(w.tasks) == wires[done + |w.queue|..]
    && w.progress <= (if w.queue == [] then w.progress else |w.queue[0]|)
    && w.sent == Concat(wires[..done]) + (if w.queue == [] then [] else w.queue[0][..w.progress])
    && (w.outstanding <==> w.queue != [])
    && (forall i :: 0 <= i < |w.tasks| ==> !w.tasks[i].Abort?)
  }

  /** What the first `close()` has done so far, when `before` wires were posted ahead of it. */
  ghost predicate Closing(w: Writer, before: Option<nat>, done: nat)
  {
    match before
    case None => w.open && !w.closeAfterWrite && !HasClose(w.tasks)
    case Some(n) =>
      if w.open && !w.closeAfterWrite then
        HasClose(w.tasks) && n == done + |w.queue| + PushesBeforeClose(w.tasks)
      else
        && n <= done + |w.queue|
        && (w.open ==> w.queue != [])
        && (!w.open ==> n <= done)
  }

  lemma {:induction false} PushesAppend(tasks: seq<Task>, t: Task)
    ensures Pushes(tasks + [t]) == Pushes(tasks) + if t.Push? then [t.wire] else []
    ensures HasClose(tasks + [t]) <==> HasClose(tasks) || t.Close?
    ensures HasClose(tasks) ==> PushesBeforeClose(tasks + [t]) == PushesBeforeClose(tasks)
    ensures !HasClose(tasks) ==> PushesBeforeClose(tasks) == |Pushes(tasks)|
    ensures !HasClose(tasks) ==> PushesBeforeClose(tasks + [t]) == |Pushes(tasks + [t])|
  {
    var all := tasks + [t];
    if tasks != [] {
      PushesAppend(tasks[1..], t);
      assert all[1..] == tasks[1..] + [t];
      HasCloseCons(tasks);
      HasCloseCons(all);
    } else {
      assert all[1..] == [] && all == [t];
      assert all[0] == t;
    }
  }

  lemma {:induction false} HasCloseCons(tasks: seq<Task>)
    requires tasks != []
    ensures HasClose(tasks) <==> tasks[0].Close? || HasClose(tasks[1..])
  {
    if HasClose(tasks) && !tasks[0].Close? {
      var i :| 0 <= i < |tasks| && tasks[i].Close?;
      assert tasks[1..][i - 1].Close?;
    }
    if HasClose(tasks[1..]) {
      var i :| 0 <= i < |tasks[1..]| && tasks[1..][i].Close?;
      assert tasks[i + 1].Close?;
    }
  }

  ghost predicate Good(w: Writer, wires: seq<Text>, before: Option<nat>, done: nat)
  {
    Accounted(w, wires, done) && Closing(w, before, done)
  }

  lemma {:induction false} PostPush(w: Writer, wires: seq<Text>, before: Option<nat>, done: nat, wire: Text)
    requires Good(w, wires, before, done)
    ensures Good(w.(tasks := w.tasks + [Push(wire)]), wires + [wire], before, done)
  {
    PushesAppend(w.tasks, Push(wire));
    var all := wires + [wire];
    assert all[..done] == wires[..done];
    assert all[done..done + |w.queue|] == wires[done..done + |w.queue|];
    assert all[done + |w.queue|..] == wires[done + |w.queue|..] + [wire];
  }

  lemma {:induction false} PostFirstClose(w: Writer, wires: seq<Text>, before: Option<nat>, done: nat)
    requires Good(w, wires, before, done)
    ensures Good(w.(tasks := w.tasks + [Close]), wires, if before.Some? then before else Some(|wires|), done)
  {
    PushesAppend(w.tasks, Close);
    if before.None? {
      CloseAppended(w.tasks);
      assert |wires| == done + |w.queue| + |Pushes(w.tasks)|;
    }
  }

  lemma {:induction false} CloseAppended(tasks: seq<Task>)
    requires !HasClose(tasks)
    ensures PushesBeforeClose(tasks + [Close]) == |Pushes(tasks)|
  {
    if tasks != [] {
      HasCloseCons(tasks);
      CloseAppended(tasks[1..]);
      assert (tasks + [Close])[1..] == tasks[1..] + [Close];
    } else {
      assert (tasks + [Close])[0] == Close;
    }
  }

  lemma {:induction false} PushAccounts(w: Writer, wires: seq<Text>, done: nat)
    requires Accounted(w, wires, done) && w.tasks != [] && w.tasks[0].Push?
    ensures Accounted(Run(w.(tasks := w.tasks[1..]), w.tasks[0]), wires, done)
  {
    hide Concat;
    var n, wire := done + |w.queue|, w.tasks[0].wire;
    var rest := Pushes(w.tasks[1..]);
    assert Pushes(w.tasks) == [wire] + rest;
    assert wires[n..] == [wire] + rest;
    hide Pushes;
    assert wires[n] == wires[n..][0] == wire;
    assert wires[n + 1..] == wires[n..][1..] == rest;
    assert wires[done..n + 1] == wires[done..n] + [wires[n]];
    if w.queue == [] { assert wire[..0] == []; }
  }

  lemma {:induction false} CloseAccounts(w: Writer, wires: seq<Text>, done: nat)
    requires Accounted(w, wires, done) && w.tasks != [] && !w.tasks[0].Push?
    ensures Accounted(Run(w.(tasks := w.tasks[1..]), w.tasks[0]), wires, done)
  {
    hide Concat;
    assert Pushes(w.tasks) == Pushes(w.tasks[1..]);
    hide Pushes;
  }

  lemma {:induction false} RunCloses(w: Writer, wires: seq<Text>, before: Option<nat>, done: nat)
    requires Good(w, wires, before, done) && w.tasks != []
    ensures Closing(Step(w, RunTask), before, done)
  {
    hide Concat, Pushes;
    HasCloseCons(w.tasks);
  }

  lemma {:induction false} RunKeeps(w: Writer, wires: seq<Text>, before: Option<nat>, done: nat)
    requires Good(w, wires, before, done) && w.tasks != []
    ensures Good(Step(w, RunTask), wires, before, done)
  {
    hide Accounted, Closing, Run, EncodeServerFrame;
    if w.tasks[0].Push? { PushAccounts(w, wires, done); } else { CloseAccounts(w, wires, done); }
    RunCloses(w, wires, before, done);
  }

  lemma {:induction false} TransferKeeps(w: Writer, wires: seq<Text>, before: Option<nat>, done: nat, count: nat)
    requires Good(w, wires, before, done) && Enabled(w, Transfer(count))
    ensures Good(Step(w, Transfer(count)), wires, before, done)
  {
    var front := w.queue[0];
    assert front[..w.progress] + front[w.progress..w.progress + count] == front[..w.progress + count];
  }

  lemma {:induction false} WriteDoneKeeps(w: Writer, wires: seq<Text>, before: Option<nat>, done: nat)
    requires Good(w, wires, before, done) && Enabled(w, WriteDone)
    ensures Good(Step(w, WriteDone), wires, before, done + 1)
  {
    var front := w.queue[0];
    assert wires[done] == front by { assert wires[done..done + |w.queue|][0] == wires[done]; }
    assert front[..w.progress] == front;
    assert wires[..done + 1] == wires[..done] + [front];
    ConcatAppend(wires[..done], front);
    assert w.queue[1..] == wires[done + 1..done + |w.queue|];
  }

  lemma {:induction false} ConcatAppend(frames: seq<Text>, last: Text)
    ensures Concat(frames + [last]) == Concat(frames) + last
  {
    if frames != [] {
      ConcatAppend(frames[1..], last);
      assert (frames + [last])[1..] == frames[1..] + [last];
    } else {
      assert (frames + [last])[1..] == [];
    }
  }

  lemma {:induction false} PostedEncode(events: seq<Event>)
    ensures forall i :: 0 <= i < |Posted(events)| ==> EncodeServerFrame(Posted(events)[i]).Ok?
  {
    hide EncodeServerFrame;
    if events != [] { PostedEncode(events[..|events| - 1]); }
  }

  function Wires(events: seq<Event>): seq<Text>
  {
    PostedEncode(events);
    WiresOf(Posted(events))
  }

  lemma {:induction false} WiresStep(events: seq<Event>, e: Event)
    ensures Wires(events + [e]) == Wires(events)
              + (if e.Deliver? && EncodeServerFrame(e.message).Ok? then [EncodeServerFrame(e.message).value] else [])
    ensures PostedBeforeClose(events + [e]) ==
              if PostedBeforeClose(events).Some? then PostedBeforeClose(events)
              else if e.CallClose? then Some(|Wires(events)|) else None
  {
    hide EncodeServerFrame;
    assert (events + [e])[..|events|] == events;
  }

  /** What every error-free run keeps: the wires posted are those fully written, then the queue,
      then the pushes still waiting; a write is outstanding exactly when the queue is not empty. */
  lemma {:induction false} EveryRunGood(events: seq<Event>, states: seq<Writer>) returns (done: nat)
    requires IsRun(events, states) && ErrorFree(events)
    ensures Good(states[|events|], Wires(events), PostedBeforeClose(events), done)
    decreases |events|
  {
    hide EncodeServerFrame;
    done := 0;
    if events == [] {
      return;
    }
    var n := |events| - 1;
    var before, e, w := events[..n], events[n], states[n];
    done := EveryRunGood(before, states[..n + 1]);
    assert events == before + [e];
    WiresStep(before, e);
    assert states[n + 1] == Step(w, e);
    var wires, closed := Wires(before), PostedBeforeClose(before);
    assert wires + [] == wires;
    match e {
      case Deliver(m) =>
        if EncodeServerFrame(m).Ok? { PostPush(w, wires, closed, done, EncodeServerFrame(m).value); }
      case CallClose => PostFirstClose(w, wires, closed, done);
      case RunTask => RunKeeps(w, wires, closed, done);
      case Transfer(count) => TransferKeeps(w, wires, closed, done, count);
      case WriteDone => WriteDoneKeeps(w, wires, closed, done); done := done + 1;
    }
  }

  /** In every error-free run: one write is outstanding exactly when the queue is not empty; the
      octets sent are an initial part of the posted wires in order; and the stream is shut only by
      a close, and only once everything posted before the first close has been sent. */
  lemma {:induction false} SentInOrder(events: seq<Event>, states: seq<Writer>)
    requires IsRun(events, states) && ErrorFree(events)
    ensures var w := states[|events|];
            && (w.outstanding <==> w.queue != [])
            && w.sent <= Concat(Wires(events))
            && (!w.open ==>
                  && PostedBeforeClose(events).Some?
                  && PostedBeforeClose(events).value <= |Wires(events)|
                  && Concat(Wires(events)[..PostedBeforeClose(events).value]) <= w.sent)
  {
    hide EncodeServerFrame, Wires;
    var done := EveryRunGood(events, states);
    var w, wires := states[|events|], Wires(events);
    SentIsPrefix(w, wires, done);
    if !w.open {
      var n := PostedBeforeClose(events).value;
      ConcatMonotone(wires, n, done);
    }
  }

  lemma {:induction false} SentIsPrefix(w: Writer, wires: seq<Text>, done: nat)
    requires Accounted(w, wires, done)
    ensures w.sent <= Concat(wires) && Concat(wires[..done]) <= w.sent
  {
    PrefixConcat(wires, done);
    if w.queue != [] {
      var rest := wires[done..];
      assert rest[0] == w.queue[0] by { assert w.queue == wires[done..done + |w.queue|]; }
      assert Concat(rest) == rest[0] + Concat(rest[1..]);
      assert w.queue[0][..w.progress] <= Concat(rest);
    }
  }

  lemma {:induction false} ConcatMonotone(frames: seq<Text>, i: nat, j: nat)
    requires i <= j <= |frames|
    ensures Concat(frames[..i]) <= Concat(frames[..j])
  {
    PrefixConcat(frames[..j], i);
    assert frames[..j][..i] == frames[..i];
  }

  /** Once the first close has run and nothing is left to write, the stream is shut. */
  lemma {:induction false} CloseTakesEffect(events: seq<Event>, states: seq<Writer>)
    requires IsRun(events, states) && ErrorFree(events)
    requires PostedBeforeClose(events).Some? && !HasClose(states[|events|].tasks) && states[|events|].queue == []
    ensures !states[|events|].open
  {
    hide EncodeServerFrame, Wires;
    var done := EveryRunGood(events, states);
  }

  /** A receiver that cuts what has been sent at line feeds and decodes each line gets an initial
      run of exactly the posted messages, and all of them once everything has been sent. */
  lemma {:induction false} ReceiverGetsPosted(events: seq<Event>, states: seq<Writer>)
    requires IsRun(events, states) && ErrorFree(events)
    requires forall i :: 0 <= i < |Posted(events)| ==> ServerWellFormed(Posted(events)[i])
    ensures var lines := CutLines(states[|events|].sent).0;
            && |lines| <= |Posted(events)|
            && (forall i :: 0 <= i < |lines| ==> DecodeServerFrame(lines[i]) == Ok(Posted(events)[i]))
            && (states[|events|].sent == Concat(Wires(events)) ==> |lines| == |Posted(events)|)
  {
    hide EncodeServerFrame, DecodeServerFrame, ServerWellFormed, CutLines, IsFrame;
    SentInOrder(events, states);
    var wires, sent := Wires(events), states[|events|].sent;
    PostedEncode(events);
    forall i | 0 <= i < |wires|
      ensures IsFrame(wires[i]) && DecodeServerFrame(wires[i]) == Ok(Posted(events)[i])
    {
      EncodedIsFrame(Posted(events)[i]);
      EncodedDecodes(Posted(events)[i]);
    }
    CutLinesOfPrefix(wires, sent);
    if sent == Concat(wires) { CutLinesOfAll(wires); }
  }

  lemma EncodedDecodes(m: ServerMessage)
    requires EncodeServerFrame(m).Ok? && ServerWellFormed(m)
    ensures DecodeServerFrame(EncodeServerFrame(m).value) == Ok(m)
  {
    EncodeOkFits(m);
    ServerFrameRoundTrip(m);
  }
}
