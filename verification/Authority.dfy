/** Who may change what: a room's topic, a session's room; who reads a private message; and how often
    a session may speak. */
module Authority {
  import opened Octets
  import opened Messages
  import opened Ordering
  import opened ServerModel
  import opened ServerStructure
  import opened ServerActions
  import opened ServerSafety
  import opened ServerReach
  import opened ServerEffects
  import RateLimit
  import A = Admission

  // ---- seats, topics, rooms ----

  /** A session is in the same room after a step unless the step is its own, or it is kicked by the
      creator of its room, by the host or administrator, or by a ban. */
  lemma OnlyTheEntitledMove(c: Config, s: Server, e: Input, j: SessionId)
    requires Sound(c, s) && Enabled(c, s, e) && j in s.clients
    ensures !IsOwn(e, j) && !IsExpelled(c, s, e, j) ==>
              j in Step(c, s, e).clients && Step(c, s, e).clients[j].activeRoom == s.clients[j].activeRoom
  {
    hide Sound, Step, PlanOf, IsExpelled, PlanHits;
    if PlanHits(PlanOf(c, s, e), Seat(j)) { PlanEntitled(c, s, e, Seat(j)); } else { StepSteady(c, s, e, Seat(j)); }
  }

  /** A room keeps its topic unless one entitled to set it asked for another, and then has that one. */
  lemma OnlyTheEntitledRetitle(c: Config, s: Server, e: Input, r: RoomId)
    requires Sound(c, s) && Enabled(c, s, e) && r in s.rooms
    ensures r in Step(c, s, e).rooms
    ensures Step(c, s, e).rooms[r].topic == s.rooms[r].topic || SetsTopic(c, s, e, r, Step(c, s, e).rooms[r].topic)
  {
    hide Sound, Step, PlanOf, SetsTopic, PlanHits;
    if PlanHits(PlanOf(c, s, e), Title(r)) { PlanEntitled(c, s, e, Title(r)); } else { StepSteady(c, s, e, Title(r)); }
  }

  lemma RetitledIsThere(c: Config, e: Input, s: Server, a: Action)
    requires Sound(c, s) && Allowed(c, e, s, a) && a.Retitle?
    ensures a.room != 0
  {
    hide DistinctNames, Handles, RoomTable, IsValidRoomTopic;
  }

  /** Room 0 is never retitled, so every step is steady for it. */
  lemma {:induction false} NoRoomZero(c: Config, e: Input, s: Server, p: Plan)
    requires Sound(c, s) && Legal(c, e, s, p)
    ensures !PlanHits(p, Title(0))
    decreases p
  {
    hide Sound, Allowed, Do;
    match p
    case Skip =>
    case One(a) => if a.Retitle? { RetitledIsThere(c, e, s, a); }
    case Then(q, o) =>
      NoRoomZero(c, e, s, q);
      PlanSound(c, e, s, q);
      NoRoomZero(c, e, Run(c, s, q), o);
  }

  /** Rooms are never removed, and neither a room's name nor its creator ever changes. */
  lemma RoomsStay(c: Config, s: Server, e: Input)
    requires Sound(c, s) && Enabled(c, s, e)
    ensures forall q :: q in s.rooms ==>
              q in Step(c, s, e).rooms && Step(c, s, e).rooms[q].name == s.rooms[q].name
              && Step(c, s, e).rooms[q].owner == s.rooms[q].owner
  {
    hide Sound, Step, PlanOf, Legal, PlanHits, Enabled;
    PlanLegal(c, s, e);
    NoRoomZero(c, e, s, PlanOf(c, s, e));
    StepSteady(c, s, e, Title(0));
  }

  // ---- private messages ----

  lemma {:induction false} LastNamedIs(s: Server, ids: seq<SessionId>, nick: Text)
    ensures LastNamed(s, ids, nick).Some? ==>
              LastNamed(s, ids, nick).value in ids && Of(s, LastNamed(s, ids, nick).value).nickname == nick
  {
  }

  lemma OutboxOf(c: Config, s: Server, i: SessionId, m: ServerMessage, j: SessionId)
    ensures j != i ==> Of(Deliver(c, s, i, m), j) == Of(s, j)
    ensures Of(Deliver(c, s, i, m), j).nickname == Of(s, j).nickname
  {
  }

  /** A private message in a room reaches no session but the sender's and the target's, and those are
      members of the room. */
  lemma PrivateIsPrivate(c: Config, s: Server, sender: Text, target: Text, body: Text, r: RoomId, stamp: Text, j: SessionId)
    requires Of(SendPrivate(c, s, sender, target, body, r, stamp), j) != Of(s, j)
    ensures r in s.rooms && j in s.rooms[r].members && (Of(s, j).nickname == sender || Of(s, j).nickname == target)
  {
    hide DeliverAll, LastNamed, Ordered, NotHere, PrivateLine;
    if r in s.rooms {
      var members := Ordered(s.rooms[r].members);
      LastNamedIs(s, members, sender);
      LastNamedIs(s, members, target);
      var from, to := LastNamed(s, members, sender), LastNamed(s, members, target);
      var line := PrivateLine(stamp, sender, target, body);
      if from.Some? {
        OutboxOf(c, s, from.value, NotHere(target), j);
        OutboxOf(c, s, from.value, line, j);
      }
      if to.Some? {
        OutboxOf(c, s, to.value, line, j);
        if from.Some? { OutboxOf(c, Deliver(c, s, to.value, line), from.value, line, j); }
      }
    }
  }

  lemma WhisperedIsPrivate(c: Config, s: Server, i: SessionId, x: Session, ok: bool, target: Text, body: Text, timeOfDay: Text,
                           j: SessionId)
    requires j != i && Of(Whispered(c, s, i, x, ok, target, body, timeOfDay), j) != Of(s, j)
    ensures x.activeRoom in s.rooms && j in s.rooms[x.activeRoom].members
    ensures Of(s, j).nickname == x.nickname || Of(s, j).nickname == target
  {
    hide DeliverAll, SendPrivate, IsValidText, IsValidNickname;
    OutboxOf(c, s, i, DirectText(SLOW_DOWN), j);
    OutboxOf(c, s, i, DirectText(BAD_WHISPER), j);
    PrivateIsPrivate(c, s, x.nickname, target, body, x.activeRoom, timeOfDay, j);
  }

  /** A whisper changes no session but the whisperer's and those of its two nicknames in the room. */
  lemma WhisperIsPrivate(c: Config, s: Server, i: SessionId, target: Text, body: Text, env: Env, j: SessionId)
    requires i in s.clients && j != i
    requires Of(OnWhisper(c, s, i, target, body, env), j) != Of(s, j)
    ensures var r := s.clients[i].activeRoom;
      && r in s.rooms && j in s.rooms[r].members
      && (Of(s, j).nickname == target || Of(s, j).nickname == s.clients[i].nickname)
  {
    hide DeliverAll, Whispered, ConsumeQuota;
    OutboxOf(c, s, i, DirectText(JOIN_FIRST), j);
    var (ok, counted) := ConsumeQuota(s, i, env.now);
    ConsumedIs(s, i, env.now);
    if s.clients[i].nickname != [] {
      WhisperedIsPrivate(c, counted, i, s.clients[i], ok, target, body, env.timeOfDay, j);
    }
  }

  // ---- how often a session speaks ----

  /** The quota calls of session `i` in the first `n` inputs. */
  ghost function Calls(c: Config, states: seq<Server>, inputs: seq<Input>, n: nat, i: SessionId): seq<RateLimit.Call>
    requires n <= |inputs| < |states|
  {
    if n == 0 then []
    else
      var s, e := states[n - 1], inputs[n - 1];
      Calls(c, states, inputs, n - 1, i)
        + if Speaks(c, s, e, i) then [RateLimit.Call(s.clients[i].activeRoom, e.env.now)] else []
  }

  lemma {:induction false} OneMoreCall(calls: seq<RateLimit.Call>, call: RateLimit.Call)
    ensures RateLimit.After(calls + [call]) == RateLimit.Consume(RateLimit.After(calls), call.room, call.now).1
    ensures RateLimit.Accepted(calls + [call], |calls|) == RateLimit.Consume(RateLimit.After(calls), call.room, call.now).0
  {
    assert (calls + [call])[..|calls|] == calls;
  }

  lemma ChatCounts(c: Config, s: Server, i: SessionId, body: Text, env: Env)
    requires i in s.clients && s.clients[i].nickname != []
    ensures var t := OnChat(c, s, i, body, env);
            i in t.clients && t.clients[i].quota == RateLimit.Consume(s.clients[i].quota, s.clients[i].activeRoom, env.now).1
  {
    hide RateLimit.Consume, Chatted, ConsumeQuota;
    var (ok, counted) := ConsumeQuota(s, i, env.now);
    ConsumedIs(s, i, env.now);
    ChattedQuota(c, counted, i, s.clients[i], ok, body, env.timeOfDay);
  }

  lemma ChattedQuota(c: Config, s: Server, i: SessionId, x: Session, ok: bool, body: Text, timeOfDay: Text)
    requires i in s.clients
    ensures var t := Chatted(c, s, i, x, ok, body, timeOfDay); i in t.clients && t.clients[i].quota == s.clients[i].quota
  {
    hide DeliverAll, BroadcastRoom, IsValidText, Core;
    var line := "[" + timeOfDay + "] " + x.nickname + ": " + body;
    ReplyKeepsQuota(c, s, i, DirectText(SLOW_DOWN));
    ReplyKeepsQuota(c, s, i, DirectText("[system] Invalid message text"));
    BroadcastRoomCore(c, s, x.activeRoom, line, x.nickname);
    QuotaOfCore(s, BroadcastRoom(c, s, x.activeRoom, line, x.nickname), i);
  }

  lemma ReplyKeepsQuota(c: Config, s: Server, i: SessionId, m: ServerMessage)
    requires i in s.clients
    ensures var t := Deliver(c, s, i, m); i in t.clients && t.clients[i].quota == s.clients[i].quota
  {
    hide DeliverAll, Core;
    DeliverAllCore(c, s, {i}, m);
    QuotaOfCore(s, Deliver(c, s, i, m), i);
  }

  lemma ConsumedIs(s: Server, i: SessionId, now: int)
    requires i in s.clients
    ensures var t, x := ConsumeQuota(s, i, now).1, s.clients[i];
      && i in t.clients && t.rooms == s.rooms && t.clients[i].quota == RateLimit.Consume(x.quota, x.activeRoom, now).1
      && forall j :: Of(t, j).nickname == Of(s, j).nickname && (j != i ==> Of(t, j) == Of(s, j))
  {
    hide RateLimit.Consume;
  }

  lemma WhisperCounts(c: Config, s: Server, i: SessionId, target: Text, body: Text, env: Env)
    requires i in s.clients && s.clients[i].nickname != []
    ensures var t := OnWhisper(c, s, i, target, body, env);
            i in t.clients && t.clients[i].quota == RateLimit.Consume(s.clients[i].quota, s.clients[i].activeRoom, env.now).1
  {
    hide RateLimit.Consume, Whispered, ConsumeQuota;
    var (ok, counted) := ConsumeQuota(s, i, env.now);
    ConsumedIs(s, i, env.now);
    WhisperedQuota(c, counted, i, s.clients[i], ok, target, body, env.timeOfDay);
  }

  lemma WhisperedQuota(c: Config, s: Server, i: SessionId, x: Session, ok: bool, target: Text, body: Text, timeOfDay: Text)
    requires i in s.clients
    ensures var t := Whispered(c, s, i, x, ok, target, body, timeOfDay); i in t.clients && t.clients[i].quota == s.clients[i].quota
  {
    hide DeliverAll, SendPrivate, Core, IsValidText, IsValidNickname;
    ReplyKeepsQuota(c, s, i, DirectText(SLOW_DOWN));
    ReplyKeepsQuota(c, s, i, DirectText(BAD_WHISPER));
    SendPrivateCore(c, s, x.nickname, target, body, x.activeRoom, timeOfDay);
    QuotaOfCore(s, SendPrivate(c, s, x.nickname, target, body, x.activeRoom, timeOfDay), i);
  }

  /** A session that speaks has its quota consumed, for the room it is in. */
  lemma SpeakingCounts(c: Config, s: Server, e: Input, i: SessionId)
    requires Enabled(c, s, e) && Speaks(c, s, e, i)
    ensures i in Step(c, s, e).clients
    ensures Step(c, s, e).clients[i].quota == RateLimit.Consume(s.clients[i].quota, s.clients[i].activeRoom, e.env.now).1
  {
    hide OnChat, OnWhisper, RateLimit.Consume;
    match e.message
    case Chat(body) => ChatCounts(c, s, i, body, e.env);
    case Whisper(target, body) => WhisperCounts(c, s, i, target, body, e.env);
  }

  lemma QuotaOfCore(s: Server, t: Server, i: SessionId)
    requires Core(s) == Core(t) && i in s.clients
    ensures i in t.clients && t.clients[i].quota == s.clients[i].quota
  {
    hide Core;
    CoreSteady(s, t, Quota(i));
  }

  lemma QuotaStep(c: Config, s: Server, e: Input, i: SessionId)
    requires Sound(c, s) && Enabled(c, s, e) && i in s.clients
    ensures i in Step(c, s, e).clients
    ensures Step(c, s, e).clients[i].quota ==
              if Speaks(c, s, e, i) then RateLimit.Consume(s.clients[i].quota, s.clients[i].activeRoom, e.env.now).1
              else s.clients[i].quota
  {
    assert e != Accept(i);
    hide Sound, Step, PlanOf, PlanHits, Enabled, Speaks, RateLimit.Consume;
    if Speaks(c, s, e, i) { SpeakingCounts(c, s, e, i); }
    else {
      if PlanHits(PlanOf(c, s, e), Quota(i)) { PlanEntitled(c, s, e, Quota(i)); }
      StepSteady(c, s, e, Quota(i));
    }
  }

  lemma NewQuota(c: Config, s: Server, e: Input, i: SessionId)
    requires Sound(c, s) && Enabled(c, s, e) && i !in s.clients && i in Step(c, s, e).clients
    ensures Step(c, s, e).clients[i].quota == map[] && !Speaks(c, s, e, i)
  {
    hide Sound, Step, Enabled, A.CredStep;
    A.StepCreds(c, s, e);
    assert e == Accept(i);
    AcceptedIsNew(c, s, i);
  }

  lemma AcceptedIsNew(c: Config, s: Server, i: SessionId)
    ensures i in Step(c, s, Accept(i)).clients && Step(c, s, Accept(i)).clients[i] == NEW_SESSION
  {
  }

  /** Over every run, a session's quota queues are what its calls so far leave. */
  lemma {:induction false} QuotaIsHistory(c: Config, states: seq<Server>, inputs: seq<Input>, n: nat, i: SessionId)
    requires IsRun(c, states, inputs) && Sound(c, states[0]) && states[0].clients == map[] && n <= |inputs|
    ensures i in states[n].clients ==> states[n].clients[i].quota == RateLimit.After(Calls(c, states, inputs, n, i))
    ensures i !in states[n].clients ==> Calls(c, states, inputs, n, i) == []
  {
    hide Sound, Step, Enabled, RateLimit.Consume, RateLimit.After, MayCommand;
    NoCalls();
    if n > 0 {
      var s, e := states[n - 1], inputs[n - 1];
      QuotaIsHistory(c, states, inputs, n - 1, i);
      RunSound(c, states, inputs, n - 1);
      var calls := Calls(c, states, inputs, n - 1, i);
      assert calls + [] == calls;
      if i in s.clients {
        QuotaStep(c, s, e, i);
        if Speaks(c, s, e, i) { OneMoreCall(calls, RateLimit.Call(s.clients[i].activeRoom, e.env.now)); }
      } else {
        SilentBefore(c, s, e, i);
        if i in states[n].clients { NewQuota(c, s, e, i); }
      }
    }
  }

  lemma NoCalls()
    ensures RateLimit.After([]) == map[]
  {
  }

  lemma SilentBefore(c: Config, s: Server, e: Input, i: SessionId)
    requires i !in s.clients
    ensures !Speaks(c, s, e, i)
  {
  }

  /** Session `j` has been sent the message, as the last of what the step sent it. */
  predicate IsTold(s: Server, t: Server, j: SessionId, m: ServerMessage)
  {
    && j in s.clients && j in t.clients && |t.clients[j].outbox| > |s.clients[j].outbox|
    && t.clients[j].outbox[|t.clients[j].outbox| - 1] == m
  }

  /** The input is a chat of session `i` that is stored and so sent to its room, or a whisper of it
      that is sent to anyone. */
  ghost predicate IsHeard(s: Server, e: Input, t: Server, i: SessionId)
  {
    && e.Received? && e.id == i && i in s.clients
    && match e.message
       case Chat(_) => t.stored > s.stored
       case Whisper(target, body) =>
         exists j :: IsTold(s, t, j, PrivateLine(e.env.timeOfDay, s.clients[i].nickname, target, body))
       case _ => false
  }

  /** A chat or whisper is heard only if the quota accepts it for the room the session is in. */
  lemma {:induction false} HeardOnlyIfAccepted(c: Config, states: seq<Server>, inputs: seq<Input>, n: nat, i: SessionId)
    requires IsRun(c, states, inputs) && Sound(c, states[0]) && states[0].clients == map[] && n < |inputs|
    requires IsHeard(states[n], inputs[n], states[n + 1], i)
    ensures var calls := Calls(c, states, inputs, n + 1, i);
      && Speaks(c, states[n], inputs[n], i) && calls != []
      && calls == Calls(c, states, inputs, n, i) + [RateLimit.Call(states[n].clients[i].activeRoom, inputs[n].env.now)]
      && RateLimit.Accepted(calls, |calls| - 1)
  {
    var s, e := states[n], inputs[n];
    assert Enabled(c, s, e) && states[n + 1] == Step(c, s, e);
    assert i in s.clients && e.Received?;
    hide Sound, Step, Enabled, RateLimit.Consume, RateLimit.After, RateLimit.Accepted, Speaks, IsHeard, Calls, IsRun, MayCommand;
    RunSound(c, states, inputs, n);
    if i in s.clients && s.clients[i].nickname != [] { JoinedMayCommand(c, states, inputs, n, i); }
    HeardIsSpoken(c, s, e, i);
    QuotaIsHistory(c, states, inputs, n, i);
    SpokenIsCounted(c, states, inputs, n, i);
    OneMoreCall(Calls(c, states, inputs, n, i), RateLimit.Call(s.clients[i].activeRoom, e.env.now));
  }

  lemma SpokenIsCounted(c: Config, states: seq<Server>, inputs: seq<Input>, n: nat, i: SessionId)
    requires n < |inputs| < |states| && i in states[n].clients && inputs[n].Received? && Speaks(c, states[n], inputs[n], i)
    ensures Calls(c, states, inputs, n + 1, i)
         == Calls(c, states, inputs, n, i) + [RateLimit.Call(states[n].clients[i].activeRoom, inputs[n].env.now)]
  {
    hide Speaks;
  }

  lemma HeardIsSpoken(c: Config, s: Server, e: Input, i: SessionId)
    requires Sound(c, s) && Enabled(c, s, e) && IsHeard(s, e, Step(c, s, e), i)
    requires i in s.clients && s.clients[i].nickname != [] ==> MayCommand(c, s.clients[i])
    ensures i in s.clients && Speaks(c, s, e, i)
    ensures RateLimit.Consume(s.clients[i].quota, s.clients[i].activeRoom, e.env.now).0
  {
    hide Sound, Step, Enabled, RateLimit.Consume, Speaks, IsTold, MayCommand;
    if e.message.Chat? {
      StoredOnlyIfSpoken(c, s, e, i);
    } else {
      var line := PrivateLine(e.env.timeOfDay, s.clients[i].nickname, e.message.target, e.message.body);
      var j :| IsTold(s, Step(c, s, e), j, line);
      ToldOnlyIfSpoken(c, s, e, i, j);
    }
  }

  /** A session with a nickname has been let through the handshake and the password. */
  lemma {:induction false} JoinedMayCommand(c: Config, states: seq<Server>, inputs: seq<Input>, n: nat, i: SessionId)
    requires IsRun(c, states, inputs) && Sound(c, states[0]) && states[0].clients == map[] && n <= |inputs|
    requires i in states[n].clients && states[n].clients[i].nickname != []
    ensures MayCommand(c, states[n].clients[i])
  {
    hide Sound, Step, Enabled, MayCommand;
    if n > 0 {
      var s, e := states[n - 1], inputs[n - 1];
      RunSound(c, states, inputs, n - 1);
      if i in s.clients && s.clients[i].nickname != [] { JoinedMayCommand(c, states, inputs, n - 1, i); }
      StepJoined(c, s, e, i);
    }
  }

  lemma StepJoined(c: Config, s: Server, e: Input, i: SessionId)
    requires Sound(c, s) && Enabled(c, s, e) && i in Step(c, s, e).clients && Step(c, s, e).clients[i].nickname != []
    requires i in s.clients && s.clients[i].nickname != [] ==> MayCommand(c, s.clients[i])
    ensures MayCommand(c, Step(c, s, e).clients[i])
  {
    hide Sound, Step, Enabled, A.Claims, A.Proves, A.Heard;
    A.StepCreds(c, s, e);
    var t := Step(c, s, e);
    var x := if i in s.clients then s.clients[i] else NEW_SESSION;
    assert A.CredStep(c, e, i, x, t.clients[i], t.identities);
  }

  lemma DropOutbox(c: Config, s: Server, i: SessionId, m: ServerMessage, j: SessionId)
    requires i in s.clients && s.clients[i].activeRoom == 0
    ensures j in Drop(c, s, i, m).clients ==> j in s.clients
    ensures j in s.clients ==>
              j in Drop(c, s, i, m).clients
              && Drop(c, s, i, m).clients[j].outbox ==
                   if j == i && c.encodes(m) then s.clients[j].outbox + [m] else s.clients[j].outbox
  {
    var told := Close(Deliver(c, s, i, m), i);
    assert i in told.clients && told.clients[i].activeRoom == 0;
    hide Depart, Close, DeliverAll;
    UnseatedDeparts(c, told, i);
    ToldOutbox(c, s, i, m, j);
    IdleOutbox(told, i, j);
  }

  lemma ToldOutbox(c: Config, s: Server, i: SessionId, m: ServerMessage, j: SessionId)
    requires i in s.clients
    ensures var t := Close(Deliver(c, s, i, m), i);
      && (j in t.clients <==> j in s.clients)
      && (j in s.clients ==>
            t.clients[j].outbox == if j == i && c.encodes(m) then s.clients[j].outbox + [m] else s.clients[j].outbox)
  {
  }

  /** A session that is in no room leaves quietly. */
  function Idle(s: Server, i: SessionId): Server
  {
    With(s.(sessions := s.sessions - {i}), i, Of(s, i).(activeRoom := 0))
  }

  lemma UnseatedDeparts(c: Config, s: Server, i: SessionId)
    requires Of(s, i).activeRoom == 0
    ensures Depart(c, s, i, false) == Idle(s, i)
  {
    hide BroadcastRoom, BroadcastUsers, BroadcastRoomLists;
  }

  lemma IdleOutbox(s: Server, i: SessionId, j: SessionId)
    requires i in s.clients
    ensures var t := Stop(Idle(s, i), i);
            (j in t.clients <==> j in s.clients) && (j in s.clients ==> t.clients[j].outbox == s.clients[j].outbox)
  {
  }

  lemma PrivateLineIs(stamp: Text, sender: Text, target: Text, body: Text)
    ensures PrivateLine(stamp, sender, target, body) != DirectText(SLOW_DOWN)
    ensures PrivateLine(stamp, sender, target, body) != DirectText(JOIN_FIRST)
  {
    var start: Text := "[PRIVATE " + stamp;
    assert ("[PRIVATE " + stamp + "] " + sender + " -> " + target + ": " + body)[1] == 'P';
    assert SLOW_DOWN[1] == 's';
  }

  lemma RepliedOnly(c: Config, s: Server, i: SessionId, m: ServerMessage, j: SessionId, line: ServerMessage)
    requires m != line
    ensures !IsTold(s, Deliver(c, s, i, m), j, line)
  {
  }

  lemma NamelessUntold(c: Config, s: Server, i: SessionId, target: Text, body: Text, env: Env, j: SessionId)
    requires Sound(c, s) && i in s.clients && s.clients[i].nickname == []
    ensures !IsTold(s, Step(c, s, Received(i, Whisper(target, body), env)), j, PrivateLine(env.timeOfDay, [], target, body))
  {
    hide Sound, Drop, DeliverAll, IsTold, Step;
    var line := PrivateLine(env.timeOfDay, [], target, body);
    PrivateLineIs(env.timeOfDay, [], target, body);
    UnseatedIfNameless(c, s, i);
    WhisperReplies(c, s, i, target, body, env);
    UntoldByDrop(c, s, i, j, line);
    RepliedOnly(c, s, i, AuthRequired, j, line);
    RepliedOnly(c, s, i, DirectText(JOIN_FIRST), j, line);
  }

  /** A whisper that is not a member's, or that the quota refuses, is told to no one. */
  lemma ToldOnlyIfSpoken(c: Config, s: Server, e: Input, i: SessionId, j: SessionId)
    requires Sound(c, s) && Enabled(c, s, e) && e.Received? && e.id == i && e.message.Whisper? && i in s.clients
    requires s.clients[i].nickname != [] ==> MayCommand(c, s.clients[i])
    requires IsTold(s, Step(c, s, e), j, PrivateLine(e.env.timeOfDay, s.clients[i].nickname, e.message.target, e.message.body))
    ensures Speaks(c, s, e, i) && RateLimit.Consume(s.clients[i].quota, s.clients[i].activeRoom, e.env.now).0
  {
    hide Sound, PrivateLine, IsTold, Step, MayCommand, RateLimit.Consume, OnWhisper, DeliverAll, ConsumeQuota;
    var x, target, body := s.clients[i], e.message.target, e.message.body;
    if x.nickname == [] {
      NamelessUntold(c, s, i, target, body, e.env, j);
      assert false;
    } else if !RateLimit.Consume(x.quota, x.activeRoom, e.env.now).0 {
      MemberWhispers(c, s, i, target, body, e.env);
      PrivateLineIs(e.env.timeOfDay, x.nickname, target, body);
      SlowedDown(c, s, i, target, body, e.env);
      SlowedUntold(c, s, i, e.env.now, j, PrivateLine(e.env.timeOfDay, x.nickname, target, body));
      assert false;
    }
  }

  lemma MemberWhispers(c: Config, s: Server, i: SessionId, target: Text, body: Text, env: Env)
    requires i in s.clients && MayCommand(c, s.clients[i])
    ensures Step(c, s, Received(i, Whisper(target, body), env)) == OnWhisper(c, s, i, target, body, env)
  {
    hide OnWhisper;
  }

  lemma UnseatedIfNameless(c: Config, s: Server, i: SessionId)
    requires Sound(c, s) && i in s.clients && s.clients[i].nickname == []
    ensures s.clients[i].activeRoom == 0
  {
    hide Seats, DistinctNames, RoomTable;
  }

  lemma UntoldByDrop(c: Config, s: Server, i: SessionId, j: SessionId, line: ServerMessage)
    requires i in s.clients && s.clients[i].activeRoom == 0 && line.DirectText?
    ensures !IsTold(s, Drop(c, s, i, ServerError("Protocol handshake required")), j, line)
  {
    hide Drop;
    DropOutbox(c, s, i, ServerError("Protocol handshake required"), j);
  }

  /** What a session without a nickname gets for a whisper. */
  ghost predicate IsTurnedAway(c: Config, s: Server, i: SessionId, t: Server)
  {
    || t == Drop(c, s, i, ServerError("Protocol handshake required"))
    || t == Deliver(c, s, i, AuthRequired)
    || t == Deliver(c, s, i, DirectText(JOIN_FIRST))
  }

  lemma WhisperReplies(c: Config, s: Server, i: SessionId, target: Text, body: Text, env: Env)
    requires i in s.clients && s.clients[i].nickname == []
    ensures IsTurnedAway(c, s, i, Step(c, s, Received(i, Whisper(target, body), env)))
  {
    hide Drop, DeliverAll, Whispered, RateLimit.Consume;
  }

  lemma SlowedDown(c: Config, s: Server, i: SessionId, target: Text, body: Text, env: Env)
    requires i in s.clients && s.clients[i].nickname != []
    requires !RateLimit.Consume(s.clients[i].quota, s.clients[i].activeRoom, env.now).0
    ensures OnWhisper(c, s, i, target, body, env) == Deliver(c, ConsumeQuota(s, i, env.now).1, i, DirectText(SLOW_DOWN))
  {
    hide DeliverAll, RateLimit.Consume;
  }

  lemma SlowedUntold(c: Config, s: Server, i: SessionId, now: int, j: SessionId, line: ServerMessage)
    requires i in s.clients && line != DirectText(SLOW_DOWN)
    ensures !IsTold(s, Deliver(c, ConsumeQuota(s, i, now).1, i, DirectText(SLOW_DOWN)), j, line)
  {
    hide RateLimit.Consume;
  }

  lemma StoredOnlyIfSpoken(c: Config, s: Server, e: Input, i: SessionId)
    requires Enabled(c, s, e) && e.Received? && e.id == i && e.message.Chat? && i in s.clients
    requires Step(c, s, e).stored > s.stored
    ensures Speaks(c, s, e, i) && RateLimit.Consume(s.clients[i].quota, s.clients[i].activeRoom, e.env.now).0
  {
    hide RateLimit.Consume, BroadcastRoom, PostAll, IsValidText, Depart;
    if !s.clients[i].negotiated {
      assert Step(c, s, e) == Drop(c, s, i, ServerError("Protocol handshake required"));
      DropStoresNothing(c, s, i, ServerError("Protocol handshake required"));
    }
  }

  lemma DeliverStoresNothing(c: Config, s: Server, to: set<SessionId>, m: ServerMessage)
    ensures DeliverAll(c, s, to, m).stored == s.stored
  {
    hide PostAll;
  }

  lemma ShowStoresNothing(c: Config, s: Server, r: RoomId)
    ensures BroadcastUsers(c, s, r).stored == s.stored && BroadcastRoomLists(c, s).stored == s.stored
  {
    hide DeliverAll, UserNames, RoomSummaries;
    if r in s.rooms { DeliverStoresNothing(c, s, s.rooms[r].members, UserList(r, UserNames(c, s, r))); }
    DeliverStoresNothing(c, s, Named(s), RoomList(RoomSummaries(c, s)));
  }

  lemma DepartStoresNothing(c: Config, s: Server, i: SessionId)
    ensures Depart(c, s, i, false).stored == s.stored
  {
    var prev := Of(s, i).activeRoom;
    var gone := s.(sessions := s.sessions - {i});
    var out := Erase(With(gone, i, Of(gone, i).(activeRoom := 0)), prev, i);
    assert out.stored == s.stored;
    hide BroadcastUsers, BroadcastRoomLists, BroadcastRoom;
    ShowStoresNothing(c, out, prev);
    ShowStoresNothing(c, BroadcastUsers(c, out, prev), prev);
  }

  lemma DropStoresNothing(c: Config, s: Server, i: SessionId, m: ServerMessage)
    ensures Drop(c, s, i, m).stored == s.stored
  {
    hide DeliverAll, Depart;
    DeliverStoresNothing(c, s, {i}, m);
    DepartStoresNothing(c, Close(Deliver(c, s, i, m), i), i);
  }

  // ---- no flooding ----

  /** The steady clock, as handlers read it, never goes back. */
  ghost predicate IsSteady(inputs: seq<Input>)
  {
    forall j, k :: 0 <= j <= k < |inputs| && inputs[j].Received? && inputs[k].Received? ==> inputs[j].env.now <= inputs[k].env.now
  }

  lemma {:induction false} CallsInOrder(c: Config, states: seq<Server>, inputs: seq<Input>, n: nat, i: SessionId, now: int)
    requires n <= |inputs| < |states| && IsSteady(inputs)
    requires forall k :: 0 <= k < n && inputs[k].Received? ==> inputs[k].env.now <= now
    ensures RateLimit.NonDecreasing(Calls(c, states, inputs, n, i))
    ensures forall k :: 0 <= k < |Calls(c, states, inputs, n, i)| ==> Calls(c, states, inputs, n, i)[k].now <= now
  {
    hide MayCommand;
    if n > 0 {
      CallsInOrder(c, states, inputs, n - 1, i, now);
      if Speaks(c, states[n - 1], inputs[n - 1], i) {
        CallsInOrder(c, states, inputs, n - 1, i, inputs[n - 1].env.now);
      }
    }
  }

  /** When chats and whispers of session `i` in room `r` were heard, in the first `n` steps. */
  ghost function HeardTimes(states: seq<Server>, inputs: seq<Input>, n: nat, i: SessionId, r: RoomId): seq<int>
    requires n <= |inputs| < |states|
  {
    if n == 0 then []
    else
      var s, e := states[n - 1], inputs[n - 1];
      HeardTimes(states, inputs, n - 1, i, r)
        + if IsHeard(s, e, states[n], i) && s.clients[i].activeRoom == r then [e.env.now] else []
  }

  lemma {:induction false} OneMoreAccepted(calls: seq<RateLimit.Call>, call: RateLimit.Call, r: RoomId, a: int, b: int)
    ensures var all := calls + [call];
      && |RateLimit.Within(RateLimit.History(all, r), a, b)| >= |RateLimit.Within(RateLimit.History(calls, r), a, b)|
      && (call.room == r && RateLimit.Accepted(all, |calls|) && a <= call.now <= b ==>
            |RateLimit.Within(RateLimit.History(all, r), a, b)| > |RateLimit.Within(RateLimit.History(calls, r), a, b)|)
  {
    hide RateLimit.Accepted;
    assert (calls + [call])[..|calls|] == calls;
    RateLimit.WithinAppend(RateLimit.History(calls, r), call.now, a, b);
    assert RateLimit.History(calls, r) + [] == RateLimit.History(calls, r);
  }

  /** What is heard in an interval is no more than what the quota accepted in it. */
  lemma {:induction false} HeardAreAccepted(c: Config, states: seq<Server>, inputs: seq<Input>, n: nat, i: SessionId, r: RoomId,
                                            a: int, b: int)
    requires IsRun(c, states, inputs) && Sound(c, states[0]) && states[0].clients == map[] && n <= |inputs|
    ensures |RateLimit.Within(HeardTimes(states, inputs, n, i, r), a, b)|
         <= |RateLimit.Within(RateLimit.History(Calls(c, states, inputs, n, i), r), a, b)|
  {
    hide Sound, Step, Enabled, MayCommand, IsHeard, RateLimit.Accepted, RateLimit.History, RateLimit.Within;
    if n == 0 {
      NothingWithin(a, b);
    } else {
      var s, e := states[n - 1], inputs[n - 1];
      HeardAreAccepted(c, states, inputs, n - 1, i, r, a, b);
      var before, calls := HeardTimes(states, inputs, n - 1, i, r), Calls(c, states, inputs, n - 1, i);
      assert before + [] == before && calls + [] == calls;
      if Speaks(c, s, e, i) { OneMoreAccepted(calls, RateLimit.Call(s.clients[i].activeRoom, e.env.now), r, a, b); }
      if IsHeard(s, e, states[n], i) {
        HeardOnlyIfAccepted(c, states, inputs, n - 1, i);
        RateLimit.WithinAppend(before, e.env.now, a, b);
      }
    }
  }

  lemma NothingWithin(a: int, b: int)
    ensures RateLimit.Within([], a, b) == []
  {
  }

  /** In any closed 60 seconds at most twenty chats and whispers of a session are heard in a room. */
  lemma {:induction false} NoFlooding(c: Config, states: seq<Server>, inputs: seq<Input>, n: nat, i: SessionId, r: RoomId, a: int)
    requires IsRun(c, states, inputs) && Sound(c, states[0]) && states[0].clients == map[] && n <= |inputs|
    requires IsSteady(inputs)
    ensures |RateLimit.Within(HeardTimes(states, inputs, n, i, r), a, a + RateLimit.WINDOW)| <= RateLimit.LIMIT
  {
    hide Calls, Sound, Step, Enabled, RateLimit.Within, RateLimit.History;
    HeardAreAccepted(c, states, inputs, n, i, r, a, a + RateLimit.WINDOW);
    var now := LatestTime(inputs, n);
    CallsInOrder(c, states, inputs, n, i, now);
    RateLimit.AtMostTwentyPerWindow(Calls(c, states, inputs, n, i), r, a);
  }

  lemma {:induction false} LatestTime(inputs: seq<Input>, n: nat) returns (now: int)
    requires n <= |inputs|
    ensures forall k :: 0 <= k < n && inputs[k].Received? ==> inputs[k].env.now <= now
  {
    now := 0;
    if n > 0 {
      now := LatestTime(inputs, n - 1);
      if inputs[n - 1].Received? && inputs[n - 1].env.now > now { now := inputs[n - 1].env.now; }
    }
  }
}
