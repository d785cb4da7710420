/** Members outside the registry: a session that is kicked or banned is taken out of the registry but
    may still be read, and its next message may seat it again. */
module Readmission {
  import opened Octets
  import opened Messages
  import opened Ordering
  import opened Tables
  import opened ServerModel
  import opened ServerStructure
  import opened ServerActions
  import opened ServerPlans
  import opened ServerSafety
  import opened ServerReach
  import opened ServerEffects
  import A = Admission

  /** Every session in a room is registered. */
  ghost predicate AllRegistered(s: Server)
  {
    forall i :: i in s.clients && s.clients[i].activeRoom != 0 ==> i in s.sessions
  }

  /** Every member of a room is registered, and none has a banned nickname. */
  ghost predicate Orderly(s: Server)
  {
    forall r, i :: r in s.rooms && i in s.rooms[r].members ==>
      i in s.sessions && i in s.clients && s.clients[i].nickname !in s.bans
  }

  lemma OrderlyExactly(c: Config, s: Server)
    requires Sound(c, s)
    ensures Orderly(s) <==> AllRegistered(s)
  {
    hide Handles, RoomTable;
    if Orderly(s) {
      forall i | i in s.clients && s.clients[i].activeRoom != 0 ensures i in s.sessions {
        assert i in s.rooms[s.clients[i].activeRoom].members;
      }
    }
    if AllRegistered(s) {
      forall r, i | r in s.rooms && i in s.rooms[r].members
        ensures i in s.sessions && i in s.clients && s.clients[i].nickname !in s.bans
      {
        MemberHasName(c, s, i, r);
      }
    }
  }

  lemma MemberHasName(c: Config, s: Server, i: SessionId, r: RoomId)
    requires Sound(c, s) && r in s.rooms && i in s.rooms[r].members
    ensures i in s.clients && s.clients[i].activeRoom == r && r != 0 && s.clients[i].nickname != []
  {
    hide DistinctNames, RoomTable;
  }

  // ---- what an action does to registry and seats ----

  function Leavers(a: Action): set<SessionId>
  {
    if a.Go? then {a.id} else if a.BanAway? && a.victim.Some? then {a.victim.value} else {}
  }

  function Newcomers(a: Action): set<SessionId> { if a.Enroll? then {a.id} else {} }

  lemma SessionsOfCore(s: Server, t: Server)
    requires Core(s) == Core(t)
    ensures t.sessions == s.sessions
  {
    CoreFields(s, t);
    hide Core;
  }

  lemma SeatOfCore(s: Server, t: Server, i: SessionId)
    requires Core(s) == Core(t)
    ensures t.sessions == s.sessions && (i in t.clients <==> i in s.clients)
    ensures i in s.clients ==> t.clients[i].activeRoom == s.clients[i].activeRoom
  {
    SessionsOfCore(s, t);
    SameOfCore(s, t);
    hide Core;
  }

  /** What a move, a departure or a ban leaves of the registry and of that session's seat. */
  lemma SeatActionLeaves(c: Config, e: Input, s: Server, a: Action)
    requires Sound(c, s) && Allowed(c, e, s, a) && (a.Move? || a.Go?)
    ensures var t := Do(c, s, a);
      && t.sessions == s.sessions - Leavers(a) && a.id in t.clients
      && t.clients[a.id].activeRoom == if a.Move? then a.target else 0
  {
    hide Sound, Allowed, Do, Core, MoveSession, Depart, Reseat, Unseat;
    SeatActionKnown(c, e, s, a);
    if a.Move? {
      MoveSessionCore(c, s, a.id, a.target, a.announce);
      ReseatFields(s, a.id, a.target);
      SeatOfCore(Reseat(s, a.id, a.target), Do(c, s, a), a.id);
    } else {
      DepartCore(c, s, a.id, a.announce);
      UnseatFields(s, a.id);
      SeatOfCore(Unseat(s, a.id), Do(c, s, a), a.id);
    }
  }

  lemma ClosedBanFields(s: Server, nick: Text, reason: Text, i: SessionId)
    ensures var t := BanStored(s, nick, reason); t.sessions == s.sessions && t.clients == s.clients && t.rooms == s.rooms
    ensures var t := Close(BanStored(s, nick, reason), i); t.sessions == s.sessions && t.clients.Keys == s.clients.Keys
  {
  }

  lemma BanActionLeaves(c: Config, e: Input, s: Server, a: Action)
    requires Sound(c, s) && Allowed(c, e, s, a) && a.BanAway?
    ensures var t := Do(c, s, a);
      && t.sessions == s.sessions - Leavers(a)
      && (a.victim.Some? ==> a.victim.value in t.clients && t.clients[a.victim.value].activeRoom == 0)
  {
    VictimKnown(c, e, s, a);
    hide Sound, Allowed, Core, Expel, Unseat, Close, BanStored, BanReason;
    var banned := BanStored(s, a.nickname, a.reason);
    ClosedBanFields(s, a.nickname, a.reason, if a.victim.Some? then a.victim.value else 0);
    if a.victim.Some? {
      var i := a.victim.value;
      ExpelCore(c, banned, i, a.nickname, BanReason(a.reason));
      UnseatFields(Close(banned, i), i);
      SeatOfCore(Unseat(Close(banned, i), i), Do(c, s, a), i);
    }
  }

  lemma HostKeeps(c: Config, e: Input, s: Server, a: Action)
    requires Allowed(c, e, s, a) && (a.PlaceHost? || a.MoveHost?)
    ensures Do(c, s, a).sessions == s.sessions
  {
    var moved := s.(localRoomId := if a.PlaceHost? then LOBBY else a.target);
    hide Core, MoveLocal, BroadcastUsers;
    match a {
      case PlaceHost => BroadcastUsersCore(c, moved, LOBBY);
      case MoveHost(target) => MoveLocalCore(c, s, target);
    }
    hide Do;
    SessionsOfCore(moved, Do(c, s, a));
  }

  lemma FlagKeeps(c: Config, s: Server, a: Action)
    requires IsFlagAction(a) || a.Open? || a.Enter? || a.Register? || a.LiftBan? || a.Found? || a.Retitle?
    ensures Do(c, s, a).sessions == s.sessions
  {
    hide PostAll, BroadcastRoom;
  }

  lemma ActionSessions(c: Config, e: Input, s: Server, a: Action)
    requires Sound(c, s) && Allowed(c, e, s, a)
    ensures Do(c, s, a).sessions == s.sessions - Leavers(a) + Newcomers(a)
  {
    hide Sound, Allowed, Core;
    if IsTalk(a) {
      hide Do;
      TalkCore(c, s, a);
      SessionsOfCore(s, Do(c, s, a));
    }
    else if a.Enroll? { }
    else {
      hide Do;
      if a.Move? || a.Go? { SeatActionLeaves(c, e, s, a); }
      else if a.BanAway? { BanActionLeaves(c, e, s, a); }
      else if a.PlaceHost? || a.MoveHost? { HostKeeps(c, e, s, a); }
      else { FlagKeeps(c, s, a); }
    }
  }

  lemma NewcomerUnseated(c: Config, e: Input, s: Server, a: Action, j: SessionId)
    requires Sound(c, s) && Allowed(c, e, s, a) && j !in s.clients && j in Do(c, s, a).clients
    ensures Do(c, s, a).clients[j].activeRoom == 0
  {
    hide Sound, Do, Allowed, A.Claims, A.Proves, MayCommand;
    A.ActionCreds(c, e, s, a);
    assert A.CredStep(c, e, j, NEW_SESSION, Do(c, s, a).clients[j], Do(c, s, a).identities);
    ActionSound(c, e, s, a);
    NamelessUnseated(c, Do(c, s, a), j);
  }

  lemma NamelessUnseated(c: Config, s: Server, j: SessionId)
    requires Sound(c, s) && j in s.clients && s.clients[j].nickname == []
    ensures s.clients[j].activeRoom == 0
  {
    hide Seats, DistinctNames, RoomTable;
  }

  /** Only a move of a session outside the registry seats someone outside it. */
  lemma ActionRegistered(c: Config, e: Input, s: Server, a: Action)
    requires Sound(c, s) && Allowed(c, e, s, a) && AllRegistered(s) && (a.Move? ==> a.id in s.sessions)
    ensures AllRegistered(Do(c, s, a))
  {
    hide Sound, Allowed, Do;
    var t := Do(c, s, a);
    ActionSessions(c, e, s, a);
    forall j | j in t.clients && t.clients[j].activeRoom != 0 ensures j in t.sessions {
      if j !in s.clients { NewcomerUnseated(c, e, s, a, j); }
      if a.Move? || a.Go? { SeatActionLeaves(c, e, s, a); }
      if a.BanAway? { BanActionLeaves(c, e, s, a); }
      if !Hits(a, Seat(j)) { ActionSteady(c, e, s, a, Seat(j)); }
    }
  }

  // ---- what a plan does ----

  predicate NoMove(p: Plan)
  {
    match p
    case Skip => true
    case One(a) => !a.Move?
    case Then(q, o) => NoMove(q) && NoMove(o)
  }

  predicate NoGo(p: Plan)
  {
    match p
    case Skip => true
    case One(a) => !a.Go? && !a.BanAway?
    case Then(q, o) => NoGo(q) && NoGo(o)
  }

  /** The plan ends in a move of the session, and takes no one out of the registry before. */
  predicate MovesLast(p: Plan, i: SessionId)
  {
    match p
    case Skip => false
    case One(a) => a.Move? && a.id == i
    case Then(q, o) => NoGo(q) && MovesLast(o, i)
  }

  lemma {:induction false} PlanSessions(c: Config, e: Input, s: Server, p: Plan)
    requires Sound(c, s) && Legal(c, e, s, p) && NoGo(p) && !e.Accept?
    ensures Run(c, s, p).sessions == s.sessions
    decreases p
  {
    match p
    case Skip =>
    case One(a) =>
      assert !a.Enroll?;
      hide Sound, Do, Allowed;
      ActionSessions(c, e, s, a);
    case Then(q, o) =>
      hide Sound, Do, Allowed;
      PlanSessions(c, e, s, q);
      PlanSound(c, e, s, q);
      PlanSessions(c, e, Run(c, s, q), o);
  }

  lemma MoverIs(c: Config, e: Input, s: Server, a: Action)
    requires Allowed(c, e, s, a) && a.Move?
    ensures SeeksRoom(e, a.id) && a.target in s.rooms
  {
  }

  /** A plan keeps everyone in a room registered if it moves no one, or moves the sender of the
      message while the sender is registered. */
  lemma {:induction false} PlanRegistered(c: Config, e: Input, s: Server, p: Plan)
    requires Sound(c, s) && Legal(c, e, s, p) && AllRegistered(s)
    requires (forall i: SessionId :: !SeeksRoom(e, i)) || NoMove(p) || (NoGo(p) && e.Received? && e.id in s.sessions)
    ensures AllRegistered(Run(c, s, p))
    decreases p
  {
    hide Sound, Do, Allowed, AllRegistered;
    match p
    case Skip =>
    case One(a) =>
      if a.Move? { MoverIs(c, e, s, a); }
      ActionRegistered(c, e, s, a);
    case Then(q, o) =>
      PlanRegistered(c, e, s, q);
      PlanSound(c, e, s, q);
      if NoGo(q) && e.Received? { PlanSessions(c, e, s, q); }
      PlanRegistered(c, e, Run(c, s, q), o);
  }

  lemma {:induction false} PlanSeats(c: Config, e: Input, s: Server, p: Plan, i: SessionId)
    requires Sound(c, s) && Legal(c, e, s, p) && MovesLast(p, i) && i !in s.sessions && !e.Accept?
    ensures var t := Run(c, s, p); i in t.clients && t.clients[i].activeRoom != 0 && i !in t.sessions
    decreases p
  {
    hide Sound, Do, Allowed;
    match p
    case One(a) =>
      NextIsNew(c, s);
      MoverIs(c, e, s, a);
      SeatActionLeaves(c, e, s, a);
    case Then(q, o) =>
      PlanSessions(c, e, s, q);
      PlanSound(c, e, s, q);
      PlanSeats(c, e, Run(c, s, q), o, i);
  }

  // ---- the steps that seat a session again ----

  /** A session that is not registered, and is let through to the commands, sends something that
      moves it: a leave or a request for another room under its nickname, or, without a nickname, a
      proof that is accepted. */
  ghost predicate TakesSeatAgain(c: Config, s: Server, e: Input)
  {
    && e.Received? && e.id in s.clients && e.id !in s.sessions && MayCommand(c, s.clients[e.id])
    && var x := s.clients[e.id];
       match e.message
       case Leave => x.nickname != []
       case CreateRoom(name) => x.nickname != [] && CreationError(s, name) == []
       case JoinRoom(name) => x.nickname != [] && NameExists(s, name)
       case IdentityProof(_) => EnterReady(c, e, s, e.id)
       case _ => false
  }

  lemma ThenMoves(q: Plan, o: Plan, i: SessionId)
    ensures MovesLast(Then(q, o), i) <==> NoGo(q) && MovesLast(o, i)
    ensures NoGo(Then(q, o)) <==> NoGo(q) && NoGo(o)
    ensures NoMove(Then(q, o)) <==> NoMove(q) && NoMove(o)
  {
  }

  lemma OneMove(a: Action, i: SessionId)
    ensures MovesLast(One(a), i) <==> a.Move? && a.id == i
    ensures NoMove(One(a)) <==> !a.Move?
    ensures NoGo(One(a)) <==> !a.Go? && !a.BanAway?
  {
  }

  lemma DropMovesNone(i: SessionId, m: ServerMessage)
    ensures NoMove(DropPlan(i, m)) && NoMove(Respond(i, m)) && NoGo(Respond(i, m))
  {
    hide NoMove, NoGo, MovesLast;
    var a, b, d, f := One(Tell({i}, m)), One(MarkClosing(i)), One(Go(i, false)), One(MarkStopped(i));
    OneMove(Tell({i}, m), i);
    OneMove(MarkClosing(i), i);
    OneMove(Go(i, false), i);
    OneMove(MarkStopped(i), i);
    ThenMoves(d, f, i);
    ThenMoves(b, Then(d, f), i);
    ThenMoves(a, Then(b, Then(d, f)), i);
  }

  lemma EnterMovesLast(i: SessionId, m: ServerMessage)
    ensures var p := Then(One(Enter(i)), Then(Respond(i, m), Then(Respond(i, JoinAccepted), One(Move(i, LOBBY, false)))));
            NoGo(p) && MovesLast(p, i)
  {
    hide NoMove, NoGo, MovesLast;
    var a, b, d, f := One(Enter(i)), Respond(i, m), Respond(i, JoinAccepted), One(Move(i, LOBBY, false));
    OneMove(Enter(i), i);
    OneMove(Tell({i}, m), i);
    OneMove(Tell({i}, JoinAccepted), i);
    OneMove(Move(i, LOBBY, false), i);
    ThenMoves(d, f, i);
    ThenMoves(b, Then(d, f), i);
    ThenMoves(a, Then(b, Then(d, f)), i);
  }

  lemma ProofSeeks(c: Config, e: Input, s: Server, i: SessionId, signature: Text, env: Env)
    requires Sound(c, s) && i in s.clients && MayCommand(c, s.clients[i]) && s.clients[i].phase == Reading
    requires e == Received(i, IdentityProof(signature), env)
    ensures var p := ProofPlan(c, s, i, signature);
            if EnterReady(c, e, s, i) then NoGo(p) && MovesLast(p, i) else NoMove(p)
  {
    hide Sound, DropPlan, Respond, NicknameInUse, CanBind, Fingerprint, MayCommand, NoMove, NoGo, MovesLast;
    if EnterReady(c, e, s, i) {
      EnterMovesLast(i, IdentityAccepted(Fingerprint(s.clients[i].pendingKey)));
    } else {
      EnterUnready(c, e, s, i);
      DropMovesNone(i, JoinRejected("Already joined"));
      DropMovesNone(i, JoinRejected("Identify before sending proof"));
      DropMovesNone(i, JoinRejected("Identity proof failed"));
      DropMovesNone(i, Banned);
      DropMovesNone(i, ServerMessage.NicknameTaken);
      DropMovesNone(i, JoinRejected("Identity registration failed"));
    }
  }

  lemma LeaveSeeks(s: Server, i: SessionId)
    ensures var p := LeavePlan(s, i);
            if Of(s, i).activeRoom == LOBBY then NoMove(p) else NoGo(p) && MovesLast(p, i)
  {
  }

  lemma CreateSeeks(s: Server, i: SessionId, name: Text)
    ensures var p := CreatePlan(s, i, name);
            if CreationError(s, name) != [] then NoMove(p) else NoGo(p) && MovesLast(p, i)
  {
    hide CreationError, NoMove, NoGo, MovesLast;
    var error, a, b := CreationError(s, name), Found(name, Of(s, i).nickname), Move(i, s.nextRoomId, true);
    OneMove(Tell({i}, ServerError(error)), i);
    OneMove(a, i);
    OneMove(b, i);
    ThenMoves(One(a), One(b), i);
  }

  lemma JoinSeeks(c: Config, s: Server, i: SessionId, name: Text)
    ensures var p := JoinPlan(c, s, i, name);
      if !NameExists(s, name) || Of(s, i).activeRoom == FindRoom(s, name) then NoMove(p) else NoGo(p) && MovesLast(p, i)
  {
    hide NameExists, FindRoom, MoveSession;
  }

  lemma RoomIsNotZero(c: Config, s: Server, name: Text)
    requires Sound(c, s)
    ensures NameExists(s, name) ==> FindRoom(s, name) != 0
  {
    hide DistinctNames, Handles, FirstMatch, Lower, IsValidRoomName, IsValidRoomTopic;
  }

  /** What the commands do with the four messages. */
  lemma CommandSeeks(c: Config, s: Server, e: Input)
    requires Sound(c, s) && Enabled(c, s, e) && e.Received? && SeeksRoom(e, e.id) && MayCommand(c, s.clients[e.id])
    requires e.id !in s.sessions ==> s.clients[e.id].activeRoom == 0
    ensures var p := CommandPlan(c, s, e.id, e.message, e.env);
      && (NoMove(p) || (NoGo(p) && MovesLast(p, e.id)))
      && (e.id !in s.sessions ==> (TakesSeatAgain(c, s, e) <==> !NoMove(p)))
  {
    hide Sound, ProofPlan, LeavePlan, CreatePlan, JoinPlan, CreationError, NameExists, FindRoom, MayCommand, EnterReady, Respond,
      NoMove, NoGo, MovesLast;
    var i := e.id;
    DropMovesNone(i, DirectText(IGNORED_LEAVE));
    DropMovesNone(i, ServerError("Join before creating rooms"));
    DropMovesNone(i, ServerError("Join before switching rooms"));
    match e.message
    case IdentityProof(signature) =>
      ProofSeeks(c, e, s, i, signature, e.env);
      MoverSeated(ProofPlan(c, s, i, signature), i);
    case Leave =>
      LeaveSeeks(s, i);
      MoverSeated(LeavePlan(s, i), i);
    case CreateRoom(name) =>
      CreateSeeks(s, i, name);
      MoverSeated(CreatePlan(s, i, name), i);
    case JoinRoom(name) =>
      RoomIsNotZero(c, s, name);
      JoinSeeks(c, s, i, name);
      MoverSeated(JoinPlan(c, s, i, name), i);
  }

  lemma SeekerPlan(c: Config, s: Server, e: Input)
    requires Sound(c, s) && Enabled(c, s, e) && e.Received? && SeeksRoom(e, e.id)
    requires e.id !in s.sessions ==> s.clients[e.id].activeRoom == 0
    ensures var p := PlanOf(c, s, e);
      && (NoMove(p) || (NoGo(p) && MovesLast(p, e.id)))
      && (e.id !in s.sessions ==> (TakesSeatAgain(c, s, e) <==> !NoMove(p)))
  {
    hide Sound, CommandPlan, DropPlan;
    DropMovesNone(e.id, ServerError("Protocol handshake required"));
    DropMovesNone(e.id, AuthRequired);
    if MayCommand(c, s.clients[e.id]) { CommandSeeks(c, s, e); }
  }

  /** A step keeps everyone in a room registered exactly when it does not seat an unregistered session. */
  lemma StepRegistered(c: Config, s: Server, e: Input)
    requires Sound(c, s) && Enabled(c, s, e) && AllRegistered(s)
    ensures AllRegistered(Step(c, s, e)) <==> !TakesSeatAgain(c, s, e)
  {
    var seeks := e.Received? && SeeksRoom(e, e.id);
    assert e.Received? ==> e.id in s.clients;
    assert TakesSeatAgain(c, s, e) ==> seeks;
    assert e.Received? && e.id !in s.sessions ==> s.clients[e.id].activeRoom == 0;
    hide Sound, Enabled, Step, PlanOf, Legal, Run, TakesSeatAgain, NoMove, NoGo, MovesLast, AllRegistered;
    PlanLegal(c, s, e);
    PlanRuns(c, s, e);
    var p := PlanOf(c, s, e);
    if seeks { SeekerPlan(c, s, e); }
    if seeks && TakesSeatAgain(c, s, e) {
      SeatAgainIs(c, s, e);
      MoverSeated(p, e.id);
      PlanSeats(c, e, s, p, e.id);
      StrayIsThere(Step(c, s, e), e.id);
    } else {
      PlanRegistered(c, e, s, p);
    }
  }

  lemma SeatAgainIs(c: Config, s: Server, e: Input)
    requires TakesSeatAgain(c, s, e)
    ensures e.Received? && e.id !in s.sessions
  {
  }

  lemma {:induction false} MoverSeated(p: Plan, i: SessionId)
    ensures MovesLast(p, i) ==> !NoMove(p)
    decreases p
  {
    match p
    case Skip =>
    case One(_) =>
    case Then(_, o) => MoverSeated(o, i);
  }

  lemma StrayIsThere(s: Server, i: SessionId)
    requires i in s.clients && s.clients[i].activeRoom != 0 && i !in s.sessions
    ensures !AllRegistered(s)
  {
  }

  /** Over a run from a start without connections: up to `n` the members of rooms have all been
      registered, under nicknames that are not banned, exactly when no step has seated an
      unregistered session. */
  lemma {:induction false} OrderlyUntilSeatTaken(c: Config, states: seq<Server>, inputs: seq<Input>, n: nat)
    requires IsRun(c, states, inputs) && Sound(c, states[0]) && states[0].clients == map[] && n <= |inputs|
    ensures (forall m :: 0 <= m <= n ==> Orderly(states[m])) <==>
            forall m :: 0 <= m < n ==> !TakesSeatAgain(c, states[m], inputs[m])
  {
    hide Sound, Step, Enabled, Orderly, AllRegistered, TakesSeatAgain;
    if n == 0 {
      NooneSeated(states[0]);
      OrderlyExactly(c, states[0]);
    } else {
      OrderlyUntilSeatTaken(c, states, inputs, n - 1);
      RunSound(c, states, inputs, n - 1);
      RunSound(c, states, inputs, n);
      OrderlyExactly(c, states[n - 1]);
      OrderlyExactly(c, states[n]);
      if Orderly(states[n - 1]) { StepRegistered(c, states[n - 1], inputs[n - 1]); }
    }
  }

  lemma NooneSeated(s: Server)
    requires s.clients == map[]
    ensures AllRegistered(s)
  {
  }

  // ---- such a run ----

  lemma {:induction false} OnlyOneNamed(c: Config, s: Server, i: SessionId)
    requires Sound(c, s) && i in s.sessions && s.clients[i].nickname != []
    ensures FirstNamed(s, Ordered(s.sessions), s.clients[i].nickname) == Some(i)
  {
    hide Seats, Handles, RoomTable;
    var target := FirstNamed(s, Ordered(s.sessions), s.clients[i].nickname);
    assert i in Ordered(s.sessions);
  }

  lemma BanStepIs(c: Config, s: Server, nick: Text)
    ensures Step(c, s, BanUser(nick, [])) == Ban(c, s, nick, [])
  {
    hide Ban;
  }

  /** The ban of a registered session, up to what deliveries leave alone. */
  lemma BanCore(c: Config, s: Server, i: SessionId, nick: Text)
    requires Sound(c, s) && i in s.sessions && s.clients[i].nickname == nick != []
    ensures i in s.clients
    ensures Core(Step(c, s, BanUser(nick, []))) == Core(Unseat(Close(BanStored(s, nick, []), i), i))
  {
    hide Sound, Core, Ban, Expel, Close, Unseat, BanStored, BroadcastRoom, BroadcastUsers, BanReason, FirstNamed, Ordered, Step;
    RegisteredKnown(c, s, i);
    OnlyOneNamed(c, s, i);
    BanUnfolds(c, s, nick, []);
    BanStepIs(c, s, nick);
    BannedIs(s, nick, i);
    NextIsNew(c, s);
    var banned, r, text := BanStored(s, nick, []), Of(s, i).activeRoom, "[system] " + nick + " has been banned";
    var out := Expel(c, banned, i, nick, BanReason([]));
    ExpelCore(c, banned, i, nick, BanReason([]));
    BroadcastRoomCore(c, out, r, text, []);
    BroadcastUsersCore(c, BroadcastRoom(c, out, r, text, []), r);
  }

  lemma RegisteredKnown(c: Config, s: Server, i: SessionId)
    requires Sound(c, s) && i in s.sessions
    ensures i in s.clients
  {
  }

  /** What a ban leaves of a registered session. */
  lemma BannedOut(c: Config, s: Server, i: SessionId)
    requires Sound(c, s) && i in s.sessions && s.clients[i].nickname != []
    ensures var t := Step(c, s, BanUser(s.clients[i].nickname, []));
      && i in t.clients && Bare(t.clients[i]) == Bare(s.clients[i].(closing := true, activeRoom := 0))
      && i !in t.sessions && s.clients[i].nickname in t.bans
  {
    hide Sound, Core, Bare, Step, Close, Unseat, BanStored;
    RegisteredKnown(c, s, i);
    var nick := s.clients[i].nickname;
    BanCore(c, s, i, nick);
    BannedIs(s, nick, i);
    UnseatFields(Close(BanStored(s, nick, []), i), i);
    CoreKeys(Unseat(Close(BanStored(s, nick, []), i), i), Step(c, s, BanUser(nick, [])));
    CoreFields(Unseat(Close(BanStored(s, nick, []), i), i), Step(c, s, BanUser(nick, [])));
  }

  lemma BannedIs(s: Server, nick: Text, i: SessionId)
    requires i in s.clients
    ensures var t := Close(BanStored(s, nick, []), i);
      && t.clients == s.clients[i := s.clients[i].(closing := true)] && t.rooms == s.rooms && t.sessions == s.sessions
      && nick in t.bans && BanStored(s, nick, []).rooms == s.rooms
  {
  }

  lemma BareIs(x: Session, y: Session)
    requires Bare(x) == Bare(y)
    ensures x.nickname == y.nickname && x.activeRoom == y.activeRoom && x.phase == y.phase
    ensures x.negotiated == y.negotiated && x.authenticated == y.authenticated
  {
    assert Bare(x).nickname == x.nickname && Bare(x).activeRoom == x.activeRoom && Bare(x).phase == x.phase;
    assert Bare(x).negotiated == x.negotiated && Bare(x).authenticated == x.authenticated;
  }

  lemma LeaveStepIs(c: Config, s: Server, i: SessionId, env: Env)
    requires i in s.clients && MayCommand(c, s.clients[i]) && s.clients[i].nickname != [] && s.clients[i].activeRoom == 0
    ensures Step(c, s, Received(i, Leave, env)) == MoveSession(c, s, i, LOBBY, true)
  {
    hide MoveSession;
  }

  /** A leave from outside every room leads to the lobby. */
  lemma LeaveSeatsAgain(c: Config, s: Server, i: SessionId, env: Env)
    requires Sound(c, s) && i in s.clients && MayCommand(c, s.clients[i])
    requires s.clients[i].nickname != [] && s.clients[i].activeRoom == 0
    ensures var t := Step(c, s, Received(i, Leave, env));
      i in t.clients && t.clients[i].activeRoom == LOBBY && t.clients[i].nickname == s.clients[i].nickname
      && t.sessions == s.sessions && t.bans == s.bans
  {
    hide Sound, Core, MoveSession, Reseat, Step, MayCommand;
    LeaveStepIs(c, s, i, env);
    LobbyExists(c, s);
    MoveSessionCore(c, s, i, LOBBY, true);
    ReseatFields(s, i, LOBBY);
    SameOfCore(Reseat(s, i, LOBBY), MoveSession(c, s, i, LOBBY, true));
    CoreFields(Reseat(s, i, LOBBY), MoveSession(c, s, i, LOBBY, true));
  }

  /** From any reachable state, any member that can still be read: it is banned, sends a leave, and is
      a member of the lobby, unregistered, under a nickname that is banned. */
  lemma {:induction false} BannedSitsAgain(c: Config, s: Server, i: SessionId, env: Env)
    returns (states: seq<Server>, inputs: seq<Input>)
    requires Sound(c, s) && i in s.sessions && s.clients[i].activeRoom != 0 && s.clients[i].phase == Reading
    requires MayCommand(c, s.clients[i])
    ensures IsRun(c, states, inputs) && states[0] == s
    ensures inputs == [BanUser(s.clients[i].nickname, []), Received(i, Leave, env)]
    ensures var t := states[2];
      && LOBBY in t.rooms && i in t.rooms[LOBBY].members && i !in t.sessions && i in t.clients
      && t.clients[i].nickname == s.clients[i].nickname && t.clients[i].nickname in t.bans
  {
    hide Sound, Step, Bare, MayCommand;
    SeatedHasName(c, s, i);
    RegisteredKnown(c, s, i);
    var ban, leave := BanUser(s.clients[i].nickname, []), Received(i, Leave, env);
    var s1 := Step(c, s, ban);
    BannedOut(c, s, i);
    StepSound(c, s, ban);
    BareIs(s1.clients[i], s.clients[i].(closing := true, activeRoom := 0));
    SameRights(c, s.clients[i], s1.clients[i]);
    LeaveSeatsAgain(c, s1, i, env);
    StepSound(c, s1, leave);
    var s2 := Step(c, s1, leave);
    SeatedInLobby(c, s2, i);
    states, inputs := [s, s1, s2], [ban, leave];
  }

  lemma SeatedHasName(c: Config, s: Server, i: SessionId)
    requires Sound(c, s) && i in s.sessions && s.clients[i].activeRoom != 0
    ensures s.clients[i].nickname != []
  {
    hide Seats, RoomTable;
  }

  lemma SameRights(c: Config, x: Session, y: Session)
    requires MayCommand(c, x) && y.negotiated == x.negotiated && y.authenticated == x.authenticated
    ensures MayCommand(c, y)
  {
  }

  lemma SeatedInLobby(c: Config, s: Server, i: SessionId)
    requires Sound(c, s) && i in s.clients && s.clients[i].activeRoom == LOBBY
    ensures LOBBY in s.rooms && i in s.rooms[LOBBY].members
  {
    hide DistinctNames, Handles;
  }
}
