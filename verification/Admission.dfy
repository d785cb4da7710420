/** Who gets in: over every run, a session has a nickname only after version 3, the password and a
    proof against its latest claim, and a nickname has one key forever. */
module Admission {
  import opened Octets
  import opened Messages
  import opened Tables
  import opened ServerModel
  import opened ServerStructure
  import opened ServerActions
  import opened ServerPlans
  import opened ServerSafety
  import opened ServerReach

  // ---- credentials, and the actions that leave them alone ----

  /** What a session has shown of itself. */
  function Creds(x: Session): Session
  {
    x.(activeRoom := 0, quota := map[], closing := false, outbox := [])
  }

  ghost predicate SameCreds(s: Server, t: Server)
  {
    && t.clients.Keys == s.clients.Keys && t.identities == s.identities
    && forall j :: j in s.clients ==> Creds(t.clients[j]) == Creds(s.clients[j])
  }

  lemma CredsOfBare(x: Session)
    ensures Creds(Bare(x)) == Creds(x)
  {
  }

  lemma CoreCreds(s: Server, t: Server)
    requires Core(s) == Core(t)
    ensures SameCreds(s, t)
  {
    CoreKeys(s, t);
    CoreFields(s, t);
    hide Core, Creds, Bare;
    forall j | j in s.clients ensures Creds(t.clients[j]) == Creds(s.clients[j]) {
      CredsOfBare(s.clients[j]);
      CredsOfBare(t.clients[j]);
    }
  }

  lemma SameCredsTransitive(s: Server, t: Server, u: Server)
    requires SameCreds(s, t) && SameCreds(t, u)
    ensures SameCreds(s, u)
  {
    hide Creds;
    forall j | j in s.clients ensures Creds(u.clients[j]) == Creds(s.clients[j]) {
      assert j in t.clients;
    }
  }

  /** Actions that leave every session's credentials and every binding alone. */
  predicate IsQuiet(a: Action)
  {
    !a.Negotiate? && !a.Authorize? && !a.Claim? && !a.Enter? && !a.Register? && !a.MarkStopped? && !a.Open? && !a.Enroll?
  }

  lemma OneSeatCreds(s: Server, t: Server, i: SessionId, r: RoomId)
    requires i in s.clients && t.clients == s.clients[i := s.clients[i].(activeRoom := r)] && t.identities == s.identities
    ensures SameCreds(s, t)
  {
  }

  lemma SeatCreds(s: Server, i: SessionId, r: RoomId)
    requires i in s.clients
    ensures SameCreds(s, Unseat(s, i))
    ensures r in s.rooms ==> SameCreds(s, Reseat(s, i, r))
  {
    hide Unseat, Reseat, SameCreds;
    UnseatFields(s, i);
    UnseatIdentities(s, i);
    OneSeatCreds(s, Unseat(s, i), i, 0);
    if r in s.rooms {
      ReseatFields(s, i, r);
      ReseatIdentities(s, i, r);
      OneSeatCreds(s, Reseat(s, i, r), i, r);
    }
  }

  lemma UnseatIdentities(s: Server, i: SessionId)
    ensures Unseat(s, i).identities == s.identities
  {
  }

  lemma ReseatIdentities(s: Server, i: SessionId, r: RoomId)
    requires r in s.rooms
    ensures Reseat(s, i, r).identities == s.identities
  {
  }

  lemma ExpelCreds(c: Config, s: Server, i: SessionId, nick: Text, reason: Text)
    requires 0 !in s.rooms && i in s.clients
    ensures SameCreds(s, Expel(c, s, i, nick, reason))
  {
    assert SameCreds(s, Close(s, i)) && i in Close(s, i).clients;
    hide SameCreds, Core, Expel, Unseat, Close;
    ExpelCore(c, s, i, nick, reason);
    SeatCreds(Close(s, i), i, 0);
    CoreCreds(Unseat(Close(s, i), i), Expel(c, s, i, nick, reason));
    SameCredsTransitive(s, Close(s, i), Unseat(Close(s, i), i));
    SameCredsTransitive(s, Unseat(Close(s, i), i), Expel(c, s, i, nick, reason));
  }

  lemma BannedCreds(c: Config, s: Server, nick: Text, reason: Text)
    requires Sound(c, s)
    ensures var banned := BanStored(s, nick, reason);
            SameCreds(s, banned) && 0 !in banned.rooms && s.sessions <= banned.clients.Keys
  {
  }

  lemma BanAwayCreds(c: Config, e: Input, s: Server, a: Action)
    requires Sound(c, s) && Allowed(c, e, s, a) && a.BanAway?
    ensures SameCreds(s, Do(c, s, a))
  {
    hide Sound, SameCreds, Expel, BanStored, BanReason;
    BannedCreds(c, s, a.nickname, a.reason);
    if a.victim.Some? {
      var banned := BanStored(s, a.nickname, a.reason);
      ExpelCreds(c, banned, a.victim.value, a.nickname, BanReason(a.reason));
      SameCredsTransitive(s, banned, Do(c, s, a));
    }
  }

  lemma PlacedCreds(s: Server, r: RoomId)
    ensures SameCreds(s, s.(localRoomId := r))
  {
  }

  lemma RenamedCreds(s: Server, r: RoomId, room: Room, w: Write)
    ensures SameCreds(s, Written(WithRoom(s, r, room), w))
  {
  }

  lemma PlaceCreds(c: Config, s: Server)
    ensures SameCreds(s, Do(c, s, PlaceHost))
  {
    hide SameCreds, Core, BroadcastUsers;
    var moved := s.(localRoomId := LOBBY);
    PlacedCreds(s, LOBBY);
    BroadcastUsersCore(c, moved, LOBBY);
    CoreCreds(moved, Do(c, s, PlaceHost));
    SameCredsTransitive(s, moved, Do(c, s, PlaceHost));
  }

  lemma MoveHostCreds(c: Config, s: Server, target: RoomId)
    requires target in s.rooms
    ensures SameCreds(s, Do(c, s, MoveHost(target)))
  {
    hide SameCreds, Core, MoveLocal;
    var moved := s.(localRoomId := target);
    PlacedCreds(s, target);
    MoveLocalCore(c, s, target);
    CoreCreds(moved, Do(c, s, MoveHost(target)));
    SameCredsTransitive(s, moved, Do(c, s, MoveHost(target)));
  }

  lemma RetitleCreds(c: Config, s: Server, r: RoomId, topic: Text)
    requires r in s.rooms
    ensures SameCreds(s, Retitled(c, s, r, topic))
  {
    hide SameCreds, Core, DeliverAll, WithRoom, Written;
    var renamed := Written(WithRoom(s, r, s.rooms[r].(topic := topic)), TopicWrite(r, topic));
    RenamedCreds(s, r, s.rooms[r].(topic := topic), TopicWrite(r, topic));
    DeliverAllCore(c, renamed, s.rooms[r].members, RoomTopic(r, topic));
    CoreCreds(renamed, Retitled(c, s, r, topic));
    SameCredsTransitive(s, renamed, Retitled(c, s, r, topic));
  }

  lemma TableCreds(s: Server, a: Action)
    requires a.Found? || a.LiftBan? || ((a.MarkClosing? || a.Count?) && a.id in s.clients)
    ensures forall c :: SameCreds(s, Do(c, s, a))
  {
  }

  lemma QuietCreds(c: Config, e: Input, s: Server, a: Action)
    requires Sound(c, s) && Allowed(c, e, s, a) && IsQuiet(a)
    ensures SameCreds(s, Do(c, s, a))
  {
    if IsTalk(a) {
      TalkCore(c, s, a);
      hide Sound, Allowed, Core, Do;
      CoreCreds(s, Do(c, s, a));
    } else if a.BanAway? {
      BanAwayCreds(c, e, s, a);
    } else if a.Found? || a.LiftBan? || a.MarkClosing? || a.Count? {
      hide Do, Sound, SameCreds;
      TableCreds(s, a);
    } else {
      assert 0 !in s.rooms;
      hide Sound, SameCreds, Core, CreationError, IsValidRoomTopic, MoveSession, Depart, MoveLocal, Retitled, Unseat,
        Reseat, BroadcastUsers;
      match a
      case Move(i, target, announce) =>
        SeatCreds(s, i, target);
        MoveSessionCore(c, s, i, target, announce);
        CoreCreds(Reseat(s, i, target), Do(c, s, a));
        SameCredsTransitive(s, Reseat(s, i, target), Do(c, s, a));
      case Go(i, announce) =>
        SeatCreds(s, i, 0);
        DepartCore(c, s, i, announce);
        CoreCreds(Unseat(s, i), Do(c, s, a));
        SameCredsTransitive(s, Unseat(s, i), Do(c, s, a));
      case PlaceHost => PlaceCreds(c, s);
      case MoveHost(target) => MoveHostCreds(c, s, target);
      case Retitle(r, topic) => RetitleCreds(c, s, r, topic);
    }
  }

  // ---- what an action may do to credentials, and in answer to what ----

  predicate Heard(e: Input, j: SessionId, m: ClientMessage) { e.Received? && e.id == j && e.message == m }

  predicate Claims(e: Input, j: SessionId, y: Session)
  {
    Heard(e, j, Identify(y.pendingNickname, y.pendingKey)) && e.env.challenge == y.pendingChallenge
  }

  predicate Proves(c: Config, e: Input, j: SessionId, x: Session)
  {
    e.Received? && e.id == j && e.message.IdentityProof? && c.verifies(x.pendingKey, x.pendingChallenge, e.message.signature)
  }

  predicate SamePending(x: Session, y: Session)
  {
    y.pendingNickname == x.pendingNickname && y.pendingKey == x.pendingKey && y.pendingChallenge == x.pendingChallenge
  }

  /** How input `e` may change session `j` from `x` to `y`, given the bindings afterwards. */
  predicate CredStep(c: Config, e: Input, j: SessionId, x: Session, y: Session, bound: map<Text, Text>)
  {
    && (x.negotiated ==> y.negotiated) && (x.authenticated ==> y.authenticated)
    && (y.negotiated ==> x.negotiated || Heard(e, j, ClientMessage.Hello(VERSION)))
    && (y.authenticated ==> x.authenticated || Heard(e, j, Authenticate(c.password)))
    && (x.phase == Stopped ==> y.phase == Stopped)
    && (SamePending(x, y) || y.pendingNickname == [] || (Claims(e, j, y) && MayCommand(c, x) && x.nickname == []))
    && (y.nickname == x.nickname
        || (x.nickname == [] && y.nickname == x.pendingNickname != [] && y.pendingNickname == []
            && Proves(c, e, j, x) && MayCommand(c, x)
            && y.nickname in bound && bound[y.nickname] == x.pendingKey))
  }

  /** Bindings are only added. */
  predicate BindingsKept(before: map<Text, Text>, after: map<Text, Text>)
  {
    forall n :: n in before ==> n in after && after[n] == before[n]
  }

  ghost predicate CredSteps(c: Config, e: Input, s: Server, t: Server)
  {
    && s.clients.Keys <= t.clients.Keys && BindingsKept(s.identities, t.identities)
    && (forall j :: j in s.clients ==> CredStep(c, e, j, s.clients[j], t.clients[j], t.identities))
    && (forall j :: j in t.clients && j !in s.clients ==> t.clients[j] == NEW_SESSION && e == Accept(j))
  }

  lemma QuietCredStep(c: Config, e: Input, j: SessionId, x: Session, y: Session, bound: map<Text, Text>)
    requires Creds(x) == Creds(y)
    ensures CredStep(c, e, j, x, y, bound)
  {
    assert x.negotiated == Creds(x).negotiated && x.authenticated == Creds(x).authenticated;
    assert x.phase == Creds(x).phase && x.nickname == Creds(x).nickname;
    assert x.pendingNickname == Creds(x).pendingNickname && x.pendingKey == Creds(x).pendingKey;
    assert x.pendingChallenge == Creds(x).pendingChallenge;
  }

  lemma QuietCredSteps(c: Config, e: Input, s: Server, t: Server)
    requires SameCreds(s, t)
    ensures CredSteps(c, e, s, t)
  {
    hide Creds, CredStep;
    forall j | j in s.clients ensures CredStep(c, e, j, s.clients[j], t.clients[j], t.identities) {
      QuietCredStep(c, e, j, s.clients[j], t.clients[j], t.identities);
    }
  }

  /** A change of one session that keeps the bindings. */
  lemma OneCredSteps(c: Config, e: Input, s: Server, t: Server, i: SessionId, y: Session)
    requires i in s.clients && t.clients == s.clients[i := y] && BindingsKept(s.identities, t.identities)
    requires CredStep(c, e, i, s.clients[i], y, t.identities)
    ensures CredSteps(c, e, s, t)
  {
    hide Creds, CredStep;
    forall j | j in s.clients ensures CredStep(c, e, j, s.clients[j], t.clients[j], t.identities) {
      if j != i { QuietCredStep(c, e, j, s.clients[j], t.clients[j], t.identities); }
    }
  }

  lemma EnterCreds(c: Config, e: Input, s: Server, i: SessionId)
    requires Sound(c, s) && Allowed(c, e, s, Enter(i))
    ensures CredSteps(c, e, s, Do(c, s, Enter(i)))
  {
    var x := s.clients[i];
    var t := Do(c, s, Enter(i));
    EnterBinds(c, e, s, i);
    hide Do, Sound;
    OneCredSteps(c, e, s, t, i, Admitted(x));
  }

  lemma EnterBinds(c: Config, e: Input, s: Server, i: SessionId)
    requires Allowed(c, e, s, Enter(i))
    ensures i in s.clients
    ensures var t, x := Do(c, s, Enter(i)), s.clients[i];
      && t.clients == s.clients[i := Admitted(x)] && BindingsKept(s.identities, t.identities)
      && x.pendingNickname in t.identities && t.identities[x.pendingNickname] == x.pendingKey
  {
  }

  lemma OpenedIs(c: Config, s: Server, i: SessionId)
    requires i in s.clients
    ensures var t := Do(c, s, Open(i));
      && i in t.clients && t.clients == s.clients[i := t.clients[i]] && t.identities == s.identities
      && t.clients[i].(outbox := []) == s.clients[i].(phase := Reading, outbox := [])
  {
  }

  lemma OpenCredStep(c: Config, e: Input, i: SessionId, x: Session, y: Session, bound: map<Text, Text>)
    requires x.phase == Handshaking && y.(outbox := []) == x.(phase := Reading, outbox := [])
    ensures CredStep(c, e, i, x, y, bound)
  {
    QuietCredStep(c, e, i, x, y.(phase := x.phase), bound);
  }

  lemma OpenCreds(c: Config, e: Input, s: Server, i: SessionId)
    requires Allowed(c, e, s, Open(i))
    ensures CredSteps(c, e, s, Do(c, s, Open(i)))
  {
    hide Do, CredStep;
    OpenedIs(c, s, i);
    var t := Do(c, s, Open(i));
    OpenCredStep(c, e, i, s.clients[i], t.clients[i], t.identities);
    OneCredSteps(c, e, s, t, i, t.clients[i]);
  }

  lemma FlagCreds(c: Config, e: Input, s: Server, a: Action)
    requires Allowed(c, e, s, a) && (a.Negotiate? || a.Authorize? || a.Claim? || a.MarkStopped?)
    ensures CredSteps(c, e, s, Do(c, s, a))
  {
    hide IsValidNickname;
    var i, x, t := a.id, s.clients[a.id], Do(c, s, a);
    var y := t.clients[i];
    assert t.clients == s.clients[i := y] && t.identities == s.identities;
    assert CredStep(c, e, i, x, y, t.identities);
    hide Do, CredStep, CredSteps, Allowed;
    OneCredSteps(c, e, s, t, i, y);
  }

  lemma LoudCreds(c: Config, e: Input, s: Server, a: Action)
    requires Sound(c, s) && Allowed(c, e, s, a) && !IsQuiet(a)
    ensures CredSteps(c, e, s, Do(c, s, a))
  {
    match a
    case Enter(i) => hide Allowed, Do; EnterCreds(c, e, s, i);
    case Open(i) => hide Allowed, Do; OpenCreds(c, e, s, i);
    case Register(nick, key) => hide Allowed; RegisterCreds(c, e, s, nick, key);
    case Enroll(i) => EnrollCreds(c, e, s, i);
    case _ => hide Allowed, Do; FlagCreds(c, e, s, a);
  }

  lemma RegisterCreds(c: Config, e: Input, s: Server, nick: Text, key: Text)
    ensures CredSteps(c, e, s, Bind(s, nick, key))
  {
    var t := Bind(s, nick, key);
    assert t.clients == s.clients && BindingsKept(s.identities, t.identities);
    hide Bind, CredStep;
    forall j | j in s.clients ensures CredStep(c, e, j, s.clients[j], t.clients[j], t.identities) {
      QuietCredStep(c, e, j, s.clients[j], t.clients[j], t.identities);
    }
  }

  lemma EnrollCreds(c: Config, e: Input, s: Server, i: SessionId)
    requires i !in s.clients && e == Accept(i)
    ensures CredSteps(c, e, s, Enrolled(s, i))
  {
    var t := Enrolled(s, i);
    hide CredStep;
    forall j | j in s.clients ensures CredStep(c, e, j, s.clients[j], t.clients[j], t.identities) {
      QuietCredStep(c, e, j, s.clients[j], t.clients[j], t.identities);
    }
  }

  // ---- from actions to steps ----

  lemma CredStepTransitive(c: Config, e: Input, j: SessionId, x: Session, y: Session, z: Session,
                           mid: map<Text, Text>, bound: map<Text, Text>)
    requires CredStep(c, e, j, x, y, mid) && CredStep(c, e, j, y, z, bound) && BindingsKept(mid, bound)
    ensures CredStep(c, e, j, x, z, bound)
  {
  }

  lemma NewSessionStays(c: Config, j: SessionId, y: Session, bound: map<Text, Text>)
    requires CredStep(c, Accept(j), j, NEW_SESSION, y, bound)
    ensures y.pendingNickname == [] && y.nickname == [] && !y.negotiated && !y.authenticated
  {
  }

  /** `CredSteps`, up to the unshown parts of a session that is new. */
  ghost predicate CredChange(c: Config, e: Input, s: Server, t: Server)
  {
    && s.clients.Keys <= t.clients.Keys && BindingsKept(s.identities, t.identities)
    && (forall j :: j in s.clients ==> CredStep(c, e, j, s.clients[j], t.clients[j], t.identities))
    && (forall j :: j in t.clients && j !in s.clients ==> CredStep(c, e, j, NEW_SESSION, t.clients[j], t.identities))
    && (forall j :: j in t.clients && j !in s.clients ==> e == Accept(j))
  }

  lemma CredChangeTransitive(c: Config, e: Input, s: Server, t: Server, u: Server)
    requires CredChange(c, e, s, t) && CredChange(c, e, t, u)
    ensures CredChange(c, e, s, u)
  {
    hide CredStep;
    forall j | j in s.clients ensures CredStep(c, e, j, s.clients[j], u.clients[j], u.identities) {
      CredStepTransitive(c, e, j, s.clients[j], t.clients[j], u.clients[j], t.identities, u.identities);
    }
    forall j | j in u.clients && j !in s.clients
      ensures CredStep(c, e, j, NEW_SESSION, u.clients[j], u.identities) && e == Accept(j)
    {
      if j in t.clients {
        CredStepTransitive(c, e, j, NEW_SESSION, t.clients[j], u.clients[j], t.identities, u.identities);
      }
    }
  }

  lemma CredStepsChange(c: Config, e: Input, s: Server, t: Server)
    requires CredSteps(c, e, s, t)
    ensures CredChange(c, e, s, t)
  {
    hide CredStep;
    forall j | j in t.clients && j !in s.clients ensures CredStep(c, e, j, NEW_SESSION, t.clients[j], t.identities) {
      QuietCredStep(c, e, j, NEW_SESSION, t.clients[j], t.identities);
    }
  }

  lemma ActionCreds(c: Config, e: Input, s: Server, a: Action)
    requires Sound(c, s) && Allowed(c, e, s, a)
    ensures CredChange(c, e, s, Do(c, s, a))
  {
    hide Sound, Allowed, Do, CredChange, CredSteps, SameCreds;
    if IsQuiet(a) {
      QuietCreds(c, e, s, a);
      QuietCredSteps(c, e, s, Do(c, s, a));
    } else {
      LoudCreds(c, e, s, a);
    }
    CredStepsChange(c, e, s, Do(c, s, a));
  }

  lemma {:induction false} PlanCreds(c: Config, e: Input, s: Server, p: Plan)
    requires Sound(c, s) && Legal(c, e, s, p)
    ensures CredChange(c, e, s, Run(c, s, p))
    decreases p
  {
    hide Sound, Do, CredChange;
    match p
    case Skip => NoChange(c, e, s);
    case One(a) => ActionCreds(c, e, s, a);
    case Then(q, r) =>
      hide Allowed;
      PlanCreds(c, e, s, q);
      PlanSound(c, e, s, q);
      PlanCreds(c, e, Run(c, s, q), r);
      CredChangeTransitive(c, e, s, Run(c, s, q), Run(c, s, p));
  }

  lemma NoChange(c: Config, e: Input, s: Server)
    ensures CredChange(c, e, s, s)
  {
    hide CredStep;
    forall j | j in s.clients ensures CredStep(c, e, j, s.clients[j], s.clients[j], s.identities) {
      QuietCredStep(c, e, j, s.clients[j], s.clients[j], s.identities);
    }
  }

  lemma StepCreds(c: Config, s: Server, e: Input)
    requires Sound(c, s) && Enabled(c, s, e)
    ensures CredChange(c, e, s, Step(c, s, e))
  {
    hide Legal, PlanOf, Run, Step, Sound, Enabled, CredChange;
    PlanLegal(c, s, e);
    PlanCreds(c, e, s, PlanOf(c, s, e));
    PlanRuns(c, s, e);
  }

  /** A nickname, once set, never changes, and neither does a binding. */
  lemma NamesAndBindingsStay(c: Config, s: Server, e: Input)
    requires Sound(c, s) && Enabled(c, s, e)
    ensures forall j :: j in s.clients && s.clients[j].nickname != [] ==>
              j in Step(c, s, e).clients && Step(c, s, e).clients[j].nickname == s.clients[j].nickname
    ensures BindingsKept(s.identities, Step(c, s, e).identities)
  {
    hide Step, Sound, Enabled, Claims, Proves, Heard, MayCommand;
    StepCreds(c, s, e);
    var t := Step(c, s, e);
    forall j | j in s.clients && s.clients[j].nickname != [] ensures t.clients[j].nickname == s.clients[j].nickname {
      assert CredStep(c, e, j, s.clients[j], t.clients[j], t.identities);
    }
  }

  // ---- evidence over a run ----

  predicate Greeted(inputs: seq<Input>, n: nat, i: SessionId)
  {
    exists k :: 0 <= k < n <= |inputs| && Heard(inputs[k], i, ClientMessage.Hello(VERSION))
  }

  predicate GavePassword(c: Config, inputs: seq<Input>, n: nat, i: SessionId)
  {
    exists k :: 0 <= k < n <= |inputs| && Heard(inputs[k], i, Authenticate(c.password))
  }

  predicate Qualified(c: Config, inputs: seq<Input>, n: nat, i: SessionId)
  {
    Greeted(inputs, n, i) && (c.password != [] ==> GavePassword(c, inputs, n, i))
  }

  predicate IsIdentifyFrom(e: Input, i: SessionId) { e.Received? && e.id == i && e.message.Identify? }

  /** At `d` a qualified session `i` claimed the nickname with the key and was challenged, and until
      `n` it has sent no other claim. */
  predicate Claimed(c: Config, inputs: seq<Input>, d: nat, n: nat, i: SessionId, nick: Text, key: Text, challenge: Text)
  {
    && d < n <= |inputs| && Qualified(c, inputs, d, i)
    && Heard(inputs[d], i, Identify(nick, key)) && inputs[d].env.challenge == challenge
    && forall k :: d < k < n ==> !IsIdentifyFrom(inputs[k], i)
  }

  /** The pending claim of `x` is the session's latest. */
  ghost predicate IsLatestClaim(c: Config, inputs: seq<Input>, n: nat, i: SessionId, x: Session)
  {
    exists d :: Claimed(c, inputs, d, n, i, x.pendingNickname, x.pendingKey, x.pendingChallenge)
  }

  predicate ProvedAt(c: Config, inputs: seq<Input>, q: nat, n: nat, i: SessionId, key: Text, challenge: Text)
  {
    && q < n <= |inputs| && inputs[q].Received? && inputs[q].id == i && inputs[q].message.IdentityProof?
    && c.verifies(key, challenge, inputs[q].message.signature)
  }

  /** Session `i` answered the challenge of its latest claim with a proof that verifies. */
  ghost predicate Proved(c: Config, inputs: seq<Input>, n: nat, i: SessionId, nick: Text, key: Text)
  {
    exists d, q, challenge ::
      Claimed(c, inputs, d, q, i, nick, key, challenge) && ProvedAt(c, inputs, q, n, i, key, challenge)
  }

  /** What the inputs so far say about a session's credentials. */
  ghost predicate Evidence(c: Config, inputs: seq<Input>, n: nat, i: SessionId, x: Session, bound: map<Text, Text>)
  {
    && (x.negotiated ==> Greeted(inputs, n, i))
    && (x.authenticated ==> GavePassword(c, inputs, n, i))
    && (x.pendingNickname != [] ==>
          && x.nickname == [] && MayCommand(c, x)
          && (x.phase != Stopped ==> IsLatestClaim(c, inputs, n, i, x)))
    && (x.nickname != [] ==>
          x.nickname in bound && Proved(c, inputs, n, i, x.nickname, bound[x.nickname]))
  }

  lemma {:induction false} ClaimedLater(c: Config, inputs: seq<Input>, d: nat, n: nat, i: SessionId, nick: Text, key: Text, challenge: Text)
    requires Claimed(c, inputs, d, n, i, nick, key, challenge) && n < |inputs| && !IsIdentifyFrom(inputs[n], i)
    ensures Claimed(c, inputs, d, n + 1, i, nick, key, challenge)
  {
    hide Qualified, Heard;
  }

  lemma {:induction false} ProvedLater(c: Config, inputs: seq<Input>, n: nat, i: SessionId, nick: Text, key: Text)
    requires Proved(c, inputs, n, i, nick, key) && n < |inputs|
    ensures Proved(c, inputs, n + 1, i, nick, key)
  {
    hide Claimed;
    var d, q, challenge :| Claimed(c, inputs, d, q, i, nick, key, challenge) && ProvedAt(c, inputs, q, n, i, key, challenge);
    assert ProvedAt(c, inputs, q, n + 1, i, key, challenge);
  }

  lemma {:induction false} GreetedLater(c: Config, inputs: seq<Input>, n: nat, i: SessionId)
    requires n < |inputs|
    ensures Greeted(inputs, n, i) || Heard(inputs[n], i, ClientMessage.Hello(VERSION)) ==> Greeted(inputs, n + 1, i)
    ensures GavePassword(c, inputs, n, i) || Heard(inputs[n], i, Authenticate(c.password)) ==>
              GavePassword(c, inputs, n + 1, i)
  {
    hide Heard;
  }

  /** A claim by a session that may command and has no nickname is taken up, or ends the session. */
  lemma IdentifyTakenOrStopped(c: Config, s: Server, i: SessionId, nick: Text, key: Text, env: Env)
    requires Sound(c, s) && i in s.clients && MayCommand(c, s.clients[i]) && s.clients[i].nickname == []
    ensures var t := Step(c, s, Received(i, Identify(nick, key), env));
            i in t.clients && (t.clients[i].phase == Stopped || Claims(Received(i, Identify(nick, key), env), i, t.clients[i]))
  {
    var e := Received(i, Identify(nick, key), env);
    var t := Step(c, s, e);
    hide Sound, Depart, IdentityError, NicknameInUse;
    assert t == OnIdentify(c, s, i, nick, key, env.challenge);
    var error := IdentityError(s, nick, key);
    DropStops(c, s, i, JoinRejected(error));
    DropStops(c, s, i, Banned);
    DropStops(c, s, i, ServerMessage.NicknameTaken);
    hide Drop, Step;
    if error == [] && nick !in s.bans && !NicknameInUse(c, s, nick) {
      var x := s.clients[i].(pendingNickname := nick, pendingKey := key, pendingChallenge := env.challenge);
      PendingDelivered(c, s, i, x, Challenge(env.challenge));
    }
  }

  lemma PendingDelivered(c: Config, s: Server, i: SessionId, x: Session, m: ServerMessage)
    requires i in s.clients
    ensures var t := Deliver(c, With(s, i, x), i, m); i in t.clients && SamePending(x, t.clients[i])
  {
  }

  lemma DropStops(c: Config, s: Server, i: SessionId, m: ServerMessage)
    requires Sound(c, s) && i in s.clients
    ensures i in Drop(c, s, i, m).clients && Drop(c, s, i, m).clients[i].phase == Stopped
  {
    hide Sound, Depart, DeliverAll, Close;
    DeliverSound(c, s, i, m);
    FlagSound(c, Deliver(c, s, i, m), i);
    DepartSound(c, Close(Deliver(c, s, i, m), i), i, false);
  }

  /** The evidence for the pending claim of a session, after one more input. */
  lemma {:induction false} PendingEvidence(c: Config, s: Server, inputs: seq<Input>, n: nat, i: SessionId)
    requires n < |inputs| && Sound(c, s) && Enabled(c, s, inputs[n])
    requires i in s.clients && Evidence(c, inputs, n, i, s.clients[i], s.identities)
    requires i in Step(c, s, inputs[n]).clients
    requires CredStep(c, inputs[n], i, s.clients[i], Step(c, s, inputs[n]).clients[i], Step(c, s, inputs[n]).identities)
    ensures var y := Step(c, s, inputs[n]).clients[i];
            y.pendingNickname != [] ==>
              && y.nickname == [] && MayCommand(c, y)
              && (y.phase != Stopped ==> IsLatestClaim(c, inputs, n + 1, i, y))
  {
    var e, x, y := inputs[n], s.clients[i], Step(c, s, inputs[n]).clients[i];
    hide Sound, Step, Greeted, GavePassword, Proved, Claimed, Proves;
    if y.pendingNickname != [] && y.phase != Stopped {
      if IsIdentifyFrom(e, i) {
        assert MayCommand(c, x) && x.nickname == [];
        IdentifyTakenOrStopped(c, s, i, e.message.nickname, e.message.publicKey, e.env);
        ClaimedNow(c, inputs, n, i, y);
      } else {
        assert SamePending(x, y);
        var d :| Claimed(c, inputs, d, n, i, x.pendingNickname, x.pendingKey, x.pendingChallenge);
        ClaimedLater(c, inputs, d, n, i, x.pendingNickname, x.pendingKey, x.pendingChallenge);
      }
    }
  }

  lemma {:induction false} ClaimedNow(c: Config, inputs: seq<Input>, n: nat, i: SessionId, y: Session)
    requires n < |inputs| && Claims(inputs[n], i, y) && Qualified(c, inputs, n, i)
    ensures Claimed(c, inputs, n, n + 1, i, y.pendingNickname, y.pendingKey, y.pendingChallenge)
  {
  }

  /** A session proves the claim it has pending, and that is what its nickname rests on. */
  lemma {:induction false} NicknameEvidence(c: Config, inputs: seq<Input>, n: nat, i: SessionId, x: Session, y: Session,
                         before: map<Text, Text>, after: map<Text, Text>)
    requires n < |inputs| && Evidence(c, inputs, n, i, x, before) && BindingsKept(before, after)
    requires CredStep(c, inputs[n], i, x, y, after) && x.phase != Stopped
    ensures y.nickname != [] ==> y.nickname in after && Proved(c, inputs, n + 1, i, y.nickname, after[y.nickname])
  {
    hide Greeted, GavePassword, Claimed, MayCommand, Claims;
    if y.nickname != [] {
      if y.nickname == x.nickname {
        ProvedLater(c, inputs, n, i, x.nickname, before[x.nickname]);
      } else {
        var d :| Claimed(c, inputs, d, n, i, x.pendingNickname, x.pendingKey, x.pendingChallenge);
        assert ProvedAt(c, inputs, n, n + 1, i, x.pendingKey, x.pendingChallenge);
      }
    }
  }

  lemma {:induction false} StoppedKeeps(c: Config, inputs: seq<Input>, n: nat, i: SessionId, x: Session, y: Session,
                     before: map<Text, Text>, after: map<Text, Text>)
    requires n < |inputs| && Evidence(c, inputs, n, i, x, before) && BindingsKept(before, after)
    requires CredStep(c, inputs[n], i, x, y, after) && !Proves(c, inputs[n], i, x)
    ensures y.nickname != [] ==> y.nickname in after && Proved(c, inputs, n + 1, i, y.nickname, after[y.nickname])
  {
    hide Greeted, GavePassword, Claimed, MayCommand, Claims, Proved, Proves;
    if y.nickname != [] { ProvedLater(c, inputs, n, i, x.nickname, before[x.nickname]); }
  }

  lemma {:induction false} StepEvidence(c: Config, s: Server, inputs: seq<Input>, n: nat, i: SessionId)
    requires n < |inputs| && Sound(c, s) && Enabled(c, s, inputs[n])
    requires i in s.clients && Evidence(c, inputs, n, i, s.clients[i], s.identities)
    ensures var t := Step(c, s, inputs[n]);
            i in t.clients && Evidence(c, inputs, n + 1, i, t.clients[i], t.identities)
  {
    var e, x, t := inputs[n], s.clients[i], Step(c, s, inputs[n]);
    assert Proves(c, e, i, x) ==> x.phase == Reading;
    hide Sound, Enabled, Step, Greeted, GavePassword, Claimed, Proved, Proves, MayCommand, Claims, Heard, SamePending;
    StepCreds(c, s, e);
    var y := t.clients[i];
    assert CredStep(c, e, i, x, y, t.identities);
    GreetedLater(c, inputs, n, i);
    PendingEvidence(c, s, inputs, n, i);
    if x.phase != Stopped { NicknameEvidence(c, inputs, n, i, x, y, s.identities, t.identities); }
    else { StoppedKeeps(c, inputs, n, i, x, y, s.identities, t.identities); }
  }

  lemma {:induction false} NewEvidence(c: Config, s: Server, inputs: seq<Input>, n: nat, i: SessionId)
    requires n < |inputs| && Sound(c, s) && Enabled(c, s, inputs[n])
    requires i !in s.clients && i in Step(c, s, inputs[n]).clients
    ensures var t := Step(c, s, inputs[n]); Evidence(c, inputs, n + 1, i, t.clients[i], t.identities)
  {
    hide Sound, Enabled, Step, CredStep;
    StepCreds(c, s, inputs[n]);
    var t := Step(c, s, inputs[n]);
    NewSessionStays(c, i, t.clients[i], t.identities);
  }

  lemma {:induction false} RunEvidence(c: Config, states: seq<Server>, inputs: seq<Input>, n: nat, i: SessionId)
    requires IsRun(c, states, inputs) && Sound(c, states[0]) && states[0].clients == map[] && n <= |inputs|
    requires i in states[n].clients
    ensures Evidence(c, inputs, n, i, states[n].clients[i], states[n].identities)
  {
    hide Sound, Step, Enabled, Evidence;
    if n > 0 {
      RunSound(c, states, inputs, n - 1);
      if i in states[n - 1].clients {
        RunEvidence(c, states, inputs, n - 1, i);
        StepEvidence(c, states[n - 1], inputs, n - 1, i);
      } else {
        NewEvidence(c, states[n - 1], inputs, n - 1, i);
      }
    }
  }

  /** A session is in a room only if it negotiated version 3, gave the password when one is set, and
      then proved the key of its latest claim, which is the nickname's binding. */
  lemma {:induction false} OnlyTheProvenEnter(c: Config, states: seq<Server>, inputs: seq<Input>, n: nat, i: SessionId)
    requires IsRun(c, states, inputs) && Sound(c, states[0]) && states[0].clients == map[] && n <= |inputs|
    requires i in states[n].clients && states[n].clients[i].activeRoom != 0
    ensures var nick, bound := states[n].clients[i].nickname, states[n].identities;
            nick in bound && Proved(c, inputs, n, i, nick, bound[nick])
  {
    hide Step, Enabled, Proved, Greeted, GavePassword, Claimed, MayCommand;
    RunEvidence(c, states, inputs, n, i);
    RunSound(c, states, inputs, n);
    PendingValid(c, states[n], i);
  }

  /** Bindings never change after start-up. */
  lemma {:induction false} BindingsNeverChange(c: Config, states: seq<Server>, inputs: seq<Input>, m: nat, n: nat)
    requires IsRun(c, states, inputs) && Sound(c, states[0]) && m <= n <= |inputs|
    ensures BindingsKept(states[m].identities, states[n].identities)
    decreases n
  {
    hide Sound, Step, Enabled;
    if m < n {
      BindingsNeverChange(c, states, inputs, m, n - 1);
      RunSound(c, states, inputs, n - 1);
      NamesAndBindingsStay(c, states[n - 1], inputs[n - 1]);
    }
  }

  /** Two sessions seen in rooms under one nickname, at any two moments, proved the same key. */
  lemma {:induction false} OneKeyPerNickname(c: Config, states: seq<Server>, inputs: seq<Input>, m: nat, i: SessionId, n: nat, j: SessionId)
    returns (key: Text)
    requires IsRun(c, states, inputs) && Sound(c, states[0]) && states[0].clients == map[] && m <= n <= |inputs|
    requires i in states[m].clients && states[m].clients[i].activeRoom != 0
    requires j in states[n].clients && states[n].clients[j].activeRoom != 0
    requires states[m].clients[i].nickname == states[n].clients[j].nickname
    ensures var nick := states[m].clients[i].nickname;
            Proved(c, inputs, m, i, nick, key) && Proved(c, inputs, n, j, nick, key)
  {
    hide Sound, Proved, Step, Enabled;
    OnlyTheProvenEnter(c, states, inputs, m, i);
    OnlyTheProvenEnter(c, states, inputs, n, j);
    BindingsNeverChange(c, states, inputs, m, n);
    key := states[m].identities[states[m].clients[i].nickname];
  }
}
