/** Who gets in: exactly when a claim is taken up, exactly when a proof is followed by admission, and
    that a newcomer with a free nickname gets through the whole handshake. */
module Entrance {
  import opened Octets
  import opened Messages
  import opened Tables
  import opened ServerModel
  import opened ServerStructure
  import opened ServerActions
  import opened ServerSafety
  import opened ServerReach
  import opened Deliveries

  /** The nickname is nobody's: not banned, not the host's, not that of a registered session, and
      bound to no other key. */
  ghost predicate IsFree(c: Config, s: Server, n: Text, k: Text)
  {
    && (n in s.identities ==> s.identities[n] == k)
    && n !in s.bans && n != c.localNickname
    && forall j :: j in s.sessions && j in s.clients ==> s.clients[j].nickname != n
  }

  ghost predicate MayClaim(c: Config, s: Server, n: Text, k: Text)
  {
    IsValidNickname(n) && IsHex(k, 64) && IsFree(c, s, n, k)
  }

  /** A session that is being read, has been let through to the commands and has no nickname. */
  predicate IsCandidate(c: Config, s: Server, i: SessionId)
  {
    i in s.clients && s.clients[i].phase == Reading && MayCommand(c, s.clients[i]) && s.clients[i].nickname == []
  }

  function Sent(c: Config, x: Session, m: ServerMessage): Session { x.(outbox := x.outbox + Framed(c, [m])) }

  function Claiming(x: Session, n: Text, k: Text, challenge: Text): Session
  {
    x.(pendingNickname := n, pendingKey := k, pendingChallenge := challenge)
  }

  // ---- answers ----

  lemma DeliverOne(c: Config, s: Server, i: SessionId, m: ServerMessage)
    requires i in s.clients
    ensures Deliver(c, s, i, m) == s.(clients := s.clients[i := Sent(c, s.clients[i], m)])
  {
    FramedOne(c, m);
    var t := s.clients[i := Sent(c, s.clients[i], m)];
    if c.encodes(m) {
      assert PostAll(s.clients, {i}, m) == t;
    } else {
      assert s.clients[i].outbox + [] == s.clients[i].outbox;
      assert t == s.clients;
    }
  }

  lemma CommandIs(c: Config, s: Server, i: SessionId, m: ClientMessage, env: Env)
    requires i in s.clients && MayCommand(c, s.clients[i]) && !m.Hello? && !m.Authenticate?
    ensures Step(c, s, Received(i, m, env)) == OnCommand(c, s, i, m, env)
  {
    hide OnCommand, Drop, DeliverAll;
  }

  /** A dropped session is read no more, is not registered, and keeps its credentials. */
  lemma DroppedIs(c: Config, s: Server, i: SessionId, m: ServerMessage)
    requires Sound(c, s) && IsCandidate(c, s, i)
    ensures var t := Drop(c, s, i, m);
      && t.identities == s.identities && i !in t.sessions && i in t.clients
      && t.clients[i] == Sent(c, s.clients[i], m).(closing := true, phase := Stopped)
  {
    assert s.clients[i].activeRoom == 0;
    DeliverOne(c, s, i, m);
    hide Sound, DeliverAll, BroadcastRoom, BroadcastUsers, BroadcastRoomLists, Framed;
    var told := Close(Deliver(c, s, i, m), i);
    assert Depart(c, told, i, false) == With(told.(sessions := told.sessions - {i}), i, Of(told, i).(activeRoom := 0));
  }

  // ---- claims ----

  /** The one answer to a claim that is not taken up. */
  ghost function ClaimRefusal(c: Config, s: Server, n: Text, k: Text): ServerMessage
  {
    if !IsValidNickname(n) then JoinRejected("Invalid nickname")
    else if !IsHex(k, 64) then JoinRejected("Invalid identity public key")
    else if n in s.identities && s.identities[n] != k then JoinRejected("Nickname belongs to " + "a different identity key")
    else if n in s.bans then Banned
    else ServerMessage.NicknameTaken
  }

  /** Somebody has the nickname now. */
  ghost predicate IsUsed(c: Config, s: Server, n: Text)
  {
    n == c.localNickname || exists j :: j in s.sessions && j in s.clients && s.clients[j].nickname == n
  }

  lemma InUseIs(c: Config, s: Server, n: Text)
    requires Sound(c, s) && n != []
    ensures NicknameInUse(c, s, n) <==> IsUsed(c, s, n)
  {
    assert s.sessions <= s.clients.Keys;
    hide Sound;
    if NicknameInUse(c, s, n) && n != c.localNickname {
      var j :| j in s.sessions && Of(s, j).nickname == n;
      assert j in s.clients;
    }
    if IsUsed(c, s, n) && n != c.localNickname {
      var j :| j in s.sessions && j in s.clients && s.clients[j].nickname == n;
      assert Of(s, j).nickname == n;
    }
  }

  lemma FreeIs(c: Config, s: Server, n: Text, k: Text)
    ensures IsFree(c, s, n, k) <==> CanBind(s, n, k) && n !in s.bans && !IsUsed(c, s, n)
  {
  }

  lemma IdentityErrorIs(s: Server, n: Text, k: Text)
    ensures IdentityError(s, n, k) ==
      if !IsValidNickname(n) then "Invalid nickname"
      else if !IsHex(k, 64) then "Invalid identity public key"
      else if !CanBind(s, n, k) then "Nickname belongs to " + "a different identity key"
      else []
  {
    hide IsValidNickname, IsHex;
  }

  lemma ClaimHandled(c: Config, s: Server, i: SessionId, n: Text, k: Text, env: Env)
    requires Sound(c, s) && IsCandidate(c, s, i)
    ensures OnIdentify(c, s, i, n, k, env.challenge) ==
      if MayClaim(c, s, n, k) then
        Deliver(c, s.(clients := s.clients[i := Claiming(s.clients[i], n, k, env.challenge)]), i, Challenge(env.challenge))
      else Drop(c, s, i, ClaimRefusal(c, s, n, k))
  {
    hide Sound, Drop, DeliverAll, IsValidNickname, IsHex, NicknameInUse, IsUsed, IsFree, IdentityError, CanBind, MayCommand;
    IdentityErrorIs(s, n, k);
    FreeIs(c, s, n, k);
    BindingIs(s, n, k);
    if IsValidNickname(n) {
      ValidIsNotEmpty(n);
      InUseIs(c, s, n);
    }
  }

  lemma BindingIs(s: Server, n: Text, k: Text)
    ensures CanBind(s, n, k) <==> !(n in s.identities && s.identities[n] != k)
  {
  }

  lemma ValidIsNotEmpty(n: Text)
    requires IsValidNickname(n)
    ensures n != []
  {
  }

  /** A claim of a candidate is taken up, and answered with the challenge, exactly when the nickname
      is valid and free and the key is well formed; nothing else changes. Otherwise the session is told
      why and ended. */
  lemma IdentifyExactly(c: Config, s: Server, i: SessionId, n: Text, k: Text, env: Env)
    requires Sound(c, s) && IsCandidate(c, s, i)
    ensures var t, x := Step(c, s, Received(i, Identify(n, k), env)), s.clients[i];
      if MayClaim(c, s, n, k) then
        t == s.(clients := s.clients[i := Sent(c, Claiming(x, n, k, env.challenge), Challenge(env.challenge))])
      else
        && i in t.clients && i !in t.sessions && t.identities == s.identities
        && t.clients[i] == Sent(c, x, ClaimRefusal(c, s, n, k)).(closing := true, phase := Stopped)
  {
    hide Sound, Drop, DeliverAll, MayClaim, ClaimRefusal, OnIdentify, Framed, MayCommand;
    CommandIs(c, s, i, Identify(n, k), env);
    ClaimHandled(c, s, i, n, k, env);
    if MayClaim(c, s, n, k) {
      var claimed := s.(clients := s.clients[i := Claiming(s.clients[i], n, k, env.challenge)]);
      DeliverOne(c, claimed, i, Challenge(env.challenge));
    } else {
      DroppedIs(c, s, i, ClaimRefusal(c, s, n, k));
    }
  }

  // ---- proofs ----

  predicate HasClaim(x: Session) { x.pendingNickname != [] && x.pendingKey != [] && x.pendingChallenge != [] }

  /** The claim is there, the signature verifies, and the nickname is still free. */
  ghost predicate MayEnter(c: Config, s: Server, x: Session, signature: Text)
  {
    && HasClaim(x) && c.verifies(x.pendingKey, x.pendingChallenge, signature)
    && IsFree(c, s, x.pendingNickname, x.pendingKey)
  }

  ghost function ProofRefusal(c: Config, s: Server, x: Session, signature: Text): ServerMessage
  {
    if !HasClaim(x) then JoinRejected("Identify before sending proof")
    else if !c.verifies(x.pendingKey, x.pendingChallenge, signature) then JoinRejected("Identity proof failed")
    else if x.pendingNickname in s.bans then Banned
    else if IsUsed(c, s, x.pendingNickname) then ServerMessage.NicknameTaken
    else JoinRejected("Identity registration failed")
  }

  /** The server after the nickname is taken and bound, before the move to the lobby. */
  ghost function Entering(c: Config, s: Server, i: SessionId): Server
    requires i in s.clients
  {
    Deliver(c, Deliver(c, Admit(s, i), i, IdentityAccepted(Fingerprint(s.clients[i].pendingKey))), i, JoinAccepted)
  }

  lemma ProofHandled(c: Config, s: Server, i: SessionId, signature: Text)
    requires Sound(c, s) && IsCandidate(c, s, i)
    ensures OnProof(c, s, i, signature) ==
      if MayEnter(c, s, s.clients[i], signature) then MoveSession(c, Entering(c, s, i), i, LOBBY, false)
      else Drop(c, s, i, ProofRefusal(c, s, s.clients[i], signature))
  {
    hide Sound, Drop, DeliverAll, Admit, MoveSession, Fingerprint, NicknameInUse, IsUsed, IsFree, CanBind, MayCommand;
    var x := s.clients[i];
    FreeIs(c, s, x.pendingNickname, x.pendingKey);
    if x.pendingNickname != [] { InUseIs(c, s, x.pendingNickname); }
  }

  lemma AdmittedIs(s: Server, i: SessionId)
    requires i in s.clients && CanBind(s, s.clients[i].pendingNickname, s.clients[i].pendingKey)
    ensures var t, x := Admit(s, i), s.clients[i];
      && t.identities == s.identities[x.pendingNickname := x.pendingKey] && t.sessions == s.sessions && t.rooms == s.rooms
      && t.bans == s.bans
      && t.clients == s.clients[i := x.(nickname := x.pendingNickname, pendingNickname := [], pendingKey := [], pendingChallenge := [])]
  {
  }

  /** What the admitted session is after the two messages that accept it. */
  function Accepted(c: Config, x: Session): Session
  {
    x.(nickname := x.pendingNickname, pendingNickname := [], pendingKey := [], pendingChallenge := [],
       outbox := x.outbox + Framed(c, [IdentityAccepted(x.pendingKey[..if |x.pendingKey| < 16 then |x.pendingKey| else 16]), JoinAccepted]))
  }

  lemma {:induction false} TwoSent(c: Config, x: Session, a: ServerMessage, b: ServerMessage)
    ensures Sent(c, Sent(c, x, a), b) == x.(outbox := x.outbox + Framed(c, [a, b]))
  {
    hide Framed;
    FramedConcat(c, [a], [b]);
    assert [a] + [b] == [a, b];
    assert (x.outbox + Framed(c, [a])) + Framed(c, [b]) == x.outbox + (Framed(c, [a]) + Framed(c, [b]));
  }

  lemma DeliverTwo(c: Config, s: Server, i: SessionId, a: ServerMessage, b: ServerMessage)
    requires i in s.clients
    ensures var x := s.clients[i];
            Deliver(c, Deliver(c, s, i, a), i, b) == s.(clients := s.clients[i := x.(outbox := x.outbox + Framed(c, [a, b]))])
  {
    hide DeliverAll, Framed, Sent;
    var x, one := s.clients[i], Sent(c, s.clients[i], a);
    DeliverOne(c, s, i, a);
    DeliverOne(c, s.(clients := s.clients[i := one]), i, b);
    TwoSent(c, x, a, b);
    assert s.clients[i := one][i := Sent(c, one, b)] == s.clients[i := Sent(c, one, b)];
  }

  lemma FingerprintIs(key: Text)
    ensures Fingerprint(key) == key[..if |key| < 16 then |key| else 16]
  {
  }

  lemma EnteringIs(c: Config, s: Server, i: SessionId)
    requires i in s.clients && CanBind(s, s.clients[i].pendingNickname, s.clients[i].pendingKey)
    ensures var t, x := Entering(c, s, i), s.clients[i];
      && t.clients == s.clients[i := Accepted(c, x)] && t.sessions == s.sessions && t.rooms == s.rooms && t.bans == s.bans
      && t.identities == s.identities[x.pendingNickname := x.pendingKey]
  {
    hide Admit, DeliverAll, Framed, CanBind, Fingerprint;
    var x := s.clients[i];
    AdmittedIs(s, i);
    FingerprintIs(x.pendingKey);
    DeliverTwo(c, Admit(s, i), i, IdentityAccepted(Fingerprint(x.pendingKey)), JoinAccepted);
    assert Admit(s, i).clients[i := Accepted(c, x)] == s.clients[i := Accepted(c, x)];
  }

  lemma EnteringSound(c: Config, s: Server, i: SessionId, signature: Text)
    requires Sound(c, s) && IsCandidate(c, s, i) && MayEnter(c, s, s.clients[i], signature)
    ensures Sound(c, Entering(c, s, i)) && s.clients[i].activeRoom == 0 && LOBBY in s.rooms
  {
    NamelessFacts(c, s, i);
    StillUnused(c, s, i, signature);
    hide Sound, DeliverAll, Admit, IsFree, Fingerprint, MayCommand;
    AdmitSound(c, s, i);
    DeliverSound(c, Admit(s, i), i, IdentityAccepted(Fingerprint(s.clients[i].pendingKey)));
    DeliverSound(c, Deliver(c, Admit(s, i), i, IdentityAccepted(Fingerprint(s.clients[i].pendingKey))), i, JoinAccepted);
  }

  lemma NamelessFacts(c: Config, s: Server, i: SessionId)
    requires Sound(c, s) && i in s.clients && s.clients[i].nickname == []
    ensures s.clients[i].activeRoom == 0 && LOBBY in s.rooms
  {
    hide Seats, DistinctNames, IsValidNickname, IsValidRoomName, IsValidRoomTopic, Lower;
  }

  lemma StillUnused(c: Config, s: Server, i: SessionId, signature: Text)
    requires Sound(c, s) && i in s.clients && MayEnter(c, s, s.clients[i], signature)
    ensures var x := s.clients[i];
      && CanBind(s, x.pendingNickname, x.pendingKey) && !NicknameInUse(c, s, x.pendingNickname) && x.pendingNickname !in s.bans
      && x.pendingNickname != []
  {
    var x := s.clients[i];
    hide Sound, NicknameInUse, IsUsed, IsFree, CanBind;
    FreeIs(c, s, x.pendingNickname, x.pendingKey);
    InUseIs(c, s, x.pendingNickname);
  }

  lemma MovedSeat(c: Config, s: Server, i: SessionId, target: RoomId, announce: bool)
    requires i in s.clients && target in s.rooms
    ensures var t := MoveSession(c, s, i, target, announce);
      && t.sessions == s.sessions && t.bans == s.bans && t.identities == s.identities && t.rooms.Keys == s.rooms.Keys
      && t.localRoomId == s.localRoomId && t.nextRoomId == s.nextRoomId
      && t.clients.Keys == s.clients.Keys
      && forall j :: j in s.clients ==> Bare(t.clients[j]) == Bare(if j == i then s.clients[j].(activeRoom := target) else s.clients[j])
  {
    hide MoveSession, Core, Reseat, Bare;
    MoveSessionCore(c, s, i, target, announce);
    ReseatFields(s, i, target);
    ReseatIdentitiesKept(s, i, target);
    CoreKeys(Reseat(s, i, target), MoveSession(c, s, i, target, announce));
    CoreFields(Reseat(s, i, target), MoveSession(c, s, i, target, announce));
  }

  lemma ReseatIdentitiesKept(s: Server, i: SessionId, target: RoomId)
    requires target in s.rooms
    ensures Reseat(s, i, target).identities == s.identities
  {
  }

  /** What the admitted session is sent. */
  ghost function AdmissionMessages(c: Config, s: Server, t: Server, i: SessionId): seq<ServerMessage>
    requires i in s.clients && LOBBY in s.rooms
  {
    var x, lobby := s.clients[i], s.rooms[LOBBY];
    [IdentityAccepted(x.pendingKey[..if |x.pendingKey| < 16 then |x.pendingKey| else 16]), JoinAccepted]
    + ([RoomJoined(LOBBY, lobby.name, lobby.topic)] + Recap(LOBBY, lobby.name, lobby.recent)
       + [RoomText(LOBBY, "[system] " + x.pendingNickname + " joined #" + lobby.name), UserList(LOBBY, UserNames(c, t, LOBBY))]
       + if i in s.sessions then [RoomList(RoomSummaries(c, t))] else [])
  }

  lemma AcceptedBare(c: Config, x: Session)
    ensures Bare(Accepted(c, x).(activeRoom := LOBBY)) ==
      Bare(x.(nickname := x.pendingNickname, pendingNickname := [], pendingKey := [], pendingChallenge := [], activeRoom := LOBBY))
    ensures Accepted(c, x).nickname == x.pendingNickname && Accepted(c, x).activeRoom == x.activeRoom
  {
    hide Framed;
  }

  lemma BareSeat(x: Session, y: Session)
    requires Bare(x) == Bare(y)
    ensures x.activeRoom == y.activeRoom && x.nickname == y.nickname && x.phase == y.phase
  {
    assert Bare(x).activeRoom == x.activeRoom && Bare(x).nickname == x.nickname && Bare(x).phase == x.phase;
  }

  lemma SeatedThere(c: Config, s: Server, i: SessionId, r: RoomId)
    requires Sound(c, s) && i in s.clients && s.clients[i].activeRoom == r != 0
    ensures r in s.rooms && i in s.rooms[r].members
  {
    hide DistinctNames, Handles, RoomTable;
  }

  lemma AdmissionGets(c: Config, s: Server, i: SessionId, signature: Text)
    requires Sound(c, s) && IsCandidate(c, s, i) && MayEnter(c, s, s.clients[i], signature)
    ensures LOBBY in s.rooms
    ensures var t := MoveSession(c, Entering(c, s, i), i, LOBBY, false); Gets(c, s, t, i, AdmissionMessages(c, s, t, i))
  {
    hide Sound, Framed, MayCommand, Entering, MoveSession, Gets, IsFree, UserNames, RoomSummaries, Recap, CanBind;
    var x, u := s.clients[i], Entering(c, s, i);
    NamelessFacts(c, s, i);
    StillUnused(c, s, i, signature);
    EnteringSound(c, s, i, signature);
    EnteringIs(c, s, i);
    AcceptedBare(c, x);
    var two := [IdentityAccepted(x.pendingKey[..if |x.pendingKey| < 16 then |x.pendingKey| else 16]), JoinAccepted];
    AcceptedGets(c, s, u, i);
    MoveGets(c, u, i, LOBBY, false, i);
    var t := MoveSession(c, u, i, LOBBY, false);
    GetsThen(c, s, u, t, i, two, MoveMessages(c, u, t, i, LOBBY, false, i));
    var a, b, d := [RoomJoined(LOBBY, s.rooms[LOBBY].name, s.rooms[LOBBY].topic)] + Recap(LOBBY, s.rooms[LOBBY].name, s.rooms[LOBBY].recent),
      [RoomText(LOBBY, "[system] " + x.pendingNickname + " joined #" + s.rooms[LOBBY].name), UserList(LOBBY, UserNames(c, t, LOBBY))],
      if i in s.sessions then [RoomList(RoomSummaries(c, t))] else [];
    assert MoveMessages(c, u, t, i, LOBBY, false, i) == [] + a + b + d;
    assert [] + a == a;
  }

  /** What the others are sent: those in the lobby the notice and the new list, and those registered under
      a nickname the room list. */
  ghost function NewcomerMessages(c: Config, s: Server, t: Server, i: SessionId, j: SessionId): seq<ServerMessage>
    requires i in s.clients && j in s.clients && LOBBY in s.rooms
  {
    (if s.clients[j].activeRoom == LOBBY then
       [RoomText(LOBBY, "[system] " + s.clients[i].pendingNickname + " joined #" + s.rooms[LOBBY].name),
        UserList(LOBBY, UserNames(c, t, LOBBY))]
     else [])
    + if j in s.sessions && s.clients[j].nickname != [] then [RoomList(RoomSummaries(c, t))] else []
  }

  lemma NewcomerGets(c: Config, s: Server, i: SessionId, signature: Text, j: SessionId)
    requires Sound(c, s) && IsCandidate(c, s, i) && MayEnter(c, s, s.clients[i], signature) && j in s.clients && j != i
    ensures LOBBY in s.rooms
    ensures var t := MoveSession(c, Entering(c, s, i), i, LOBBY, false); Gets(c, s, t, j, NewcomerMessages(c, s, t, i, j))
  {
    hide Sound, Framed, MayCommand, Entering, MoveSession, Gets, IsFree, UserNames, RoomSummaries, Recap, CanBind;
    var x, u := s.clients[i], Entering(c, s, i);
    NamelessFacts(c, s, i);
    StillUnused(c, s, i, signature);
    EnteringSound(c, s, i, signature);
    EnteringIs(c, s, i);
    AcceptedBare(c, x);
    GetsNothing(c, s, u, j);
    MoveGets(c, u, i, LOBBY, false, j);
    var t := MoveSession(c, u, i, LOBBY, false);
    GetsThen(c, s, u, t, j, [], MoveMessages(c, u, t, i, LOBBY, false, j));
    var a := NewcomerMessages(c, s, t, i, j);
    assert [] + MoveMessages(c, u, t, i, LOBBY, false, j) == a;
  }

  /** Everyone else stays where and who they are, and is sent what concerns them. */
  ghost predicate OthersHear(c: Config, s: Server, t: Server, i: SessionId)
    requires i in s.clients && LOBBY in s.rooms
  {
    && t.clients.Keys == s.clients.Keys
    && forall j :: j in s.clients && j != i ==>
         Bare(t.clients[j]) == Bare(s.clients[j]) && Gets(c, s, t, j, NewcomerMessages(c, s, t, i, j))
  }

  lemma OthersHearIt(c: Config, s: Server, i: SessionId, signature: Text)
    requires Sound(c, s) && IsCandidate(c, s, i) && MayEnter(c, s, s.clients[i], signature) && LOBBY in s.rooms
    ensures OthersHear(c, s, MoveSession(c, Entering(c, s, i), i, LOBBY, false), i)
  {
    hide Sound, IsCandidate, MayEnter, Entering, MoveSession, Gets, Bare, NewcomerMessages, CanBind, Accepted;
    CandidateKnown(c, s, i);
    var u := Entering(c, s, i);
    StillUnused(c, s, i, signature);
    EnteringIs(c, s, i);
    MovedSeat(c, u, i, LOBBY, false);
    forall j | j in s.clients && j != i
      ensures Gets(c, s, MoveSession(c, u, i, LOBBY, false), j, NewcomerMessages(c, s, MoveSession(c, u, i, LOBBY, false), i, j))
    {
      NewcomerGets(c, s, i, signature, j);
    }
  }

  lemma CandidateKnown(c: Config, s: Server, i: SessionId)
    requires IsCandidate(c, s, i)
    ensures i in s.clients
  {
  }

  lemma AcceptedGets(c: Config, s: Server, u: Server, i: SessionId)
    requires i in s.clients && i in u.clients && u.clients[i] == Accepted(c, s.clients[i])
    ensures var x := s.clients[i];
            Gets(c, s, u, i, [IdentityAccepted(x.pendingKey[..if |x.pendingKey| < 16 then |x.pendingKey| else 16]), JoinAccepted])
  {
    hide Framed;
  }

  /** A proof of a candidate leads to the lobby under the claimed nickname, bound to the claimed key,
      exactly when there is a claim, the signature verifies and the nickname is still free. Otherwise the
      session is told why and ended. */
  lemma ProofExactly(c: Config, s: Server, i: SessionId, signature: Text, env: Env)
    requires Sound(c, s) && IsCandidate(c, s, i)
    ensures LOBBY in s.rooms
    ensures var t, x := Step(c, s, Received(i, IdentityProof(signature), env)), s.clients[i];
      && i in t.clients
      && if MayEnter(c, s, x, signature) then
           && t.identities == s.identities[x.pendingNickname := x.pendingKey] && t.sessions == s.sessions && t.bans == s.bans
           && Bare(t.clients[i]) == Bare(x.(nickname := x.pendingNickname, pendingNickname := [], pendingKey := [],
                                            pendingChallenge := [], activeRoom := LOBBY))
           && LOBBY in t.rooms && i in t.rooms[LOBBY].members
           && Gets(c, s, t, i, AdmissionMessages(c, s, t, i))
           && OthersHear(c, s, t, i)
         else
           && i !in t.sessions && t.identities == s.identities
           && t.clients[i] == Sent(c, x, ProofRefusal(c, s, x, signature)).(closing := true, phase := Stopped)
  {
    hide Sound, Drop, DeliverAll, MayEnter, ProofRefusal, OnProof, Framed, MayCommand, Entering, MoveSession, Bare, Gets,
      AdmissionMessages, OthersHear, Sent, Accepted;
    NamelessFacts(c, s, i);
    CommandIs(c, s, i, IdentityProof(signature), env);
    ProofHandled(c, s, i, signature);
    if MayEnter(c, s, s.clients[i], signature) {
      StillUnused(c, s, i, signature);
      EnteringSound(c, s, i, signature);
      EnteringIs(c, s, i);
      var u, t := Entering(c, s, i), MoveSession(c, Entering(c, s, i), i, LOBBY, false);
      AcceptedBare(c, s.clients[i]);
      MovedSeat(c, u, i, LOBBY, false);
      BareSeat(t.clients[i], u.clients[i].(activeRoom := LOBBY));
      MoveSessionSound(c, u, i, LOBBY, false);
      SeatedThere(c, t, i, LOBBY);
      AdmissionGets(c, s, i, signature);
      OthersHearIt(c, s, i, signature);
    } else {
      DroppedIs(c, s, i, ProofRefusal(c, s, s.clients[i], signature));
    }
  }

  // ---- the whole handshake ----

  /** A session that has just got through to the commands. */
  function Knocking(c: Config): Session
  {
    NEW_SESSION.(phase := Reading, negotiated := true, authenticated := c.password != [],
      outbox := Framed(c, [ServerMessage.Hello(VERSION)] + if c.password != [] then [AuthRequired, AuthAccepted] else [AuthAccepted]))
  }

  /** The server with one more session, registered. */
  function WithNewcomer(s: Server, i: SessionId, x: Session): Server
  {
    s.(clients := s.clients[i := x], sessions := s.sessions + {i})
  }

  function HandshakeInputs(c: Config, i: SessionId, env: Env): seq<Input>
  {
    [Accept(i), HandshakeDone(i, true), Received(i, ClientMessage.Hello(VERSION), env)]
    + if c.password != [] then [Received(i, Authenticate(c.password), env)] else []
  }

  lemma UpdateAgain(clients: map<SessionId, Session>, i: SessionId, x: Session, y: Session)
    ensures clients[i := x][i := y] == clients[i := y]
  {
  }

  lemma OpenedIs(c: Config, s: Server, i: SessionId)
    requires i !in s.clients
    ensures var x := NEW_SESSION.(phase := Reading);
      && Step(c, s, Accept(i)) == WithNewcomer(s, i, NEW_SESSION)
      && Step(c, WithNewcomer(s, i, NEW_SESSION), HandshakeDone(i, true))
           == WithNewcomer(s, i, x.(outbox := Framed(c, [ServerMessage.Hello(VERSION)])))
  {
    hide Framed, DeliverAll;
    var x, one := NEW_SESSION.(phase := Reading), WithNewcomer(s, i, NEW_SESSION);
    var read := WithNewcomer(s, i, x);
    UpdateAgain(s.clients, i, NEW_SESSION, x);
    assert With(one, i, Of(one, i).(phase := Reading)) == read;
    DeliverOne(c, read, i, ServerMessage.Hello(VERSION));
    assert Sent(c, x, ServerMessage.Hello(VERSION)) == x.(outbox := [] + Framed(c, [ServerMessage.Hello(VERSION)]));
    assert [] + Framed(c, [ServerMessage.Hello(VERSION)]) == Framed(c, [ServerMessage.Hello(VERSION)]);
    UpdateAgain(s.clients, i, x, Sent(c, x, ServerMessage.Hello(VERSION)));
  }

  lemma GreetedIs(c: Config, s: Server, i: SessionId, x: Session, env: Env)
    requires !x.negotiated
    ensures Step(c, WithNewcomer(s, i, x), Received(i, ClientMessage.Hello(VERSION), env))
         == WithNewcomer(s, i, Sent(c, x.(negotiated := true), if c.password != [] then AuthRequired else AuthAccepted))
  {
    hide Framed, DeliverAll, Sent;
    var y, m := x.(negotiated := true), if c.password != [] then AuthRequired else AuthAccepted;
    var one := WithNewcomer(s, i, x);
    UpdateAgain(s.clients, i, x, y);
    assert With(one, i, Of(one, i).(negotiated := true)) == WithNewcomer(s, i, y);
    DeliverOne(c, WithNewcomer(s, i, y), i, m);
    UpdateAgain(s.clients, i, y, Sent(c, y, m));
  }

  lemma PasswordIs(c: Config, s: Server, i: SessionId, x: Session, env: Env)
    requires x.negotiated
    ensures Step(c, WithNewcomer(s, i, x), Received(i, Authenticate(c.password), env))
         == WithNewcomer(s, i, Sent(c, x.(authenticated := true), AuthAccepted))
  {
    hide Framed, DeliverAll, Sent, Drop;
    var y, one := x.(authenticated := true), WithNewcomer(s, i, x);
    UpdateAgain(s.clients, i, x, y);
    assert With(one, i, Of(one, i).(authenticated := true)) == WithNewcomer(s, i, y);
    DeliverOne(c, WithNewcomer(s, i, y), i, AuthAccepted);
    UpdateAgain(s.clients, i, y, Sent(c, y, AuthAccepted));
  }

  lemma {:induction false} KnockingIs(c: Config)
    ensures var x := NEW_SESSION.(phase := Reading, outbox := Framed(c, [ServerMessage.Hello(VERSION)]), negotiated := true);
      Knocking(c) ==
        if c.password != [] then Sent(c, Sent(c, x, AuthRequired).(authenticated := true), AuthAccepted) else Sent(c, x, AuthAccepted)
  {
    hide Framed;
    var hello := [ServerMessage.Hello(VERSION)];
    if c.password != [] {
      FramedConcat(c, hello, [AuthRequired]);
      FramedConcat(c, hello + [AuthRequired], [AuthAccepted]);
      assert hello + [AuthRequired] + [AuthAccepted] == hello + [AuthRequired, AuthAccepted];
    } else {
      FramedConcat(c, hello, [AuthAccepted]);
    }
  }

  /** A new connection that says hello, and gives the password when one is set, is let through to the
      commands; nothing else about the server changes. */
  lemma {:induction false} HandshakeRun(c: Config, s: Server, i: SessionId, env: Env) returns (states: seq<Server>)
    requires i !in s.clients
    ensures IsRun(c, states, HandshakeInputs(c, i, env)) && states[0] == s
    ensures states[|states| - 1] == WithNewcomer(s, i, Knocking(c)) && IsCandidate(c, WithNewcomer(s, i, Knocking(c)), i)
  {
    hide Framed, Sent, Step;
    var x := NEW_SESSION.(phase := Reading, outbox := Framed(c, [ServerMessage.Hello(VERSION)]));
    var m := if c.password != [] then AuthRequired else AuthAccepted;
    OpenedIs(c, s, i);
    GreetedIs(c, s, i, x, env);
    KnockingIs(c);
    SentKeeps(c, x.(negotiated := true), m);
    var y := Sent(c, x.(negotiated := true), m);
    states := [s, WithNewcomer(s, i, NEW_SESSION), WithNewcomer(s, i, x), WithNewcomer(s, i, y)];
    if c.password != [] {
      PasswordIs(c, s, i, y, env);
      states := states + [WithNewcomer(s, i, Sent(c, y.(authenticated := true), AuthAccepted))];
    }
  }

  lemma SentKeeps(c: Config, x: Session, m: ServerMessage)
    ensures Sent(c, x, m).(outbox := x.outbox) == x
  {
  }

  lemma StillFree(c: Config, s: Server, i: SessionId, x: Session, n: Text, k: Text)
    requires Sound(c, s) && i !in s.clients && n != [] && x.nickname == []
    ensures IsFree(c, WithNewcomer(s, i, x), n, k) <==> IsFree(c, s, n, k)
  {
    assert s.sessions <= s.clients.Keys;
    hide Sound;
    var t := WithNewcomer(s, i, x);
    forall j | j in s.sessions ensures j in t.sessions && j in t.clients && t.clients[j] == s.clients[j] {
    }
  }

  lemma RunOn(c: Config, states: seq<Server>, inputs: seq<Input>, e: Input)
    requires IsRun(c, states, inputs) && Enabled(c, states[|inputs|], e)
    ensures IsRun(c, states + [Step(c, states[|inputs|], e)], inputs + [e])
  {
    hide Step, Enabled;
  }

  lemma ClaimingCandidate(c: Config, s: Server, i: SessionId, n: Text, k: Text, env: Env)
    requires IsCandidate(c, s, i) && MayClaim(c, s, n, k)
    ensures var x := Sent(c, Claiming(s.clients[i], n, k, env.challenge), Challenge(env.challenge));
      var t := s.(clients := s.clients[i := x]);
      && IsCandidate(c, t, i) && x.pendingNickname == n && x.pendingKey == k && x.pendingChallenge == env.challenge
      && n != [] && k != [] && IsFree(c, t, n, k)
  {
    hide Framed, IsHex;
    assert n != [];
    HexIsNotEmpty(k);
  }

  lemma HexIsNotEmpty(k: Text)
    requires IsHex(k, 64)
    ensures k != []
  {
  }

  /** From any reachable state, a newcomer that says hello, gives the password when one is set, claims a
      valid nickname that is free now with a key of its own, and proves that key, is in the lobby under
      that nickname. In particular whoever left may come back. */
  lemma {:induction false} NewcomerGetsIn(c: Config, s: Server, i: SessionId, n: Text, k: Text, signature: Text, env: Env)
    returns (states: seq<Server>, inputs: seq<Input>)
    requires Sound(c, s) && i !in s.clients && MayClaim(c, s, n, k)
    requires env.challenge != [] && c.verifies(k, env.challenge, signature)
    ensures IsRun(c, states, inputs) && states[0] == s
    ensures inputs == HandshakeInputs(c, i, env) + [Received(i, Identify(n, k), env)] + [Received(i, IdentityProof(signature), env)]
    ensures var t := states[|inputs|];
      && i in t.clients && i in t.sessions && t.clients[i].nickname == n && t.clients[i].activeRoom == LOBBY
      && LOBBY in t.rooms && i in t.rooms[LOBBY].members && n in t.identities && t.identities[n] == k
  {
    hide Sound, Step, IsCandidate, Enabled, IsFree, IsValidNickname, IsHex, Knocking, Sent, Claiming, Bare, Gets, ProofRefusal,
      ClaimRefusal, AdmissionMessages;
    var claim, proof := Received(i, Identify(n, k), env), Received(i, IdentityProof(signature), env);
    var inputs0 := HandshakeInputs(c, i, env);
    states := HandshakeRun(c, s, i, env);
    var s1 := WithNewcomer(s, i, Knocking(c));
    assert states[|inputs0|] == s1;
    RunSound(c, states, inputs0, |inputs0|);
    KnockingNameless(c);
    ValidIsNotEmpty(n);
    StillFree(c, s, i, Knocking(c), n, k);
    IdentifyExactly(c, s1, i, n, k, env);
    ClaimingCandidate(c, s1, i, n, k, env);
    CandidateReads(c, s1, i, claim);
    RunOn(c, states, inputs0, claim);
    var s2 := Step(c, s1, claim);
    states, inputs := states + [s2], inputs0 + [claim];
    RunSound(c, states, inputs, |inputs|);
    CandidateReads(c, s2, i, proof);
    ProofExactly(c, s2, i, signature, env);
    RunOn(c, states, inputs, proof);
    var t := Step(c, s2, proof);
    BareSeat(t.clients[i], s2.clients[i].(nickname := n, pendingNickname := [], pendingKey := [], pendingChallenge := [],
      activeRoom := LOBBY));
    states, inputs := states + [t], inputs + [proof];
  }

  lemma KnockingNameless(c: Config)
    ensures Knocking(c).nickname == []
  {
  }

  lemma CandidateReads(c: Config, s: Server, i: SessionId, e: Input)
    requires IsCandidate(c, s, i) && e.Received? && e.id == i
    ensures Enabled(c, s, e)
  {
  }
}
