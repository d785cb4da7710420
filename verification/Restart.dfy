/** Starting the server from its tables: start-up establishes every invariant, and a restart
    recovers the server that wrote them. */
module Restart {
  import opened Octets
  import opened Messages
  import opened Ordering
  import opened Tables
  import opened History
  import opened ServerModel
  import opened ServerStructure
  import opened ServerActions
  import opened ServerPlans
  import opened ServerSafety
  import opened ServerReach
  import opened Persistence
  import opened Speech
  import opened PersistenceSafety
  import A = Admission
  import W = WriteWorker

  // ---- the ledger: what makes stored texts readable and ids repeatable ----

  /** The least id above every room's and above the lobby's. */
  ghost predicate IsNextId(next: RoomId, rooms: set<RoomId>)
  {
    next > LOBBY && (forall r :: r in rooms ==> r < next) && (next == LOBBY + 1 || next - 1 in rooms)
  }

  ghost predicate Owned(c: Config, s: Server)
  {
    IsNextId(s.nextRoomId, s.rooms.Keys) && forall r :: r in s.rooms ==> IsOwner(c, s.rooms[r].owner)
  }

  ghost predicate Keyed(s: Server)
  {
    && (forall n :: n in s.identities ==> IsValidNickname(n) && IsHex(s.identities[n], 64))
    && (forall i :: i in s.clients && s.clients[i].pendingNickname != [] ==> IsHex(s.clients[i].pendingKey, 64))
  }

  ghost predicate SameOwners(s: Server, t: Server)
  {
    && t.rooms.Keys == s.rooms.Keys && t.nextRoomId == s.nextRoomId
    && forall r :: r in s.rooms ==> t.rooms[r].owner == s.rooms[r].owner
  }

  lemma OwnedKept(c: Config, s: Server, t: Server)
    requires Owned(c, s) && SameOwners(s, t)
    ensures Owned(c, t)
  {
    hide IsOwner;
  }

  lemma OwnersOfCore(s: Server, t: Server)
    requires Core(s) == Core(t)
    ensures SameOwners(s, t)
  {
    CoreKeys(s, t);
    CoreFields(s, t);
    hide Core;
    forall r | r in s.rooms ensures t.rooms[r].owner == s.rooms[r].owner {
      assert BareRoom(s.rooms[r]) == BareRoom(t.rooms[r]);
    }
  }

  lemma SameOwnersTransitive(s: Server, t: Server, u: Server)
    requires SameOwners(s, t) && SameOwners(t, u)
    ensures SameOwners(s, u)
  {
  }

  lemma SeatOwners(s: Server, i: SessionId, target: RoomId)
    ensures target in s.rooms ==> SameOwners(s, Reseat(s, i, target))
    ensures SameOwners(s, Unseat(s, i))
  {
  }

  lemma BanOwners(s: Server, nick: Text, reason: Text, i: SessionId)
    ensures SameOwners(s, Close(BanStored(s, nick, reason), i)) && SameOwners(s, BanStored(s, nick, reason))
  {
  }

  lemma ExpelOwners(c: Config, s: Server, i: SessionId, nick: Text, reason: Text)
    requires 0 !in s.rooms
    ensures SameOwners(Close(s, i), Expel(c, s, i, nick, reason))
  {
    hide SameOwners, Core, Expel, Unseat, Close;
    ExpelCore(c, s, i, nick, reason);
    SeatOwners(Close(s, i), i, 0);
    OwnersOfCore(Unseat(Close(s, i), i), Expel(c, s, i, nick, reason));
    SameOwnersTransitive(Close(s, i), Unseat(Close(s, i), i), Expel(c, s, i, nick, reason));
  }

  lemma BannedHasNoZero(c: Config, s: Server, nick: Text, reason: Text)
    requires Sound(c, s)
    ensures 0 !in BanStored(s, nick, reason).rooms
  {
    hide DistinctNames, Handles, RoomTable;
  }

  lemma BanAwayOwners(c: Config, e: Input, s: Server, a: Action)
    requires Sound(c, s) && Allowed(c, e, s, a) && a.BanAway?
    ensures SameOwners(s, Do(c, s, a))
  {
    hide Sound, SameOwners, Expel, Close, BanStored, BanReason, Allowed;
    var banned := BanStored(s, a.nickname, a.reason);
    BannedHasNoZero(c, s, a.nickname, a.reason);
    var i := if a.victim.Some? then a.victim.value else 0;
    BanOwners(s, a.nickname, a.reason, i);
    if a.victim.Some? {
      ExpelOwners(c, banned, i, a.nickname, BanReason(a.reason));
      SameOwnersTransitive(s, Close(banned, i), Do(c, s, a));
    }
  }

  lemma MovedOwners(c: Config, e: Input, s: Server, a: Action)
    requires Sound(c, s) && Allowed(c, e, s, a) && (a.Move? || a.Go?)
    ensures SameOwners(s, Do(c, s, a))
  {
    assert 0 !in s.rooms;
    SeatActionIs(c, e, s, a);
    hide Sound, SameOwners, Core, MoveSession, Depart, Unseat, Reseat, Allowed, Do;
    if a.Move? {
      SeatOwners(s, a.id, a.target);
      MoveSessionCore(c, s, a.id, a.target, a.announce);
      OwnersOfCore(Reseat(s, a.id, a.target), Do(c, s, a));
      SameOwnersTransitive(s, Reseat(s, a.id, a.target), Do(c, s, a));
    } else {
      SeatOwners(s, a.id, 0);
      DepartCore(c, s, a.id, a.announce);
      OwnersOfCore(Unseat(s, a.id), Do(c, s, a));
      SameOwnersTransitive(s, Unseat(s, a.id), Do(c, s, a));
    }
  }

  lemma HostOwners(c: Config, e: Input, s: Server, a: Action)
    requires Allowed(c, e, s, a) && (a.PlaceHost? || a.MoveHost?)
    ensures SameOwners(s, Do(c, s, a))
  {
    var moved := s.(localRoomId := if a.PlaceHost? then LOBBY else a.target);
    assert SameOwners(s, moved);
    hide SameOwners, Core, MoveLocal, BroadcastUsers;
    match a {
      case PlaceHost => BroadcastUsersCore(c, moved, LOBBY);
      case MoveHost(target) => MoveLocalCore(c, s, target);
    }
    hide Do;
    OwnersOfCore(moved, Do(c, s, a));
    SameOwnersTransitive(s, moved, Do(c, s, a));
  }

  lemma RetitleOwners(c: Config, s: Server, r: RoomId, topic: Text)
    requires r in s.rooms
    ensures SameOwners(s, Retitled(c, s, r, topic))
  {
    var renamed := Written(WithRoom(s, r, s.rooms[r].(topic := topic)), TopicWrite(r, topic));
    assert SameOwners(s, renamed);
    hide SameOwners, Core, DeliverAll, WithRoom, Written;
    DeliverAllCore(c, renamed, s.rooms[r].members, RoomTopic(r, topic));
    OwnersOfCore(renamed, Retitled(c, s, r, topic));
    SameOwnersTransitive(s, renamed, Retitled(c, s, r, topic));
  }

  lemma PlainOwners(c: Config, s: Server, a: Action)
    requires IsFlagAction(a) || a.Open? || a.Enroll? || a.Enter? || a.Register? || a.LiftBan?
    ensures SameOwners(s, Do(c, s, a))
  {
    hide PostAll;
  }

  lemma FoundOwned(c: Config, s: Server, name: Text, owner: Text)
    requires Owned(c, s) && IsOwner(c, owner) && s.nextRoomId !in s.rooms
    ensures Owned(c, AddRoom(s, name, owner))
  {
    hide IsOwner;
  }

  lemma ActionOwned(c: Config, e: Input, s: Server, a: Action)
    requires Sound(c, s) && Allowed(c, e, s, a) && Owned(c, s)
    ensures Owned(c, Do(c, s, a))
  {
    hide Sound, Owned, SameOwners, Core, IsValidRoomTopic, IsOwner, CreationError;
    if a.Found? {
      hide AddRoom;
      FoundIsNew(c, s, a.name);
      FoundOwned(c, s, a.name, a.owner);
    } else if a.Retitle? {
      hide Retitled;
      RetitleOwners(c, s, a.room, a.topic);
      OwnedKept(c, s, Retitled(c, s, a.room, a.topic));
    } else {
      hide Allowed, Do;
      if IsTalk(a) {
        TalkCore(c, s, a);
        OwnersOfCore(s, Do(c, s, a));
      }
      else if a.Move? || a.Go? { MovedOwners(c, e, s, a); }
      else if a.PlaceHost? || a.MoveHost? { HostOwners(c, e, s, a); }
      else if a.BanAway? { BanAwayOwners(c, e, s, a); }
      else { PlainOwners(c, s, a); }
      OwnedKept(c, s, Do(c, s, a));
    }
  }

  lemma CredsKeyed(s: Server, t: Server)
    requires A.SameCreds(s, t) && Keyed(s)
    ensures Keyed(t)
  {
    hide IsValidNickname, IsHex;
    forall i | i in t.clients && t.clients[i].pendingNickname != [] ensures IsHex(t.clients[i].pendingKey, 64) {
      assert A.Creds(t.clients[i]) == A.Creds(s.clients[i]);
      assert A.Creds(t.clients[i]).pendingNickname == t.clients[i].pendingNickname;
      assert A.Creds(s.clients[i]).pendingNickname == s.clients[i].pendingNickname;
      assert A.Creds(t.clients[i]).pendingKey == t.clients[i].pendingKey;
      assert A.Creds(s.clients[i]).pendingKey == s.clients[i].pendingKey;
    }
  }

  lemma OpenKeyed(c: Config, s: Server, i: SessionId)
    requires Keyed(s) && i in s.clients
    ensures Keyed(Do(c, s, Open(i)))
  {
    hide IsValidNickname, IsHex, Do;
    A.OpenedIs(c, s, i);
    var t := Do(c, s, Open(i));
    assert t.clients[i].(outbox := []).pendingNickname == s.clients[i].pendingNickname;
    assert t.clients[i].(outbox := []).pendingKey == s.clients[i].pendingKey;
  }

  lemma EnterKeyed(c: Config, s: Server, i: SessionId)
    requires Keyed(s) && Handles(s) && i in s.clients && s.clients[i].pendingNickname != []
    ensures Keyed(Admit(s, i))
  {
    hide IsValidNickname, IsHex;
    var t, x := Admit(s, i), s.clients[i];
    assert t.clients == s.clients[i := Admitted(x)];
    assert t.identities == s.identities || t.identities == s.identities[x.pendingNickname := x.pendingKey];
    hide Admit;
  }

  lemma OneKeyed(s: Server, i: SessionId, y: Session)
    requires Keyed(s) && i in s.clients && (y.pendingNickname != [] ==> IsHex(y.pendingKey, 64))
    ensures Keyed(With(s, i, y))
  {
    hide IsValidNickname, IsHex;
  }

  lemma FlagKeyed(c: Config, e: Input, s: Server, a: Action)
    requires Allowed(c, e, s, a) && Keyed(s) && (a.Negotiate? || a.Authorize? || a.Claim? || a.MarkStopped?)
    ensures Keyed(Do(c, s, a))
  {
    var x := s.clients[a.id];
    assert x.pendingNickname != [] ==> IsHex(x.pendingKey, 64);
    hide Keyed, With, IsValidNickname, IsHex, MayCommand;
    match a
    case Negotiate(i, ok) => OneKeyed(s, i, x.(negotiated := ok));
    case Authorize(i) => OneKeyed(s, i, x.(authenticated := true));
    case MarkStopped(i) => OneKeyed(s, i, x.(phase := Stopped));
    case Claim(i, nick, key, challenge) =>
      OneKeyed(s, i, x.(pendingNickname := nick, pendingKey := key, pendingChallenge := challenge));
  }

  lemma RegisterKeyed(s: Server, nick: Text, key: Text)
    requires Keyed(s) && IsValidNickname(nick) && IsHex(key, 64)
    ensures Keyed(Bind(s, nick, key))
  {
    hide IsValidNickname, IsHex;
  }

  lemma EnrollKeyed(s: Server, i: SessionId)
    requires Keyed(s) && i !in s.clients
    ensures Keyed(Enrolled(s, i))
  {
    hide IsValidNickname, IsHex;
  }

  lemma EnteringKeyed(c: Config, e: Input, s: Server, i: SessionId)
    requires Sound(c, s) && Allowed(c, e, s, Enter(i)) && Keyed(s)
    ensures Keyed(Admit(s, i))
  {
    assert Handles(s);
    hide Sound, Handles, Keyed, Admit;
    EnterKeyed(c, s, i);
  }

  lemma BookKeyed(c: Config, e: Input, s: Server, a: Action)
    requires Sound(c, s) && Allowed(c, e, s, a) && Keyed(s)
    requires a.Open? || a.Enter? || a.Register? || a.Enroll?
    ensures Keyed(Do(c, s, a))
  {
    hide Sound, IsValidNickname, IsHex, NicknameInUse, CanBind, MayCommand, Keyed, Bind, Admit;
    match a
    case Open(i) => hide Do; OpenKeyed(c, s, i);
    case Enter(i) => hide Allowed; EnteringKeyed(c, e, s, i);
    case Register(nick, key) => RegisterKeyed(s, nick, key);
    case Enroll(i) => EnrollKeyed(s, i);
  }

  lemma ActionKeyed(c: Config, e: Input, s: Server, a: Action)
    requires Sound(c, s) && Allowed(c, e, s, a) && Keyed(s)
    ensures Keyed(Do(c, s, a))
  {
    hide Sound, Allowed, Do, Keyed, A.SameCreds;
    if A.IsQuiet(a) {
      A.QuietCreds(c, e, s, a);
      CredsKeyed(s, Do(c, s, a));
    }
    else if a.Open? || a.Enter? || a.Register? || a.Enroll? { BookKeyed(c, e, s, a); }
    else { FlagKeyed(c, e, s, a); }
  }

  lemma {:induction false} PlanLedger(c: Config, e: Input, s: Server, p: Plan)
    requires Sound(c, s) && Legal(c, e, s, p) && Owned(c, s) && Keyed(s)
    ensures Owned(c, Run(c, s, p)) && Keyed(Run(c, s, p))
    decreases p
  {
    hide Sound, Allowed, Do, Owned, Keyed;
    match p
    case Skip =>
    case One(a) =>
      ActionOwned(c, e, s, a);
      ActionKeyed(c, e, s, a);
    case Then(q, r) =>
      PlanLedger(c, e, s, q);
      PlanSound(c, e, s, q);
      PlanLedger(c, e, Run(c, s, q), r);
  }

  lemma StepLedger(c: Config, s: Server, e: Input)
    requires Sound(c, s) && Owned(c, s) && Keyed(s) && Enabled(c, s, e)
    ensures Owned(c, Step(c, s, e)) && Keyed(Step(c, s, e))
  {
    hide Legal, PlanOf, Run, Step, Sound, Enabled, Owned, Keyed;
    PlanLegal(c, s, e);
    PlanLedger(c, e, s, PlanOf(c, s, e));
    PlanRuns(c, s, e);
  }

  lemma {:induction false} RunLedger(c: Config, states: seq<Server>, inputs: seq<Input>, n: nat)
    requires IsRun(c, states, inputs) && Sound(c, states[0]) && Owned(c, states[0]) && Keyed(states[0]) && n <= |inputs|
    ensures Owned(c, states[n]) && Keyed(states[n])
  {
    hide Sound, Step, Enabled, Owned, Keyed;
    if n > 0 {
      RunLedger(c, states, inputs, n - 1);
      RunSound(c, states, inputs, n - 1);
      StepLedger(c, states[n - 1], inputs[n - 1]);
    }
  }

  // ---- loading ----

  function NextIdFrom(ids: seq<RoomId>, next: RoomId): RoomId
    decreases |ids|
  {
    if ids == [] then next else NextIdFrom(ids[1..], if next > ids[0] + 1 then next else ids[0] + 1)
  }

  /** The newest page of a room's history, oldest text first. */
  ghost function LoadedRecent(db: Database, r: RoomId, limit: nat): seq<Text>
    requires KeyedById(db)
  {
    Reverse(Bodies(Page(db, r, None, limit).messages))
  }

  ghost function LoadedRoom(c: Config, db: Database, r: RoomId): Room
    requires KeyedById(db) && r in db.rooms
  {
    var row := db.rooms[r];
    Room(ColumnText(row.name), ColumnText(row.topic), ColumnText(row.owner), LoadedRecent(db, r, c.historyLimit), {})
  }

  ghost function LoadedRooms(c: Config, db: Database): map<RoomId, Room>
    requires KeyedById(db)
  {
    map r | r in db.rooms :: LoadedRoom(c, db, r)
  }

  function LoadedBans(bans: set<Text>): set<Text> { set n | n in bans :: ColumnText(n) }

  function LoadedKeys(identities: map<Text, Text>): map<Text, Text>
  {
    map n | n in identities :: ColumnText(identities[n])
  }

  const LOBBY_NAME: Text := "lobby"
  const LOBBY_TOPIC: Text := "Welcome to the lobby"

  function NewLobby(c: Config): Room { Room(LOBBY_NAME, LOBBY_TOPIC, c.localNickname, [], {}) }

  /** `load_persistent_state` of a new server: the tables, and the lobby if they lack it. */
  ghost function Load(c: Config, db: Database): Server
    requires KeyedById(db)
  {
    var rooms, next := LoadedRooms(c, db), NextIdFrom(Ordered(db.rooms.Keys), LOBBY + 1);
    var bans, identities := LoadedBans(db.bans.Keys), LoadedKeys(db.identities);
    if LOBBY in db.rooms then Server(map[], {}, rooms, next, 0, bans, identities, [], 0, 0)
    else
      Server(map[], {}, rooms[LOBBY := NewLobby(c)], next, 0, bans, identities,
        [RoomWrite(LOBBY, RoomRow(NewLobby(c)))], 0, 0)
  }

  /** The server without its connections: what a restart should bring back. */
  function Rest(s: Server): Server
  {
    Server(map[], {}, UnmannedRooms(s.rooms), s.nextRoomId, 0, s.bans, s.identities, [], 0, 0)
  }

  // ---- the next id ----

  lemma {:induction false} NextIdIs(ids: seq<RoomId>, next: RoomId)
    ensures var n := NextIdFrom(ids, next);
      && n >= next && (forall r :: r in ids ==> r < n) && (n == next || n - 1 in ids)
    decreases |ids|
  {
    if ids != [] {
      NextIdIs(ids[1..], if next > ids[0] + 1 then next else ids[0] + 1);
      assert ids == [ids[0]] + ids[1..];
    }
  }

  lemma NextIdUnique(m: RoomId, n: RoomId, rooms: set<RoomId>)
    requires IsNextId(m, rooms) && IsNextId(n, rooms)
    ensures m == n
  {
  }

  lemma LoadedNext(rooms: set<RoomId>)
    ensures IsNextId(NextIdFrom(Ordered(rooms), LOBBY + 1), rooms)
    ensures IsNextId(NextIdFrom(Ordered(rooms), LOBBY + 1), rooms + {LOBBY})
  {
    hide Ordered;
    NextIdIs(Ordered(rooms), LOBBY + 1);
  }

  // ---- the recent texts ----

  function ColumnTexts(texts: seq<Text>): seq<Text>
  {
    seq(|texts|, i requires 0 <= i < |texts| => ColumnText(texts[i]))
  }

  lemma {:induction false} ColumnTextsExactly(texts: seq<Text>)
    ensures ColumnTexts(texts) == texts <==> AllNulFree(texts)
  {
    hide ColumnText, NulFree;
    forall k | 0 <= k < |texts| ensures ColumnText(texts[k]) == texts[k] <==> NulFree(texts[k]) {
      ReadBackExactly(texts[k]);
    }
    if ColumnTexts(texts) == texts {
      forall k | 0 <= k < |texts| ensures NulFree(texts[k]) { assert ColumnTexts(texts)[k] == texts[k]; }
    }
  }

  lemma LoadedRecentIs(db: Database, r: RoomId, limit: nat)
    requires KeyedById(db)
    ensures LoadedRecent(db, r, limit) == ColumnTexts(Recent(db, r, PageSize(limit)))
  {
    hide Descending, ColumnText;
    var rows, n := QueryRows(db, r, None, limit), PageSize(limit);
    var kept := UpTo(Older(db, r, None), n);
    assert Page(db, r, None, limit).messages == ReadRows(kept);
  }

  lemma RecentLength(db: Database, r: RoomId, limit: nat)
    requires KeyedById(db)
    ensures |Recent(db, r, limit)| == |UpTo(Older(db, r, None), limit)|
  {
    hide Descending;
  }

  /** A room's recent texts are loaded as they were exactly when there are at most 500 of them,
      none with a NUL. */
  lemma RecentSurvives(db: Database, r: RoomId, limit: nat)
    requires KeyedById(db) && limit >= 1
    ensures var recent := Recent(db, r, limit);
      LoadedRecent(db, r, limit) == recent <==> |recent| <= MAX_HISTORY_PAGE && AllNulFree(recent)
  {
    hide Older, ColumnTexts, AllNulFree, Page, LoadedRecent;
    LoadedRecentIs(db, r, limit);
    RecentLength(db, r, limit);
    RecentLength(db, r, PageSize(limit));
    ColumnTextsLength(Recent(db, r, PageSize(limit)));
    if |Recent(db, r, limit)| <= MAX_HISTORY_PAGE {
      assert UpTo(Older(db, r, None), limit) == UpTo(Older(db, r, None), PageSize(limit));
      ColumnTextsExactly(Recent(db, r, limit));
    }
  }

  lemma {:induction false} ColumnTextsLength(texts: seq<Text>)
    ensures |ColumnTexts(texts)| == |texts|
  {
  }

  // ---- restart ----

  ghost predicate RoomSurvives(room: Room) { |room.recent| <= MAX_HISTORY_PAGE && AllNulFree(room.recent) }

  /** What a restart keeps: histories of at most 500 texts, and texts without NULs. */
  ghost predicate Survives(s: Server)
  {
    && (forall r :: r in s.rooms ==> RoomSurvives(s.rooms[r]))
    && (forall n :: n in s.bans ==> NulFree(n))
  }

  lemma ValidIsNulFree(t: Text)
    requires IsValidNickname(t) || IsValidRoomName(t) || IsValidRoomTopic(t) || IsHex(t, 64)
    ensures NulFree(t)
  {
  }

  lemma LoadedRoomIs(c: Config, db: Database, s: Server, r: RoomId)
    requires Mirrors(c, db, s) && r in s.rooms && c.historyLimit >= 1 && NulFree(c.localNickname)
    requires IsOwner(c, s.rooms[r].owner) && IsValidRoomName(s.rooms[r].name) && IsValidRoomTopic(s.rooms[r].topic)
    ensures var room := s.rooms[r];
      && r in db.rooms && db.rooms[r] == RoomRow(room)
      && LoadedRoom(c, db, r) == room.(members := {}, recent := LoadedRecent(db, r, c.historyLimit))
      && (LoadedRecent(db, r, c.historyLimit) == room.recent <==> |room.recent| <= MAX_HISTORY_PAGE && AllNulFree(room.recent))
  {
    var room := s.rooms[r];
    hide ColumnText, NulFree, IsValidRoomName, IsValidRoomTopic, IsValidNickname, LoadedRecent, AllNulFree, Recent, NextStamp;
    assert room.recent == Recent(db, r, c.historyLimit);
    RecentSurvives(db, r, c.historyLimit);
    ReadBackExactly(room.name);
    ReadBackExactly(room.topic);
    ReadBackExactly(room.owner);
    ValidIsNulFree(room.name);
    ValidIsNulFree(room.topic);
    EmptyIsNulFree();
    if IsValidNickname(room.owner) { ValidIsNulFree(room.owner); }
  }

  lemma EmptyIsNulFree()
    ensures NulFree([])
  {
  }

  lemma RoomIsLoaded(c: Config, db: Database, s: Server, r: RoomId)
    requires Mirrors(c, db, s) && Sound(c, s) && Owned(c, s) && r in s.rooms && c.historyLimit >= 1 && NulFree(c.localNickname)
    ensures r in db.rooms && (LoadedRoom(c, db, r) == Unmanned(s.rooms[r]) <==> RoomSurvives(s.rooms[r]))
  {
    RoomFields(c, s);
    hide LoadedRecent, Sound, Owned, IsValidRoomName, IsValidRoomTopic, IsOwner, LoadedRoom, Mirrors, NulFree;
    LoadedRoomIs(c, db, s, r);
    var room, loaded := s.rooms[r], LoadedRoom(c, db, r);
    assert loaded.recent == LoadedRecent(db, r, c.historyLimit);
    assert Unmanned(room).recent == room.recent;
  }

  lemma SameMaps(a: map<RoomId, Room>, b: map<RoomId, Room>)
    requires a.Keys == b.Keys
    ensures a == b <==> forall r :: r in b ==> a[r] == b[r]
  {
  }

  lemma LoadedAt(c: Config, db: Database, r: RoomId)
    requires KeyedById(db)
    ensures LoadedRooms(c, db).Keys == db.rooms.Keys
    ensures r in db.rooms ==> LoadedRooms(c, db)[r] == LoadedRoom(c, db, r)
  {
    hide LoadedRoom;
  }

  lemma RoomsSurvive(c: Config, db: Database, s: Server)
    requires Mirrors(c, db, s) && Sound(c, s) && Owned(c, s) && c.historyLimit >= 1 && NulFree(c.localNickname)
    ensures KeyedById(db)
    ensures LoadedRooms(c, db) == UnmannedRooms(s.rooms) <==> forall r :: r in s.rooms ==> RoomSurvives(s.rooms[r])
  {
    hide Sound, Owned, LoadedRoom, LoadedRooms, RoomSurvives, Mirrors, NulFree, KeyedById, UnmannedRooms;
    RoomsOfMirror(c, db, s);
    MirrorIsKeyed(c, db, s);
    var a, b := LoadedRooms(c, db), UnmannedRooms(s.rooms);
    LoadedAt(c, db, LOBBY);
    forall r | r in s.rooms ensures r in a && (a[r] == b[r] <==> RoomSurvives(s.rooms[r])) {
      LoadedAt(c, db, r);
      RoomIsLoaded(c, db, s, r);
    }
    SameMaps(a, b);
  }

  lemma RoomFields(c: Config, s: Server)
    requires Sound(c, s) && Owned(c, s)
    ensures forall r :: r in s.rooms ==>
              IsOwner(c, s.rooms[r].owner) && IsValidRoomName(s.rooms[r].name) && IsValidRoomTopic(s.rooms[r].topic)
    ensures LOBBY in s.rooms
  {
    hide Seats, DistinctNames, Handles, IsOwner, IsValidRoomName, IsValidRoomTopic, Lower;
  }

  lemma BansSurvive(bans: set<Text>)
    ensures LoadedBans(bans) == bans <==> forall n :: n in bans ==> NulFree(n)
  {
    hide ColumnText, NulFree;
    var loaded := LoadedBans(bans);
    forall n | n in bans ensures NulFree(ColumnText(n)) && (ColumnText(n) == n <==> NulFree(n)) {
      ReadBackExactly(n);
    }
    if forall n :: n in bans ==> NulFree(n) {
      forall n ensures n in loaded <==> n in bans {
        if n in bans { assert ColumnText(n) == n; }
      }
    }
  }

  lemma KeysSurvive(s: Server)
    requires Keyed(s)
    ensures LoadedKeys(s.identities) == s.identities
  {
    hide ColumnText, IsValidNickname, IsHex, NulFree;
    forall n | n in s.identities ensures ColumnText(s.identities[n]) == s.identities[n] {
      ValidIsNulFree(s.identities[n]);
      ReadBackExactly(s.identities[n]);
    }
  }

  lemma LoadFields(c: Config, db: Database, s: Server)
    requires Mirrors(c, db, s) && LOBBY in s.rooms
    ensures Load(c, db) == Server(map[], {}, LoadedRooms(c, db), NextIdFrom(Ordered(s.rooms.Keys), LOBBY + 1), 0,
              LoadedBans(s.bans), LoadedKeys(s.identities), [], 0, 0)
  {
    assert db.rooms.Keys == s.rooms.Keys && db.bans.Keys == s.bans && db.identities == s.identities;
    hide LoadedRooms, NextIdFrom, LoadedBans, LoadedKeys, Mirrors, Ordered;
  }

  lemma RestIs(s: Server)
    ensures Rest(s) == Server(map[], {}, UnmannedRooms(s.rooms), s.nextRoomId, 0, s.bans, s.identities, [], 0, 0)
  {
  }

  lemma NextIdRecovered(c: Config, s: Server)
    requires Owned(c, s)
    ensures s.nextRoomId == NextIdFrom(Ordered(s.rooms.Keys), LOBBY + 1)
  {
    hide NextIdFrom, Ordered, IsOwner;
    LoadedNext(s.rooms.Keys);
    NextIdUnique(s.nextRoomId, NextIdFrom(Ordered(s.rooms.Keys), LOBBY + 1), s.rooms.Keys);
  }

  /** When the tables hold every write, loading them gives back the same rooms, next room id,
      bindings, bans and recent texts, exactly when the histories and texts survive. */
  lemma RestartRecovers(c: Config, db: Database, s: Server)
    requires Mirrors(c, db, s) && Sound(c, s) && Owned(c, s) && Keyed(s)
    requires c.historyLimit >= 1 && NulFree(c.localNickname)
    ensures KeyedById(db) && (Load(c, db) == Rest(s) <==> Survives(s))
  {
    hide Mirrors, Sound, Owned, Keyed, KeyedById, LoadedRooms, UnmannedRooms, NulFree, NextIdFrom, IsNextId, Load,
      LoadedBans, LoadedKeys, RoomSurvives, Ordered, Rest;
    MirrorIsKeyed(c, db, s);
    RoomFields(c, s);
    LoadFields(c, db, s);
    RestIs(s);
    RoomsSurvive(c, db, s);
    BansSurvive(s.bans);
    KeysSurvive(s);
    NextIdRecovered(c, s);
  }

  /** With a history limit above 500, which only a direct use of the server can set, a room with more
      recent texts than that loses the older ones. */
  lemma LongHistoryIsCut(db: Database, r: RoomId, limit: nat)
    requires KeyedById(db) && |Recent(db, r, limit)| > MAX_HISTORY_PAGE
    ensures |LoadedRecent(db, r, limit)| == MAX_HISTORY_PAGE
  {
    hide Older, LoadedRecent;
    LoadedRecentIs(db, r, limit);
    RecentLength(db, r, limit);
    RecentLength(db, r, MAX_HISTORY_PAGE);
  }

  /** A text with a NUL in it comes back cut short. */
  lemma NulIsLost()
    ensures ColumnText(['a', '\0', 'b']) == ['a']
  {
    var t: Text := ['a', '\0', 'b'];
    assert t[1..] == ['\0', 'b'];
  }

  // ---- start-up ----

  /** The first timestamp a new process would give. */
  function FirstStamp(c: Config): int { if c.clock(0) > 0 then c.clock(0) else 1 }

  ghost predicate GoodRooms(c: Config, rooms: map<RoomId, StoredRoom>)
  {
    && |rooms.Keys + {LOBBY}| <= MAX_ROOMS
    && (forall r :: r in rooms ==>
          && 0 < r < ID_BASE + |rooms.Keys + {LOBBY}|
          && IsValidRoomName(rooms[r].name) && IsValidRoomTopic(rooms[r].topic) && IsOwner(c, rooms[r].owner))
    && (forall r, q :: r in rooms && q in rooms && r != q ==> Lower(rooms[r].name) != Lower(rooms[q].name))
    && (LOBBY !in rooms ==> forall r :: r in rooms ==> Lower(rooms[r].name) != Lower(LOBBY_NAME))
  }

  /** The recent texts of each room are loaded as they are. */
  ghost predicate Readable(db: Database, limit: nat)
    requires KeyedById(db)
  {
    forall r :: r in db.rooms ==> |Recent(db, r, limit)| <= MAX_HISTORY_PAGE && AllNulFree(Recent(db, r, limit))
  }

  ghost predicate GoodMessages(c: Config, db: Database)
  {
    && KeyedById(db) && Housed(db) && Readable(db, c.historyLimit)
    && (forall id :: id in db.messages ==> db.messages[id].sentAt < FirstStamp(c))
    && (forall k: nat :: c.freshId(k) !in db.messages)
  }

  /** Tables a server may start from: empty ones, and those an earlier run left if its histories and
      texts survive (`RestartRuns.TablesStayGood`). */
  ghost predicate GoodDatabase(c: Config, db: Database)
  {
    && GoodRooms(c, db.rooms) && GoodMessages(c, db)
    && (forall n :: n in db.identities ==> IsValidNickname(n) && IsHex(db.identities[n], 64))
    && (forall n :: n in db.bans ==> NulFree(n))
  }

  const NO_TABLES := Database(map[], map[], map[], map[])

  /** Any server may start from empty tables. */
  lemma EmptyTablesAreGood(c: Config)
    ensures GoodDatabase(c, NO_TABLES)
  {
    assert NO_TABLES.rooms.Keys + {LOBBY} == {LOBBY};
  }

  /** The configuration and environment a server starts in. */
  ghost predicate GoodConfig(c: Config) { GoodIds(c) && c.historyLimit >= 1 && NulFree(c.localNickname) }

  lemma StartRecent(c: Config, db: Database, r: RoomId)
    requires GoodMessages(c, db) && GoodConfig(c) && r in db.rooms
    ensures LoadedRecent(db, r, c.historyLimit) == Recent(db, r, c.historyLimit)
  {
    hide LoadedRecent, AllNulFree, Recent;
    RecentSurvives(db, r, c.historyLimit);
  }

  /** The loaded state before the lobby is added. */
  ghost function Bare0(c: Config, db: Database): Server
    requires KeyedById(db)
  {
    Server(map[], {}, LoadedRooms(c, db), NextIdFrom(Ordered(db.rooms.Keys), LOBBY + 1), 0,
      LoadedBans(db.bans.Keys), LoadedKeys(db.identities), [], 0, 0)
  }

  lemma LoadedFields(c: Config, db: Database, r: RoomId)
    requires GoodDatabase(c, db) && GoodConfig(c) && r in db.rooms
    ensures LoadedRoom(c, db, r) == Room(db.rooms[r].name, db.rooms[r].topic, db.rooms[r].owner, Recent(db, r, c.historyLimit), {})
  {
    var row := db.rooms[r];
    StartRecent(c, db, r);
    hide ColumnText, NulFree, IsValidRoomName, IsValidRoomTopic, IsValidNickname, LoadedRecent, Recent, Lower, GoodMessages;
    ReadBackExactly(row.name);
    ReadBackExactly(row.topic);
    ReadBackExactly(row.owner);
    ValidIsNulFree(row.name);
    ValidIsNulFree(row.topic);
    EmptyIsNulFree();
    if IsValidNickname(row.owner) { ValidIsNulFree(row.owner); }
  }

  lemma LoadedLedger(c: Config, db: Database)
    requires GoodDatabase(c, db)
    ensures LoadedKeys(db.identities) == db.identities && LoadedBans(db.bans.Keys) == db.bans.Keys
  {
    hide ColumnText, NulFree, IsValidNickname, IsHex, GoodRooms, GoodMessages;
    BansSurvive(db.bans.Keys);
    forall n | n in db.identities ensures ColumnText(db.identities[n]) == db.identities[n] {
      ValidIsNulFree(db.identities[n]);
      ReadBackExactly(db.identities[n]);
    }
  }

  lemma BareIs(c: Config, db: Database)
    requires GoodDatabase(c, db)
    ensures var s := Bare0(c, db);
      && s.rooms == LoadedRooms(c, db) && s.identities == db.identities && s.bans == db.bans.Keys
      && s.writes == [] && s.stored == 0 && s.lastStamp == 0 && NextStamp(c, s) == FirstStamp(c)
      && s.rooms.Keys == db.rooms.Keys
  {
    hide LoadedRoom, LoadedBans, LoadedKeys, NextIdFrom, Ordered;
    LoadedLedger(c, db);
  }

  lemma BareRooms(c: Config, db: Database, r: RoomId)
    requires GoodDatabase(c, db) && GoodConfig(c) && r in db.rooms
    ensures var room := LoadedRooms(c, db)[r];
            RoomRow(room) == db.rooms[r] && room.members == {} && room.recent == Recent(db, r, c.historyLimit)
  {
    hide LoadedRoom, Recent, GoodDatabase;
    LoadedFields(c, db, r);
  }

  lemma GoodParts(c: Config, db: Database)
    requires GoodDatabase(c, db)
    ensures GoodMessages(c, db) && GoodRooms(c, db.rooms) && KeyedById(db) && Housed(db)
  {
    hide GoodRooms, NulFree, Readable;
  }

  lemma FreshStart(c: Config, db: Database)
    requires GoodMessages(c, db)
    ensures forall id :: id in db.messages ==> db.messages[id].sentAt < FirstStamp(c)
    ensures forall k: nat :: c.freshId(k) !in db.messages
  {
    hide Readable, NulFree;
  }

  lemma BareMirrors(c: Config, db: Database)
    requires GoodDatabase(c, db) && GoodConfig(c)
    ensures Mirrors(c, db, Bare0(c, db))
  {
    hide LoadedRooms, Recent, GoodRooms, GoodMessages, GoodDatabase, GoodConfig, Bare0, NextStamp, FirstStamp, RoomRow, KeyedById,
      Housed;
    GoodParts(c, db);
    BareIs(c, db);
    FreshStart(c, db);
    forall r | r in db.rooms
      ensures db.rooms[r] == RoomRow(LoadedRooms(c, db)[r])
      ensures LoadedRooms(c, db)[r].recent == Recent(db, r, c.historyLimit)
    {
      BareRooms(c, db, r);
    }
  }

  lemma LobbyWrite(c: Config, db: Database)
    requires GoodRooms(c, db.rooms) && LOBBY !in db.rooms
    ensures var w := RoomWrite(LOBBY, RoomRow(NewLobby(c)));
            ApplyAll(db, [w]) == Some(db.(rooms := db.rooms[LOBBY := RoomRow(NewLobby(c))]))
  {
    hide IsValidRoomName, IsValidRoomTopic, IsOwner, Lower;
    var w := RoomWrite(LOBBY, RoomRow(NewLobby(c)));
    assert ApplyAll(db, []) == Some(db);
    assert [w][..0] == [];
  }

  lemma LoadIs(c: Config, db: Database)
    requires KeyedById(db)
    ensures var s, t := Bare0(c, db), Load(c, db);
      && t.identities == s.identities && t.bans == s.bans && t.stored == s.stored && t.lastStamp == s.lastStamp
      && t.nextRoomId == s.nextRoomId && t.localRoomId == 0
      && (LOBBY in db.rooms ==> t == s)
      && (LOBBY !in db.rooms ==>
            t.rooms == s.rooms[LOBBY := NewLobby(c)] && t.writes == [RoomWrite(LOBBY, RoomRow(NewLobby(c)))])
  {
    hide LoadedRooms, LoadedBans, LoadedKeys, NextIdFrom, Ordered;
  }

  lemma Unoccupied(c: Config, db: Database)
    requires GoodMessages(c, db) && LOBBY !in db.rooms
    ensures forall id :: id in db.messages ==> db.messages[id].roomId != LOBBY
  {
    hide NulFree, Readable;
  }

  lemma LobbyRowMirrors(c: Config, db: Database, s: Server, t: Server)
    requires Mirrors(c, db, s) && s.rooms.Keys == db.rooms.Keys && LOBBY !in db.rooms
    requires t.rooms == s.rooms[LOBBY := NewLobby(c)] && t.identities == s.identities && t.bans == s.bans
    requires t.stored == s.stored && t.lastStamp == s.lastStamp
    requires forall id :: id in db.messages ==> db.messages[id].roomId != LOBBY
    ensures Mirrors(c, db.(rooms := db.rooms[LOBBY := RoomRow(NewLobby(c))]), t)
  {
    hide Mirrors, RoomRow, NewLobby;
    NewLobbyIsEmpty(c);
    RowMirrors(c, db, s, t, db.(rooms := db.rooms[LOBBY := RoomRow(NewLobby(c))]), LOBBY);
  }

  lemma StartMirror(c: Config, db: Database)
    requires GoodDatabase(c, db) && GoodConfig(c)
    ensures Mirror(c, db, Load(c, db))
  {
    assert GoodMessages(c, db) && GoodRooms(c, db.rooms) && KeyedById(db);
    hide Mirrors, GoodDatabase, GoodRooms, GoodMessages, GoodConfig, Load, Bare0, LoadedRooms, RoomRow, NewLobby, FirstStamp,
      NextStamp, KeyedById, ApplyAll;
    var s, t := Bare0(c, db), Load(c, db);
    BareMirrors(c, db);
    BareIs(c, db);
    LoadIs(c, db);
    if LOBBY in db.rooms {
      NoWrites(db);
    } else {
      LobbyWrite(c, db);
      Unoccupied(c, db);
      LobbyRowMirrors(c, db, s, t);
    }
  }

  lemma NoWrites(db: Database)
    ensures ApplyAll(db, []) == Some(db)
  {
  }

  lemma NewLobbyIsEmpty(c: Config)
    ensures NewLobby(c).recent == [] && NewLobby(c).members == {}
  {
  }

  lemma BareNext(c: Config, db: Database)
    requires KeyedById(db)
    ensures Bare0(c, db).nextRoomId == NextIdFrom(Ordered(db.rooms.Keys), LOBBY + 1)
  {
    hide LoadedRooms, LoadedBans, LoadedKeys, NextIdFrom, Ordered;
  }

  lemma WithLobby(loaded: map<RoomId, Room>, rooms: map<RoomId, Room>, lobby: Room)
    requires if LOBBY in loaded then rooms == loaded else rooms == loaded[LOBBY := lobby]
    ensures rooms.Keys == loaded.Keys + {LOBBY} && (LOBBY !in loaded ==> rooms[LOBBY] == lobby)
    ensures forall r :: r in loaded ==> r in rooms && rooms[r] == loaded[r]
  {
  }

  lemma StartKeys(c: Config, db: Database)
    requires GoodDatabase(c, db) && GoodConfig(c)
    ensures KeyedById(db)
    ensures var s := Load(c, db);
      && s.rooms.Keys == db.rooms.Keys + {LOBBY} && s.localRoomId == 0
      && s.nextRoomId == NextIdFrom(Ordered(db.rooms.Keys), LOBBY + 1)
      && (LOBBY !in db.rooms ==> s.rooms[LOBBY] == NewLobby(c))
      && (forall r :: r in db.rooms ==> r in s.rooms && s.rooms[r] == LoadedRooms(c, db)[r])
  {
    hide Load, Bare0, LoadedRooms, NextIdFrom, Ordered, GoodDatabase, GoodConfig, NewLobby, KeyedById, NextStamp, FirstStamp,
      GoodRooms, GoodMessages, Housed;
    GoodParts(c, db);
    BareNext(c, db);
    BareIs(c, db);
    LoadIs(c, db);
    WithLobby(LoadedRooms(c, db), Load(c, db).rooms, NewLobby(c));
  }

  lemma StartRoom(c: Config, db: Database, r: RoomId)
    requires GoodDatabase(c, db) && GoodConfig(c) && KeyedById(db) && r in Load(c, db).rooms
    ensures var room := Load(c, db).rooms[r];
      && room.members == {}
      && (r in db.rooms ==> RoomRow(room) == db.rooms[r])
      && (r !in db.rooms ==> r == LOBBY && room == NewLobby(c))
  {
    hide Load, LoadedRooms, NextIdFrom, Ordered, GoodDatabase, GoodConfig, NewLobby, KeyedById, RoomRow, Recent;
    StartKeys(c, db);
    NewLobbyIsEmpty(c);
    if r in db.rooms { BareRooms(c, db, r); }
  }

  lemma LobbyIsValid()
    ensures IsValidRoomName(LOBBY_NAME) && IsValidRoomTopic(LOBBY_TOPIC)
  {
  }

  /** The row a loaded room came from. */
  function StartRow(c: Config, db: Database, r: RoomId): StoredRoom
  {
    if r in db.rooms then db.rooms[r] else RoomRow(NewLobby(c))
  }

  lemma StartRows(c: Config, db: Database, r: RoomId)
    requires GoodDatabase(c, db) && GoodConfig(c) && KeyedById(db) && r in Load(c, db).rooms
    ensures var room := Load(c, db).rooms[r];
            room.name == StartRow(c, db, r).name && room.topic == StartRow(c, db, r).topic && room.owner == StartRow(c, db, r).owner
  {
    hide Load, GoodDatabase, GoodConfig, KeyedById;
    StartRoom(c, db, r);
  }

  lemma StartRowsGood(c: Config, db: Database)
    requires GoodRooms(c, db.rooms)
    ensures forall r :: r in db.rooms.Keys + {LOBBY} ==>
              var row := StartRow(c, db, r);
              && 0 < r < ID_BASE + |db.rooms.Keys + {LOBBY}|
              && IsValidRoomName(row.name) && IsValidRoomTopic(row.topic) && IsOwner(c, row.owner)
    ensures forall r, q :: r in db.rooms.Keys + {LOBBY} && q in db.rooms.Keys + {LOBBY} && r != q ==>
              Lower(StartRow(c, db, r).name) != Lower(StartRow(c, db, q).name)
    ensures |db.rooms.Keys + {LOBBY}| <= MAX_ROOMS
  {
    LobbyIsValid();
    hide IsValidRoomName, IsValidRoomTopic, Lower, IsValidNickname;
  }

  lemma StartRoomTable(c: Config, db: Database)
    requires GoodDatabase(c, db) && GoodConfig(c)
    ensures KeyedById(db) && RoomTable(Load(c, db)) && Owned(c, Load(c, db))
  {
    hide Load, IsValidRoomName, IsValidRoomTopic, Lower, NextIdFrom, Ordered, GoodMessages, IsOwner, GoodDatabase, GoodRooms,
      GoodConfig, StartRow, KeyedById, LoadedRooms;
    GoodParts(c, db);
    StartKeys(c, db);
    var s := Load(c, db);
    LoadedNext(db.rooms.Keys);
    StartRowsGood(c, db);
    assert |s.rooms| == |s.rooms.Keys|;
    forall r | r in s.rooms
      ensures 0 < r < s.nextRoomId && IsValidRoomName(s.rooms[r].name) && IsValidRoomTopic(s.rooms[r].topic)
      ensures IsOwner(c, s.rooms[r].owner)
    {
      StartRows(c, db, r);
    }
    forall r, q | r in s.rooms && q in s.rooms && r != q ensures Lower(s.rooms[r].name) != Lower(s.rooms[q].name) {
      StartRows(c, db, r);
      StartRows(c, db, q);
    }
  }

  lemma LoadIsEmpty(c: Config, db: Database)
    requires KeyedById(db)
    ensures Load(c, db).clients == map[] && Load(c, db).sessions == {} && Load(c, db).identities == LoadedKeys(db.identities)
  {
    hide LoadedRooms, LoadedBans, LoadedKeys, NextIdFrom, Ordered;
  }

  lemma EmptySound(c: Config, s: Server)
    requires s.clients == map[] && s.sessions == {} && 0 !in s.rooms && RoomTable(s)
    requires forall r :: r in s.rooms ==> s.rooms[r].members == {}
    ensures Sound(c, s)
  {
    hide RoomTable;
  }

  lemma EmptyKeyed(c: Config, db: Database)
    requires GoodDatabase(c, db)
    ensures Keyed(Load(c, db)) && Housed(db)
  {
    hide Load, IsValidNickname, IsHex, GoodRooms, NulFree, LoadedKeys, LoadedBans, Readable;
    LoadIsEmpty(c, db);
    LoadedLedger(c, db);
  }

  /** Start-up establishes every invariant. */
  lemma StartIsSound(c: Config, db: Database)
    requires GoodDatabase(c, db) && GoodConfig(c)
    ensures var s := Load(c, db); Sound(c, s) && Owned(c, s) && Keyed(s) && Mirror(c, db, s)
    ensures Grounded(c, db) && Load(c, db).clients == map[]
  {
    hide Load, Mirror, Owned, Keyed, GoodDatabase, GoodIds, Housed, Sound, RoomTable, NulFree, KeyedById;
    StartRoomTable(c, db);
    var s := Load(c, db);
    forall r | r in s.rooms ensures s.rooms[r].members == {} {
      StartRoom(c, db, r);
    }
    StartMirror(c, db);
    EmptyKeyed(c, db);
    LoadIsEmpty(c, db);
    RoomTableHasNoZero(s);
    EmptySound(c, s);
  }

  lemma RoomTableHasNoZero(s: Server)
    requires RoomTable(s)
    ensures 0 !in s.rooms
  {
    hide IsValidRoomName, IsValidRoomTopic, Lower;
  }

  /** Start from good tables, run, stop once every write has been stored, and start again: no write
      has violated a constraint, and the new server has the rooms, next room id, bindings, bans and
      recent texts of the old one, exactly when the histories and texts survive. */
  lemma {:induction false} RestartAfterAnyRun(c: Config, origin: Database, states: seq<Server>, inputs: seq<Input>, n: nat)
    requires GoodDatabase(c, origin) && GoodConfig(c)
    requires IsRun(c, states, inputs) && states[0] == Load(c, origin) && n <= |inputs|
    ensures var after := ApplyAll(origin, states[n].writes);
      after.Some? && KeyedById(after.value) && (Load(c, after.value) == Rest(states[n]) <==> Survives(states[n]))
  {
    hide GoodDatabase, Load, Sound, Owned, Keyed, Mirrors, Grounded, Step, Enabled, Survives, ApplyAll;
    StartIsSound(c, origin);
    RunSound(c, states, inputs, n);
    RunLedger(c, states, inputs, n);
    RunMirror(c, origin, states, inputs, n);
    var db := ApplyAll(origin, states[n].writes).value;
    MirrorIsKeyed(c, db, states[n]);
    RestartRecovers(c, db, states[n]);
  }

  lemma MirrorIsKeyed(c: Config, db: Database, s: Server)
    requires Mirrors(c, db, s)
    ensures KeyedById(db)
  {
  }

  /** The same through the write queue: its worker has committed everything the server stored when a
      flush returns, if it refused nothing and no batch failed. */
  lemma {:induction false} RestartThroughTheQueue(c: Config, origin: Database, states: seq<Server>, inputs: seq<Input>, n: nat,
                               events: seq<W.Event>, stores: seq<W.Store>)
    requires GoodDatabase(c, origin) && GoodConfig(c)
    requires IsRun(c, states, inputs) && states[0] == Load(c, origin) && n <= |inputs|
    requires W.IsRun(origin, events, stores) && W.Enabled(stores[|events|], W.FlushReturns)
    requires W.Accepted(events, stores, |events|) == states[n].writes
    requires forall k :: 0 <= k < |W.Outcomes(events, stores, |events|)| ==> W.Outcomes(events, stores, |events|)[k].committed
    ensures var db := stores[|events|].db;
      KeyedById(db) && (Load(c, db) == Rest(states[n]) <==> Survives(states[n]))
  {
    hide GoodDatabase, GoodConfig, Load, Step, Enabled, Survives, ApplyAll, W.Step;
    RestartAfterAnyRun(c, origin, states, inputs, n);
    W.EveryRunAccounted(origin, events, stores, |events|);
    W.NothingLost(W.Outcomes(events, stores, |events|));
    var writes := W.Processed(W.Outcomes(events, stores, |events|));
    assert writes + [] + [] == writes;
  }
}
