/** What restarts do over whole runs: when one recovers everything, two runs after which one does not,
    and any number of them in a row. */
module RestartRuns {
  import opened Octets
  import opened Messages
  import opened Ordering
  import opened Tables
  import opened History
  import opened ServerModel
  import opened ServerStructure
  import opened ServerActions
  import opened ServerReach
  import opened Persistence
  import opened PersistenceSafety
  import opened PlainTexts
  import opened Restart

  // ---- what an operator can check beforehand ----

  lemma LoadedRoomPlain(c: Config, db: Database, r: RoomId)
    requires GoodDatabase(c, db) && GoodConfig(c) && KeyedById(db) && r in Load(c, db).rooms
    ensures AllNulFree(Load(c, db).rooms[r].recent)
  {
    GoodParts(c, db);
    hide Load, LoadedRooms, NulFree, GoodDatabase, GoodConfig, KeyedById, Recent, NewLobby, GoodRooms, Housed;
    StartKeys(c, db);
    if r in db.rooms { Restart.BareRooms(c, db, r); } else { NewLobbyIsEmpty(c); }
  }

  lemma GoodBans(c: Config, db: Database)
    requires GoodDatabase(c, db)
    ensures forall n :: n in db.bans ==> NulFree(n)
  {
    hide GoodRooms, GoodMessages, NulFree, IsValidNickname, IsHex;
  }

  lemma LoadedPlain(c: Config, db: Database)
    requires GoodDatabase(c, db) && GoodConfig(c)
    ensures PlainState(Load(c, db))
  {
    hide Load, Bare0, NulFree, AllNulFree, GoodDatabase, GoodConfig, KeyedById, NewLobby, GoodRooms, GoodMessages, Housed,
      LoadedRooms, NextStamp, FirstStamp, LoadedBans;
    GoodParts(c, db);
    BareIs(c, db);
    LoadIs(c, db);
    GoodBans(c, db);
    forall r | r in Load(c, db).rooms ensures AllNulFree(Load(c, db).rooms[r].recent) {
      LoadedRoomPlain(c, db, r);
    }
  }

  lemma RecentIsBounded(c: Config, db: Database, s: Server, r: RoomId)
    requires Mirrors(c, db, s) && r in s.rooms
    ensures |s.rooms[r].recent| <= c.historyLimit
  {
    hide RoomRow, NextStamp, Recent;
    RecentLength(db, r, c.historyLimit);
  }

  lemma PlainSurvives(c: Config, db: Database, s: Server)
    requires Mirrors(c, db, s) && PlainState(s) && c.historyLimit <= MAX_HISTORY_PAGE
    ensures Survives(s)
  {
    hide Mirrors, NulFree, AllNulFree;
    forall r | r in s.rooms ensures |s.rooms[r].recent| <= MAX_HISTORY_PAGE { RecentIsBounded(c, db, s, r); }
  }

  /** Start from good tables, run, and stop once every write has been stored. */
  ghost predicate RunsFrom(c: Config, origin: Database, states: seq<Server>, inputs: seq<Input>)
  {
    GoodDatabase(c, origin) && GoodConfig(c) && IsRun(c, states, inputs) && states[0] == Load(c, origin)
  }

  ghost predicate AllPlainInputs(inputs: seq<Input>) { forall k :: 0 <= k < |inputs| ==> PlainInput(inputs[k]) }

  lemma {:induction false} RunMirrors(c: Config, origin: Database, states: seq<Server>, inputs: seq<Input>, n: nat)
    requires RunsFrom(c, origin, states, inputs) && n <= |inputs|
    ensures Sound(c, states[n]) && Owned(c, states[n]) && Keyed(states[n]) && Grounded(c, origin)
    ensures Mirror(c, origin, states[n])
  {
    hide GoodDatabase, GoodConfig, Load, Sound, Owned, Keyed, Mirrors, Grounded, Step, Enabled, ApplyAll;
    StartIsSound(c, origin);
    RunSound(c, states, inputs, n);
    RunLedger(c, states, inputs, n);
    RunMirror(c, origin, states, inputs, n);
  }

  lemma HostIsPlain(c: Config)
    requires GoodConfig(c)
    ensures NulFree(c.localNickname)
  {
  }

  /** If the history limit fits a page, and nothing said or banned by the host or the administrator
      holds a NUL, then a restart recovers the server after any run. */
  lemma {:induction false} RestartRecoversAll(c: Config, origin: Database, states: seq<Server>, inputs: seq<Input>, n: nat)
    requires RunsFrom(c, origin, states, inputs) && n <= |inputs|
    requires c.historyLimit <= MAX_HISTORY_PAGE && AllPlainInputs(inputs)
    ensures Survives(states[n])
    ensures var after := ApplyAll(origin, states[n].writes);
            after.Some? && KeyedById(after.value) && Load(c, after.value) == Rest(states[n])
  {
    hide GoodDatabase, GoodConfig, Load, Rest, Mirrors, Grounded, Step, Enabled, Survives, ApplyAll, Sound, Owned, Keyed, NulFree,
      PlainInput, PlainState;
    RunMirrors(c, origin, states, inputs, n);
    LoadedPlain(c, origin);
    StartIsSound(c, origin);
    HostIsPlain(c);
    RunPlain(c, states, inputs, n);
    PlainSurvives(c, ApplyAll(origin, states[n].writes).value, states[n]);
    RestartAfterAnyRun(c, origin, states, inputs, n);
  }

  // ---- two runs that are not recovered ----

  const CUT_NAME: Text := ['a', '\0', 'b']

  lemma BannedAtOnce(c: Config, s: Server, nick: Text)
    requires s.sessions == {}
    ensures Step(c, s, BanUser(nick, [])).bans == s.bans + {nick}
  {
    assert Ordered({}) == [];
    hide Expel;
  }

  lemma LoadedBansAre(c: Config, db: Database)
    requires KeyedById(db)
    ensures Load(c, db).bans == LoadedBans(db.bans.Keys)
  {
    hide LoadedRooms, LoadedBans, LoadedKeys, NextIdFrom, Ordered;
  }

  /** Any server: one ban of a name with a NUL in it, and a new start. Another name is banned. */
  lemma {:induction false} CutBan(c: Config) returns (states: seq<Server>, inputs: seq<Input>)
    requires GoodConfig(c)
    ensures RunsFrom(c, NO_TABLES, states, inputs) && inputs == [BanUser(CUT_NAME, [])]
    ensures var after := ApplyAll(NO_TABLES, states[1].writes);
      && after.Some? && KeyedById(after.value) && Load(c, after.value) != Rest(states[1])
      && CUT_NAME in states[1].bans && CUT_NAME !in Load(c, after.value).bans && "a" in Load(c, after.value).bans
  {
    EmptyTablesAreGood(c);
    var s, e := Load(c, NO_TABLES), BanUser(CUT_NAME, []);
    LoadIsEmpty(c, NO_TABLES);
    BannedAtOnce(c, s, CUT_NAME);
    states, inputs := [s, Step(c, s, e)], [e];
    assert CUT_NAME[1] == '\0';
    NulIsLost();
    hide GoodDatabase, GoodConfig, Load, Step, ApplyAll, Sound, Owned, Keyed, Grounded, ColumnText, NulFree;
    RunMirrors(c, NO_TABLES, states, inputs, 1);
    RestartAfterAnyRun(c, NO_TABLES, states, inputs, 1);
    CutBanLoads(c, ApplyAll(NO_TABLES, states[1].writes).value, states[1]);
  }

  lemma CutBanLoads(c: Config, db: Database, s: Server)
    requires Mirrors(c, db, s) && CUT_NAME in s.bans
    ensures KeyedById(db) && "a" in Load(c, db).bans && CUT_NAME !in Load(c, db).bans && CUT_NAME in Rest(s).bans
  {
    assert KeyedById(db) && db.bans.Keys == s.bans;
    assert CUT_NAME[1] == '\0' && !NulFree(CUT_NAME);
    LoadedBansAre(c, db);
    NulIsLost();
    hide Mirrors, Load, ColumnText, NulFree;
    assert "a" == ColumnText(CUT_NAME);
    if CUT_NAME in LoadedBans(db.bans.Keys) {
      var n :| n in db.bans.Keys && ColumnText(n) == CUT_NAME;
      ReadBackExactly(n);
      assert false;
    }
  }

  lemma BroadcastAdds(c: Config, s: Server, text: Text)
    requires s.localRoomId == 0 && LOBBY in s.rooms && |s.rooms[LOBBY].recent| < c.historyLimit
    ensures var t := Step(c, s, Broadcast(text));
            t.localRoomId == 0 && LOBBY in t.rooms && t.rooms[LOBBY].recent == s.rooms[LOBBY].recent + [text]
  {
    SaidFields(c, s, LOBBY, text, []);
    BroadcastRoomCore(c, s, LOBBY, text, []);
    var t := BroadcastRoom(c, s, LOBBY, text, []);
    assert Core(t).localRoomId == Core(s).localRoomId;
    hide BroadcastRoom;
  }

  /** The server broadcasts one text again and again. */
  lemma {:induction false} Broadcasts(c: Config, s: Server, n: nat) returns (states: seq<Server>, inputs: seq<Input>)
    requires s.localRoomId == 0 && LOBBY in s.rooms && s.rooms[LOBBY].recent == [] && n <= c.historyLimit
    ensures IsRun(c, states, inputs) && |inputs| == n && states[0] == s
    ensures states[n].localRoomId == 0 && LOBBY in states[n].rooms && |states[n].rooms[LOBBY].recent| == n
  {
    hide Step;
    if n == 0 {
      states, inputs := [s], [];
    } else {
      var before, earlier := Broadcasts(c, s, n - 1);
      var e := Broadcast("a");
      BroadcastAdds(c, before[n - 1], "a");
      states, inputs := before + [Step(c, before[n - 1], e)], earlier + [e];
    }
  }

  /** A limit above the page size, which only a direct use of the server can configure: 501 broadcasts,
      and a new start. The first is gone. */
  lemma {:induction false} CutHistory(c: Config) returns (states: seq<Server>, inputs: seq<Input>)
    requires GoodConfig(c) && c.historyLimit > MAX_HISTORY_PAGE
    ensures RunsFrom(c, NO_TABLES, states, inputs) && |inputs| == MAX_HISTORY_PAGE + 1
    ensures var s := states[|inputs|];
      var after := ApplyAll(NO_TABLES, s.writes);
      && after.Some? && KeyedById(after.value) && Load(c, after.value) != Rest(s)
      && LOBBY in s.rooms && |s.rooms[LOBBY].recent| == MAX_HISTORY_PAGE + 1
      && LOBBY in Load(c, after.value).rooms && |Load(c, after.value).rooms[LOBBY].recent| == MAX_HISTORY_PAGE
  {
    EmptyTablesAreGood(c);
    var n := MAX_HISTORY_PAGE + 1;
    StartKeys(c, NO_TABLES);
    NewLobbyIsEmpty(c);
    hide GoodDatabase, GoodConfig, Load, Step, ApplyAll, Sound, Owned, Keyed, Grounded, AllNulFree;
    states, inputs := Broadcasts(c, Load(c, NO_TABLES), n);
    RunMirrors(c, NO_TABLES, states, inputs, n);
    RestartAfterAnyRun(c, NO_TABLES, states, inputs, n);
    var s := states[n];
    assert !RoomSurvives(s.rooms[LOBBY]);
    CutHistoryLoads(c, ApplyAll(NO_TABLES, s.writes).value, s);
  }

  lemma CutHistoryLoads(c: Config, db: Database, s: Server)
    requires Mirrors(c, db, s) && LOBBY in s.rooms && |s.rooms[LOBBY].recent| > MAX_HISTORY_PAGE
    ensures KeyedById(db) && LOBBY in Load(c, db).rooms && |Load(c, db).rooms[LOBBY].recent| == MAX_HISTORY_PAGE
  {
    assert KeyedById(db) && LOBBY in db.rooms && s.rooms[LOBBY].recent == Recent(db, LOBBY, c.historyLimit);
    LongHistoryIsCut(db, LOBBY, c.historyLimit);
    LoadFields(c, db, s);
    LoadedAt(c, db, LOBBY);
    hide Mirrors, Load, LoadedRecent, Recent, LoadedRooms;
  }

  // ---- restarts in a row ----

  /** A new process on the tables an earlier one left: with the same host name and history limit, a
      clock that is not behind the timestamps given so far, and ids not used before. */
  ghost predicate Resumes(c: Config, s: Server, d: Config, db: Database)
  {
    && GoodConfig(d) && d.localNickname == c.localNickname && d.historyLimit == c.historyLimit
    && NextStamp(c, s) <= FirstStamp(d) && forall k: nat :: d.freshId(k) !in db.messages
  }

  lemma MirrorRooms(c: Config, d: Config, db: Database, s: Server)
    requires Mirrors(c, db, s) && Sound(c, s) && Owned(c, s) && d.localNickname == c.localNickname
    ensures GoodRooms(d, db.rooms)
  {
    hide Mirrors, Sound, Owned, IsValidRoomName, IsValidRoomTopic, Lower, IsOwner, KeyedById, Recent, NextStamp;
    RoomsOfMirror(c, db, s);
    MirrorSize(c, db, s);
    forall r | r in db.rooms
      ensures 0 < r < ID_BASE + |db.rooms.Keys + {LOBBY}|
      ensures IsValidRoomName(db.rooms[r].name) && IsValidRoomTopic(db.rooms[r].topic) && IsOwner(d, db.rooms[r].owner)
    {
      MirrorRow(c, d, db, s, r);
    }
    forall r, q | r in db.rooms && q in db.rooms && r != q ensures Lower(db.rooms[r].name) != Lower(db.rooms[q].name) {
      MirrorPair(c, db, s, r, q);
    }
  }

  lemma MirrorSize(c: Config, db: Database, s: Server)
    requires Mirrors(c, db, s) && Sound(c, s)
    ensures LOBBY in db.rooms && |db.rooms.Keys + {LOBBY}| == |s.rooms| <= MAX_ROOMS
  {
    hide Mirrors, Sound;
    RoomsOfMirror(c, db, s);
    RoomTableIs(c, s);
    assert db.rooms.Keys + {LOBBY} == s.rooms.Keys;
    assert |s.rooms| == |s.rooms.Keys|;
  }

  lemma MirrorRow(c: Config, d: Config, db: Database, s: Server, r: RoomId)
    requires Mirrors(c, db, s) && Sound(c, s) && Owned(c, s) && d.localNickname == c.localNickname && r in db.rooms
    ensures 0 < r < ID_BASE + |db.rooms.Keys + {LOBBY}|
    ensures IsValidRoomName(db.rooms[r].name) && IsValidRoomTopic(db.rooms[r].topic) && IsOwner(d, db.rooms[r].owner)
  {
    hide Mirrors, Sound, Owned, IsValidRoomName, IsValidRoomTopic, Lower, IsOwner, KeyedById, Recent, NextStamp;
    RoomFields(c, s);
    RoomTableIs(c, s);
    MirrorSize(c, db, s);
    MirrorRows(c, db, s);
    SameHost(c, d, s.rooms[r].owner);
  }

  lemma MirrorPair(c: Config, db: Database, s: Server, r: RoomId, q: RoomId)
    requires Mirrors(c, db, s) && Sound(c, s) && r in db.rooms && q in db.rooms && r != q
    ensures Lower(db.rooms[r].name) != Lower(db.rooms[q].name)
  {
    hide Mirrors, Sound, Lower, KeyedById, Recent, NextStamp;
    RoomTableIs(c, s);
    MirrorRows(c, db, s);
  }

  lemma SameHost(c: Config, d: Config, owner: Text)
    requires IsOwner(c, owner) && d.localNickname == c.localNickname
    ensures IsOwner(d, owner)
  {
  }

  lemma MirrorRows(c: Config, db: Database, s: Server)
    requires Mirrors(c, db, s)
    ensures db.rooms.Keys == s.rooms.Keys && db.bans.Keys == s.bans && db.identities == s.identities && KeyedById(db)
    ensures forall r :: r in s.rooms ==>
              var row := db.rooms[r];
              row.name == s.rooms[r].name && row.topic == s.rooms[r].topic && row.owner == s.rooms[r].owner
    ensures forall id :: id in db.messages ==> db.messages[id].sentAt < NextStamp(c, s)
    ensures forall r :: r in s.rooms ==> s.rooms[r].recent == Recent(db, r, c.historyLimit)
  {
    hide NextStamp, Recent;
  }

  lemma RoomTableIs(c: Config, s: Server)
    requires Sound(c, s)
    ensures LOBBY in s.rooms && |s.rooms| <= MAX_ROOMS
    ensures forall r :: r in s.rooms ==> 0 < r < ID_BASE + |s.rooms|
    ensures forall r, q :: r in s.rooms && q in s.rooms && r != q ==> Lower(s.rooms[r].name) != Lower(s.rooms[q].name)
  {
    hide Seats, DistinctNames, Handles, IsValidRoomName, IsValidRoomTopic, Lower;
  }

  lemma MirrorMessages(c: Config, d: Config, db: Database, s: Server)
    requires Mirrors(c, db, s) && Survives(s) && Housed(db) && Resumes(c, s, d, db)
    ensures GoodMessages(d, db)
  {
    MirrorRows(c, db, s);
    hide Mirrors, NextStamp, FirstStamp, Recent, AllNulFree, GoodConfig;
    forall r | r in db.rooms
      ensures |Recent(db, r, d.historyLimit)| <= MAX_HISTORY_PAGE && AllNulFree(Recent(db, r, d.historyLimit))
    {
      assert RoomSurvives(s.rooms[r]);
    }
  }

  lemma MirrorIsGood(c: Config, d: Config, db: Database, s: Server)
    requires Mirrors(c, db, s) && Sound(c, s) && Owned(c, s) && Keyed(s) && Survives(s) && Housed(db) && Resumes(c, s, d, db)
    ensures GoodDatabase(d, db)
  {
    MirrorRooms(c, d, db, s);
    MirrorMessages(c, d, db, s);
    MirrorRows(c, db, s);
    hide Mirrors, Sound, Owned, GoodRooms, GoodMessages, NulFree, Housed, Resumes, IsValidNickname, IsHex;
  }

  /** The tables a run leaves are tables a server may start from, when the histories and texts survive. */
  lemma {:induction false} TablesStayGood(c: Config, origin: Database, states: seq<Server>, inputs: seq<Input>, n: nat, d: Config)
    requires RunsFrom(c, origin, states, inputs) && n <= |inputs| && Survives(states[n])
    requires ApplyAll(origin, states[n].writes).Some? ==> Resumes(c, states[n], d, ApplyAll(origin, states[n].writes).value)
    ensures var after := ApplyAll(origin, states[n].writes); after.Some? && GoodDatabase(d, after.value)
  {
    RunMirrors(c, origin, states, inputs, n);
    hide GoodDatabase, Load, Sound, Owned, Keyed, Mirrors, GoodConfig, Step, Enabled, ApplyAll, Housed, Survives, Resumes,
      GoodIds;
    ApplyAllHoused(origin, states[n].writes);
    MirrorIsGood(c, d, ApplyAll(origin, states[n].writes).value, states[n]);
  }

  /** One process of the server, from its start to the point where it stops. */
  datatype Life = Life(config: Config, states: seq<Server>, inputs: seq<Input>)

  function End(l: Life): Server
    requires l.states != []
  {
    l.states[|l.states| - 1]
  }

  ghost predicate Lived(l: Life, before: Database, after: Database)
  {
    && GoodConfig(l.config) && l.config.historyLimit <= MAX_HISTORY_PAGE && AllPlainInputs(l.inputs)
    && l.states != [] && IsRun(l.config, l.states, l.inputs)
    && KeyedById(before) && l.states[0] == Load(l.config, before)
    && ApplyAll(before, End(l).writes) == Some(after)
  }

  /** Processes in a row, each on the tables the one before it left, all configured alike. */
  ghost predicate Lives(dbs: seq<Database>, lives: seq<Life>)
  {
    && |dbs| == |lives| + 1
    && (forall n :: 0 <= n < |lives| ==> Lived(lives[n], dbs[n], dbs[n + 1]))
    && (forall n :: 0 <= n < |lives| ==> Begun(dbs, lives, n))
  }

  ghost predicate Begun(dbs: seq<Database>, lives: seq<Life>, n: nat)
    requires |dbs| == |lives| + 1 && n < |lives|
  {
    if n == 0 then GoodDatabase(lives[0].config, dbs[0])
    else lives[n - 1].states != [] && Resumes(lives[n - 1].config, End(lives[n - 1]), lives[n].config, dbs[n])
  }

  lemma LoadsAlike(c: Config, d: Config, db: Database)
    requires KeyedById(db) && d.localNickname == c.localNickname && d.historyLimit == c.historyLimit
    ensures Load(d, db) == Load(c, db)
  {
    hide LoadedRecent, NextIdFrom, Ordered, LoadedBans, LoadedKeys;
    assert LoadedRooms(d, db) == LoadedRooms(c, db);
  }

  /** One restart: the tables are good again, and the new process starts as the old one stopped. */
  lemma RestartOnce(l: Life, m: Life, before: Database, between: Database, after: Database)
    requires GoodDatabase(l.config, before) && Lived(l, before, between) && Lived(m, between, after)
    requires Resumes(l.config, End(l), m.config, between)
    ensures GoodDatabase(m.config, between) && m.states[0] == Rest(End(l))
  {
    ResumesIs(l.config, End(l), m.config, between);
    hide GoodDatabase, GoodConfig, Load, Rest, Step, Enabled, ApplyAll, KeyedById, Survives, Resumes, AllPlainInputs;
    RestartRecoversAll(l.config, before, l.states, l.inputs, |l.inputs|);
    TablesStayGood(l.config, before, l.states, l.inputs, |l.inputs|, m.config);
    LoadsAlike(l.config, m.config, between);
  }

  lemma ResumesIs(c: Config, s: Server, d: Config, db: Database)
    requires Resumes(c, s, d, db)
    ensures d.localNickname == c.localNickname && d.historyLimit == c.historyLimit
  {
    hide GoodConfig, NextStamp, FirstStamp;
  }

  lemma {:induction false} EveryStartGood(dbs: seq<Database>, lives: seq<Life>, n: nat)
    requires Lives(dbs, lives) && n < |lives|
    ensures GoodDatabase(lives[n].config, dbs[n])
  {
    hide GoodDatabase, Rest, Lived, Resumes;
    assert Begun(dbs, lives, n);
    if n > 0 {
      EveryStartGood(dbs, lives, n - 1);
      assert Lived(lives[n - 1], dbs[n - 1], dbs[n - 1 + 1]);
      RestartOnce(lives[n - 1], lives[n], dbs[n - 1], dbs[n], dbs[n + 1]);
    }
  }

  lemma LivedStarts(l: Life, before: Database, after: Database)
    requires Lived(l, before, after)
    ensures l.states != []
  {
    hide GoodConfig, Load, Step, Enabled, ApplyAll, KeyedById, AllPlainInputs;
  }

  /** However often the server is restarted, each process starts with exactly the rooms, next room id,
      bindings, bans and recent texts with which the one before it stopped. */
  lemma {:induction false} EveryRestartRecovers(dbs: seq<Database>, lives: seq<Life>, n: nat)
    requires Lives(dbs, lives) && 0 < n < |lives|
    ensures lives[n - 1].states != [] && lives[n].states != [] && lives[n].states[0] == Rest(End(lives[n - 1]))
  {
    hide GoodDatabase, Rest, Lived, Resumes;
    EveryStartGood(dbs, lives, n - 1);
    assert Begun(dbs, lives, n);
    assert Lived(lives[n - 1], dbs[n - 1], dbs[n - 1 + 1]);
    LivedStarts(lives[n], dbs[n], dbs[n + 1]);
    RestartOnce(lives[n - 1], lives[n], dbs[n - 1], dbs[n], dbs[n + 1]);
  }
}
