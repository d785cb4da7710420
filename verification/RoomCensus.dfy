/** The room list counts every seated session once, and always fits a frame. */
module RoomCensus {
  import opened Octets
  import opened Base64
  import opened Messages
  import opened Ordering
  import opened Tables
  import opened ServerModel
  import opened ServerStructure
  import opened ServerSafety
  import opened ServerReach
  import S = ServerGrammar
  import F = Frames

  // ---- counting ----

  function TotalUsers(rooms: seq<RoomSummary>): nat
  {
    if rooms == [] then 0 else rooms[0].userCount + TotalUsers(rooms[1..])
  }

  /** The sessions active in one of the rooms. */
  function SeatedIn(s: Server, rooms: set<RoomId>): set<SessionId>
  {
    set i | i in s.clients && s.clients[i].activeRoom in rooms
  }

  function Seated(s: Server): set<SessionId> { set i | i in s.clients && s.clients[i].activeRoom != 0 }

  ghost function SummariesOf(c: Config, s: Server, ids: seq<RoomId>): seq<RoomSummary>
  {
    seq(|ids|, i requires 0 <= i < |ids| => Summary(c, s, ids[i]))
  }

  lemma MembersAreSeated(s: Server, r: RoomId)
    requires Seats(s) && r in s.rooms
    ensures s.rooms[r].members == SeatedIn(s, {r})
  {
    forall i ensures i in s.rooms[r].members <==> i in SeatedIn(s, {r}) {
      if i in s.clients && s.clients[i].activeRoom == r { assert r != 0; }
    }
  }

  lemma SeatedSplits(s: Server, m: RoomId, rest: set<RoomId>)
    requires m in rest
    ensures |SeatedIn(s, rest)| == |SeatedIn(s, {m})| + |SeatedIn(s, rest - {m})|
  {
    assert SeatedIn(s, rest) == SeatedIn(s, {m}) + SeatedIn(s, rest - {m});
    assert SeatedIn(s, {m}) !! SeatedIn(s, rest - {m});
  }

  lemma {:induction false} SummariesSplit(c: Config, s: Server, m: RoomId, tail: seq<RoomId>)
    ensures TotalUsers(SummariesOf(c, s, [m] + tail)) == Summary(c, s, m).userCount + TotalUsers(SummariesOf(c, s, tail))
  {
    var all := SummariesOf(c, s, [m] + tail);
    assert all[0] == Summary(c, s, m);
    assert all[1..] == SummariesOf(c, s, tail);
  }

  /** The rooms in `rest` hold the sessions seated in them, and the host if placed there. */
  lemma {:induction false} CountedOnce(c: Config, s: Server, rest: set<RoomId>)
    requires Seats(s) && rest <= s.rooms.Keys
    ensures TotalUsers(SummariesOf(c, s, Ordered(rest)))
         == |SeatedIn(s, rest)| + if c.localNickname != [] && s.localRoomId in rest then 1 else 0
    decreases |rest|
  {
    if rest == {} {
      assert SeatedIn(s, rest) == {};
    } else {
      hide Seats, SeatedIn, SummariesOf, Ordered;
      LeastExists(rest);
      var m :| IsLeast(m, rest);
      OrderedOf(m, rest);
      CountedOnce(c, s, rest - {m});
      MembersAreSeated(s, m);
      SeatedSplits(s, m, rest);
      SummariesSplit(c, s, m, Ordered(rest - {m}));
    }
  }

  /** The user counts of the room list add up to the sessions in rooms, and one for a placed host. */
  lemma CensusIsExact(c: Config, s: Server)
    requires Sound(c, s)
    ensures TotalUsers(RoomSummaries(c, s))
         == |Seated(s)| + if c.localNickname != [] && s.localRoomId != 0 then 1 else 0
  {
    hide DistinctNames, Handles, Ordered, IsValidRoomName, IsValidRoomTopic, Lower;
    CountedOnce(c, s, s.rooms.Keys);
    assert SeatedIn(s, s.rooms.Keys) == Seated(s);
    assert RoomSummaries(c, s) == SummariesOf(c, s, Ordered(s.rooms.Keys));
  }

  /** In every reachable state, a session is a member of a room exactly when the room is its active
      one, so it is a member of at most one. */
  lemma {:induction false} MemberExactlyWhereActive(c: Config, states: seq<Server>, inputs: seq<Input>, n: nat, i: SessionId,
                                                    r: RoomId)
    requires IsRun(c, states, inputs) && Sound(c, states[0]) && n <= |inputs| && r != 0
    ensures var s := states[n];
      && (i in RoomOf(s, r).members <==> i in s.clients && s.clients[i].activeRoom == r)
      && (i in RoomOf(s, r).members ==> forall q :: q != r ==> i !in RoomOf(s, q).members)
  {
    hide Step, Enabled, DistinctNames, Handles, RoomTable;
    RunSound(c, states, inputs, n);
  }

  lemma ReseatSeated(s: Server, i: SessionId, target: RoomId)
    requires i in s.clients && target in s.rooms && target != 0 && s.clients[i].activeRoom != 0
    ensures Seated(Reseat(s, i, target)) == Seated(s)
  {
    hide Reseat;
    ReseatFields(s, i, target);
  }

  /** Moving a session that is already in a room to another leaves the seated sessions as they were. */
  lemma MovePreservesTotal(c: Config, s: Server, i: SessionId, target: RoomId, announce: bool)
    requires Sound(c, s) && i in s.clients && target in s.rooms && s.clients[i].activeRoom != 0
    ensures Seated(MoveSession(c, s, i, target, announce)) == Seated(s)
  {
    assert target != 0;
    hide Sound, Core, MoveSession, Reseat, Seated;
    ReseatSeated(s, i, target);
    MoveSessionCore(c, s, i, target, announce);
    SeatedOfCore(Reseat(s, i, target), MoveSession(c, s, i, target, announce));
  }

  lemma SeatedOfCore(s: Server, t: Server)
    requires Core(s) == Core(t)
    ensures Seated(s) == Seated(t)
  {
    hide Core, SameNicknames, SameTable, SameHandles;
    SameOfCore(s, t);
  }

  // ---- the frame of the room list ----

  lemma {:induction false} SeatedAtMost(s: Server, rooms: set<RoomId>)
    ensures |SeatedIn(s, rooms)| <= |s.clients|
  {
    Subsets(SeatedIn(s, rooms), s.clients.Keys);
    assert |s.clients| == |s.clients.Keys|;
  }

  lemma {:induction false} Subsets(a: set<nat>, b: set<nat>)
    requires a <= b
    ensures |a| <= |b|
    decreases |a|
  {
    if a != {} {
      var x :| x in a;
      Subsets(a - {x}, b - {x});
    }
  }

  lemma SummariesWellFormed(c: Config, s: Server)
    requires Sound(c, s) && |s.clients| < MAX_U64
    ensures ServerWellFormed(RoomList(RoomSummaries(c, s)))
  {
    hide DistinctNames, Handles, Ordered, IsValidRoomName, IsValidRoomTopic, Lower;
    var ids := Ordered(s.rooms.Keys);
    assert |s.rooms.Keys| == |s.rooms|;
    forall k | 0 <= k < |ids| ensures SummaryWellFormed(Summary(c, s, ids[k])) {
      assert ids[k] in ids;
      MembersAreSeated(s, ids[k]);
      SeatedAtMost(s, {ids[k]});
    }
  }

  /** The room list prints in at most 2405 octets, so it always has a frame, and the frame decodes
      to it. */
  lemma RoomListAlwaysFits(c: Config, s: Server)
    requires Sound(c, s) && |s.clients| < MAX_U64
    ensures var m := RoomList(RoomSummaries(c, s));
      && |S.Serialize(m)| <= 2405
      && F.EncodeServerFrame(m).Ok?
      && F.DecodeServerFrame(F.EncodeServerFrame(m).value) == Ok(m)
  {
    hide Sound, RoomSummaries, S.Serialize, S.Parse, F.EncodeServerFrame, F.DecodeServerFrame;
    SummariesWellFormed(c, s);
    S.RoomListLength(RoomSummaries(c, s));
    F.ServerFrameRoundTrip(RoomList(RoomSummaries(c, s)));
  }

  /** In every reachable state: the census, and the room list's frame. */
  lemma {:induction false} EveryRoomListFits(c: Config, states: seq<Server>, inputs: seq<Input>, n: nat)
    requires IsRun(c, states, inputs) && Sound(c, states[0]) && n <= |inputs| && |states[n].clients| < MAX_U64
    ensures var m := RoomList(RoomSummaries(c, states[n]));
      && TotalUsers(m.rooms) == |Seated(states[n])|
           + (if c.localNickname != [] && states[n].localRoomId != 0 then 1 else 0)
      && |S.Serialize(m)| <= 2405 && F.EncodeServerFrame(m).Ok?
  {
    hide Sound, RoomSummaries, S.Serialize, S.Parse, F.EncodeServerFrame, F.DecodeServerFrame, Step, Enabled;
    RunSound(c, states, inputs, n);
    CensusIsExact(c, states[n]);
    RoomListAlwaysFits(c, states[n]);
  }
}
