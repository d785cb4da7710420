/** What the user list of a room and the room list say, in terms of who is where. */
module Rosters {
  import opened Octets
  import opened Messages
  import opened Ordering
  import opened ServerModel
  import opened ServerStructure

  /** The sessions in a room under a nickname. */
  function Bearers(s: Server, r: RoomId, n: Text): set<SessionId>
  {
    set i | i in s.clients && s.clients[i].activeRoom == r && s.clients[i].nickname == n
  }

  function Occupants(s: Server, r: RoomId): set<SessionId>
  {
    set i | i in s.clients && s.clients[i].activeRoom == r
  }

  predicate IsHostThere(c: Config, s: Server, r: RoomId) { c.localNickname != [] && s.localRoomId == r }

  predicate IsHostName(c: Config, s: Server, r: RoomId, n: Text) { IsHostThere(c, s, r) && c.localNickname == n }

  /** The list names, in order, everyone who is in the room, and no one else: as often as there are
      sessions there under the name. */
  ghost predicate ListsUsers(c: Config, s: Server, r: RoomId, users: seq<Text>)
  {
    && IsSorted(users)
    && (forall n :: n in users <==> n != [] && (Bearers(s, r, n) != {} || IsHostName(c, s, r, n)))
    && (forall n :: n in users ==> multiset(users)[n] == |Bearers(s, r, n)| + if IsHostName(c, s, r, n) then 1 else 0)
    && |users| == |Occupants(s, r)| + if IsHostThere(c, s, r) then 1 else 0
  }

  /** One entry a room, in the order of the ids, with the room's name and how many are there. */
  ghost predicate ListsRooms(c: Config, s: Server, rooms: seq<RoomSummary>)
  {
    && |rooms| == |s.rooms|
    && (forall j, k :: 0 <= j < k < |rooms| ==> rooms[j].id < rooms[k].id)
    && (forall k :: 0 <= k < |rooms| ==>
          && rooms[k].id in s.rooms && rooms[k].name == s.rooms[rooms[k].id].name
          && rooms[k].userCount == |Occupants(s, rooms[k].id)| + if IsHostThere(c, s, rooms[k].id) then 1 else 0)
  }

  // ---- the user list ----

  ghost predicate Distinct(ids: seq<SessionId>) { forall j, k :: 0 <= j < k < |ids| ==> ids[j] != ids[k] }

  /** Those of `ids` with the nickname. */
  function NamedAmong(s: Server, ids: seq<SessionId>, n: Text): set<SessionId> { set i | i in ids && Of(s, i).nickname == n }

  lemma {:induction false} NicknamesStep(s: Server, ids: seq<SessionId>)
    requires ids != []
    ensures var nick := Of(s, ids[0]).nickname;
            Nicknames(s, ids) == (if nick == [] then [] else [nick]) + Nicknames(s, ids[1..])
  {
  }

  lemma {:induction false} NamedAmongStep(s: Server, ids: seq<SessionId>, n: Text)
    requires Distinct(ids) && ids != []
    ensures |NamedAmong(s, ids, n)| == |NamedAmong(s, ids[1..], n)| + if Of(s, ids[0]).nickname == n then 1 else 0
  {
    hide Of;
    assert ids == [ids[0]] + ids[1..];
    if Of(s, ids[0]).nickname == n {
      assert NamedAmong(s, ids, n) == NamedAmong(s, ids[1..], n) + {ids[0]};
    } else {
      assert NamedAmong(s, ids, n) == NamedAmong(s, ids[1..], n);
    }
  }

  lemma {:induction false} NicknamesCount(s: Server, ids: seq<SessionId>, n: Text)
    requires Distinct(ids) && n != []
    ensures multiset(Nicknames(s, ids))[n] == |NamedAmong(s, ids, n)|
  {
    hide Of, Nicknames;
    if ids == [] {
      assert NamedAmong(s, ids, n) == {};
      NoNicknames(s);
    } else {
      var nick := Of(s, ids[0]).nickname;
      hide NamedAmong;
      NicknamesCount(s, ids[1..], n);
      NicknamesStep(s, ids);
      NamedAmongStep(s, ids, n);
      AppendCount(if nick == [] then [] else [nick], Nicknames(s, ids[1..]), n);
    }
  }

  lemma NoNicknames(s: Server)
    ensures Nicknames(s, []) == []
  {
  }

  lemma {:induction false} NicknamesNonEmpty(s: Server, ids: seq<SessionId>)
    ensures [] !in Nicknames(s, ids)
    ensures (forall i :: i in ids ==> Of(s, i).nickname != []) ==> |Nicknames(s, ids)| == |ids|
  {
    if ids != [] {
      NicknamesNonEmpty(s, ids[1..]);
      assert ids == [ids[0]] + ids[1..];
    }
  }

  lemma MembersOf(s: Server, r: RoomId)
    requires Seats(s) && r in s.rooms
    ensures s.rooms[r].members == Occupants(s, r)
  {
    assert r != 0;
    forall i ensures i in s.rooms[r].members <==> i in Occupants(s, r) {
    }
  }

  lemma OccupantsNamed(c: Config, s: Server, r: RoomId)
    requires Handles(s) && r != 0
    ensures forall i :: i in Occupants(s, r) ==> Of(s, i).nickname != []
  {
    hide IsValidNickname;
  }

  lemma WithIs(s: Server, r: RoomId, n: Text)
    requires Seats(s) && r in s.rooms
    ensures NamedAmong(s, Ordered(s.rooms[r].members), n) == Bearers(s, r, n)
  {
    MembersOf(s, r);
    hide Seats;
  }

  /** The names before sorting. */
  ghost function Unsorted(c: Config, s: Server, r: RoomId): seq<Text>
  {
    Nicknames(s, Ordered(RoomOf(s, r).members)) + if HasHost(c, s, r) then [c.localNickname] else []
  }

  lemma {:induction false} AppendCount(names: seq<Text>, more: seq<Text>, n: Text)
    ensures multiset(names + more)[n] == multiset(names)[n] + multiset(more)[n]
  {
  }

  lemma UnsortedCount(c: Config, s: Server, r: RoomId, n: Text)
    requires Seats(s) && r in s.rooms && n != []
    ensures multiset(Unsorted(c, s, r))[n] == |Bearers(s, r, n)| + if IsHostName(c, s, r, n) then 1 else 0
  {
    hide Seats, Ordered, NamedAmong, Bearers, Nicknames;
    var ids := Ordered(s.rooms[r].members);
    OrderedAscends(s.rooms[r].members);
    NicknamesCount(s, ids, n);
    WithIs(s, r, n);
    var host: seq<Text> := if HasHost(c, s, r) then [c.localNickname] else [];
    AppendCount(Nicknames(s, ids), host, n);
  }

  lemma UnsortedLength(c: Config, s: Server, r: RoomId)
    requires Seats(s) && Handles(s) && r in s.rooms
    ensures |Unsorted(c, s, r)| == |Occupants(s, r)| + if IsHostThere(c, s, r) then 1 else 0
    ensures [] !in Unsorted(c, s, r)
  {
    assert r != 0;
    hide Seats, Handles, Ordered, Nicknames;
    var ids := Ordered(s.rooms[r].members);
    MembersOf(s, r);
    OccupantsNamed(c, s, r);
    NicknamesNonEmpty(s, ids);
  }

  lemma {:induction false} SortKeeps(names: seq<Text>)
    ensures IsSorted(Sort(names)) && |Sort(names)| == |names|
    ensures forall n :: multiset(Sort(names))[n] == multiset(names)[n]
    ensures forall n :: n in Sort(names) <==> multiset(names)[n] > 0
  {
    hide Sort;
    SortSorts(names);
    assert |multiset(Sort(names))| == |Sort(names)| && |multiset(names)| == |names|;
    forall n ensures n in Sort(names) <==> multiset(names)[n] > 0 {
      assert n in Sort(names) <==> n in multiset(Sort(names));
    }
  }

  /** How often a name is listed. */
  lemma UserCount(c: Config, s: Server, r: RoomId, n: Text)
    requires Seats(s) && Handles(s) && r in s.rooms
    ensures multiset(UserNames(c, s, r))[n] == if n == [] then 0 else |Bearers(s, r, n)| + if IsHostName(c, s, r, n) then 1 else 0
    ensures n in UserNames(c, s, r) <==> n != [] && (Bearers(s, r, n) != {} || IsHostName(c, s, r, n))
  {
    var names := Unsorted(c, s, r);
    assert UserNames(c, s, r) == Sort(names);
    hide Seats, Handles, Unsorted, UserNames, Sort, Bearers, Occupants, IsHostName;
    SortKeeps(names);
    UnsortedLength(c, s, r);
    if n != [] { UnsortedCount(c, s, r, n); }
  }

  /** The users of a room are those who are there. */
  lemma UserListIs(c: Config, s: Server, r: RoomId)
    requires Seats(s) && Handles(s) && r in s.rooms
    ensures ListsUsers(c, s, r, UserNames(c, s, r))
  {
    assert UserNames(c, s, r) == Sort(Unsorted(c, s, r));
    hide Seats, Handles, Unsorted, UserNames, Sort, Bearers, Occupants, IsHostName;
    SortKeeps(Unsorted(c, s, r));
    UnsortedLength(c, s, r);
    forall n
      ensures n in UserNames(c, s, r) <==> n != [] && (Bearers(s, r, n) != {} || IsHostName(c, s, r, n))
      ensures n in UserNames(c, s, r) ==>
                multiset(UserNames(c, s, r))[n] == |Bearers(s, r, n)| + if IsHostName(c, s, r, n) then 1 else 0
    {
      UserCount(c, s, r, n);
    }
  }

  /** And there is only one such list. */
  lemma {:induction false} OnlyOneUserList(c: Config, s: Server, r: RoomId, a: seq<Text>, b: seq<Text>)
    requires ListsUsers(c, s, r, a) && ListsUsers(c, s, r, b)
    ensures a == b
  {
    hide IsSorted, Bearers, Occupants, IsHostName;
    forall n ensures multiset(a)[n] == multiset(b)[n] {
      assert n in a <==> n in multiset(a);
      assert n in b <==> n in multiset(b);
    }
    SortedUnique(a, b);
  }

  // ---- the room list ----

  lemma RoomListIs(c: Config, s: Server)
    requires Seats(s)
    ensures ListsRooms(c, s, RoomSummaries(c, s))
  {
    hide Seats, Ordered;
    var ids := Ordered(s.rooms.Keys);
    OrderedAscends(s.rooms.Keys);
    assert |s.rooms.Keys| == |s.rooms|;
    forall k | 0 <= k < |ids| ensures ids[k] in s.rooms && |s.rooms[ids[k]].members| == |Occupants(s, ids[k])| {
      assert ids[k] in ids;
      MembersOf(s, ids[k]);
    }
  }
}
