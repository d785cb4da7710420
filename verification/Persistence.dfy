/** What the stored tables say when every write has been applied: the same rooms, recent texts,
    bindings and bans as the running server. */
module Persistence {
  import opened Octets
  import opened Messages
  import opened Tables
  import opened History
  import opened ServerModel
  import opened ServerActions

  // ---- the part of the state that is stored ----

  function Unmanned(room: Room): Room { room.(members := {}) }

  function UnmannedRooms(rooms: map<RoomId, Room>): (bare: map<RoomId, Room>)
    ensures bare.Keys == rooms.Keys
    ensures forall r :: r in rooms ==> bare[r] == Unmanned(rooms[r])
  {
    map r | r in rooms :: Unmanned(rooms[r])
  }

  /** The same but for sessions, seats and the host's place. */
  ghost predicate SameRecord(s: Server, t: Server)
  {
    && t.rooms.Keys == s.rooms.Keys && t.nextRoomId == s.nextRoomId && t.bans == s.bans
    && t.identities == s.identities && t.writes == s.writes && t.stored == s.stored && t.lastStamp == s.lastStamp
    && forall r :: r in s.rooms ==> Unmanned(t.rooms[r]) == Unmanned(s.rooms[r])
  }

  // ---- recent texts ----

  function Bodies(rows: seq<StoredMessage>): seq<Text>
  {
    seq(|rows|, i requires 0 <= i < |rows| => rows[i].body)
  }

  function Reverse<T>(q: seq<T>): (r: seq<T>)
    ensures |r| == |q|
    ensures forall i :: 0 <= i < |q| ==> r[i] == q[|q| - 1 - i]
  {
    if q == [] then [] else Reverse(q[1..]) + [q[0]]
  }

  /** The last `limit` texts of a room's log, oldest first. */
  ghost function Recent(db: Database, r: RoomId, limit: nat): seq<Text>
    requires KeyedById(db)
  {
    Reverse(Bodies(UpTo(Older(db, r, None), limit)))
  }

  /** Storing a newer text of the room adds it at the end, and drops the first beyond the limit. */
  lemma {:induction false} RecentGrows(q: seq<StoredMessage>, m: StoredMessage, limit: nat)
    requires limit >= 1
    ensures Reverse(Bodies(UpTo([m] + q, limit))) == Bounded(Reverse(Bodies(UpTo(q, limit))) + [m.body], limit)
  {
    var a, b := Bodies(UpTo([m] + q, limit)), Bodies(UpTo(q, limit));
    if |q| < limit {
      assert a == [m.body] + b;
    } else {
      assert a == [m.body] + b[..limit - 1];
    }
  }

  // ---- the mirror ----

  ghost predicate Mirrors(c: Config, db: Database, s: Server)
  {
    && KeyedById(db)
    && db.rooms.Keys == s.rooms.Keys
    && (forall r :: r in s.rooms ==> db.rooms[r] == RoomRow(s.rooms[r]))
    && db.identities == s.identities && db.bans.Keys == s.bans
    && (forall id :: id in db.messages ==> db.messages[id].sentAt < NextStamp(c, s))
    && (forall k: nat :: k >= s.stored ==> c.freshId(k) !in db.messages)
    && (forall r :: r in s.rooms ==> s.rooms[r].recent == Recent(db, r, c.historyLimit))
  }

  /** Every write of the run so far applies, and the tables they leave mirror the server. */
  ghost predicate Mirror(c: Config, origin: Database, s: Server)
  {
    var db := ApplyAll(origin, s.writes);
    db.Some? && Mirrors(c, db.value, s)
  }

  ghost predicate GoodIds(c: Config) { forall j: nat, k: nat :: c.freshId(j) == c.freshId(k) ==> j == k }

  lemma UnmannedKeeps(a: Room, b: Room)
    requires Unmanned(a) == Unmanned(b)
    ensures RoomRow(a) == RoomRow(b) && a.recent == b.recent
  {
    assert Unmanned(a).name == a.name && Unmanned(a).topic == a.topic && Unmanned(a).owner == a.owner;
    assert Unmanned(a).recent == a.recent;
  }

  lemma MirrorSame(c: Config, origin: Database, s: Server, t: Server)
    requires SameRecord(s, t) && Mirror(c, origin, s)
    ensures Mirror(c, origin, t)
  {
    hide ApplyAll, RoomRow, Recent, Unmanned;
    forall r | r in s.rooms ensures RoomRow(t.rooms[r]) == RoomRow(s.rooms[r]) && t.rooms[r].recent == s.rooms[r].recent {
      UnmannedKeeps(t.rooms[r], s.rooms[r]);
    }
  }

  lemma SameRecordTransitive(s: Server, t: Server, u: Server)
    requires SameRecord(s, t) && SameRecord(t, u)
    ensures SameRecord(s, u)
  {
    hide Unmanned;
  }

  // ---- writes ----

  lemma {:induction false} ApplyOne(origin: Database, ws: seq<Write>, w: Write)
    requires ApplyAll(origin, ws).Some?
    ensures ApplyAll(origin, ws + [w]) == Apply(ApplyAll(origin, ws).value, w)
  {
    assert (ws + [w])[..|ws|] == ws;
  }

  lemma NewerRow(db: Database, r: RoomId, m: StoredMessage)
    requires KeyedById(db) && m.id !in db.messages && m.roomId == r
    requires forall id :: id in db.messages ==> db.messages[id].sentAt < m.sentAt
    ensures var after := db.(messages := db.messages[m.id := m]);
            KeyedById(after) && Older(after, r, None) == [m] + Older(db, r, None)
  {
    var after := db.(messages := db.messages[m.id := m]);
    var rows := RowsBefore(after, r, None);
    RowsDistinct(after, r, None);
    RowsDistinct(db, r, None);
    RowsAfter(db, r, m);
    assert IsNewest(m, rows);
    hide Descending;
    DescendingOf(m, rows);
  }

  lemma RowsAfter(db: Database, r: RoomId, m: StoredMessage)
    requires KeyedById(db) && m.id !in db.messages
    ensures var after := db.(messages := db.messages[m.id := m]);
      && (m.roomId == r ==> RowsBefore(after, r, None) == RowsBefore(db, r, None) + {m} && m !in RowsBefore(db, r, None))
      && (m.roomId != r ==> RowsBefore(after, r, None) == RowsBefore(db, r, None))
      && (m.roomId == r ==> forall x :: x in RowsBefore(db, r, None) ==> x.id in db.messages && db.messages[x.id] == x)
  {
    var after := db.(messages := db.messages[m.id := m]);
    forall x ensures x in RowsOf(after, r) <==> x in RowsOf(db, r) || (m.roomId == r && x == m) {
      if x in RowsOf(db, r) {
        assert after.messages[x.id] == x;
      }
      if m.roomId == r && x == m { assert after.messages[m.id] == m; }
    }
  }

  lemma OtherRow(db: Database, r: RoomId, m: StoredMessage)
    requires KeyedById(db) && m.id !in db.messages && m.roomId != r
    ensures var after := db.(messages := db.messages[m.id := m]);
            KeyedById(after) && Older(after, r, None) == Older(db, r, None)
  {
    RowsAfter(db, r, m);
    hide Descending;
  }

  /** One stored text: the tables after the write mirror the server after the broadcast. */
  lemma SaidMirrors(c: Config, db: Database, s: Server, r: RoomId, text: Text, nick: Text)
    requires Mirrors(c, db, s) && GoodIds(c) && c.historyLimit >= 1 && r in s.rooms
    ensures var m := StoredMessage(c.freshId(s.stored), r, nick, text, NextStamp(c, s));
      && Apply(db, MessageWrite(m)) == Some(db.(messages := db.messages[m.id := m]))
      && Mirrors(c, db.(messages := db.messages[m.id := m]), BroadcastRoom(c, s, r, text, nick))
  {
    var m := StoredMessage(c.freshId(s.stored), r, nick, text, NextStamp(c, s));
    SaidFields(c, s, r, text, nick);
    StampsGrow(c, s, BroadcastRoom(c, s, r, text, nick));
    hide Mirrors, BroadcastRoom, NextStamp;
    MirrorsAfter(c, db, s, m, BroadcastRoom(c, s, r, text, nick));
  }

  lemma MirrorsAfter(c: Config, db: Database, s: Server, m: StoredMessage, t: Server)
    requires Mirrors(c, db, s) && GoodIds(c) && c.historyLimit >= 1 && m.roomId in s.rooms
    requires m.id == c.freshId(s.stored) && m.sentAt == NextStamp(c, s)
    requires t.rooms == s.rooms[m.roomId := s.rooms[m.roomId].(recent := Bounded(s.rooms[m.roomId].recent + [m.body], c.historyLimit))]
    requires t.stored == s.stored + 1 && NextStamp(c, s) < NextStamp(c, t)
    requires t.identities == s.identities && t.bans == s.bans
    ensures Apply(db, MessageWrite(m)) == Some(db.(messages := db.messages[m.id := m]))
    ensures Mirrors(c, db.(messages := db.messages[m.id := m]), t)
  {
    hide Recent, NextStamp, Bounded;
    var after := db.(messages := db.messages[m.id := m]);
    forall q | q in s.rooms ensures t.rooms[q].recent == Recent(after, q, c.historyLimit) {
      RecentAfter(c, db, s, m.roomId, m, q);
    }
  }

  lemma SaidFields(c: Config, s: Server, r: RoomId, text: Text, nick: Text)
    requires r in s.rooms
    ensures var t := BroadcastRoom(c, s, r, text, nick);
      && t.writes == s.writes + [MessageWrite(StoredMessage(c.freshId(s.stored), r, nick, text, NextStamp(c, s)))]
      && t.rooms == s.rooms[r := s.rooms[r].(recent := Bounded(s.rooms[r].recent + [text], c.historyLimit))]
      && t.stored == s.stored + 1 && t.lastStamp == NextStamp(c, s)
      && t.identities == s.identities && t.bans == s.bans && t.nextRoomId == s.nextRoomId
  {
    hide Bounded, PostAll;
  }

  lemma StampsGrow(c: Config, s: Server, t: Server)
    requires t.lastStamp == NextStamp(c, s)
    ensures NextStamp(c, s) < NextStamp(c, t)
  {
  }

  lemma RecentAfter(c: Config, db: Database, s: Server, r: RoomId, m: StoredMessage, q: RoomId)
    requires Mirrors(c, db, s) && c.historyLimit >= 1 && r in s.rooms && q in s.rooms
    requires m.id !in db.messages && m.roomId == r && m.sentAt == NextStamp(c, s)
    ensures var after := db.(messages := db.messages[m.id := m]);
      && KeyedById(after)
      && Recent(after, q, c.historyLimit) ==
           if q == r then Bounded(s.rooms[q].recent + [m.body], c.historyLimit) else s.rooms[q].recent
  {
    hide NextStamp, RoomRow;
    if q == r {
      NewerRow(db, r, m);
      RecentGrows(Older(db, r, None), m, c.historyLimit);
    } else {
      OtherRow(db, q, m);
    }
  }

  lemma SaidMirror(c: Config, origin: Database, s: Server, r: RoomId, text: Text, nick: Text)
    requires Mirror(c, origin, s) && GoodIds(c) && c.historyLimit >= 1
    ensures Mirror(c, origin, BroadcastRoom(c, s, r, text, nick))
  {
    if r in s.rooms {
      SaidFields(c, s, r, text, nick);
      hide Mirrors, ApplyAll, Apply, BroadcastRoom, NextStamp, Bounded, Written;
      var db, m := ApplyAll(origin, s.writes).value, StoredMessage(c.freshId(s.stored), r, nick, text, NextStamp(c, s));
      SaidMirrors(c, db, s, r, text, nick);
      ApplyOne(origin, s.writes, MessageWrite(m));
    }
  }

  /** Tables and server change together in one room's row. */
  lemma RowMirrors(c: Config, db: Database, s: Server, t: Server, after: Database, r: RoomId)
    requires Mirrors(c, db, s)
    requires t.rooms.Keys == s.rooms.Keys + {r}
    requires after == db.(rooms := db.rooms[r := RoomRow(t.rooms[r])])
    requires t.identities == s.identities && t.bans == s.bans
    requires t.stored == s.stored && t.lastStamp == s.lastStamp
    requires forall q :: q in s.rooms && q != r ==> t.rooms[q] == s.rooms[q]
    requires t.rooms[r].recent == if r in s.rooms then s.rooms[r].recent else []
    requires r !in s.rooms ==> forall id :: id in db.messages ==> db.messages[id].roomId != r
    ensures Mirrors(c, after, t)
  {
    hide RoomRow, Recent;
    forall q | q in t.rooms ensures t.rooms[q].recent == Recent(after, q, c.historyLimit) {
      RecentOfMessages(db, after, q, c.historyLimit);
      if q !in s.rooms { RecentOfNone(db, q, c.historyLimit); }
    }
  }

  lemma RecentOfMessages(db: Database, after: Database, q: RoomId, limit: nat)
    requires KeyedById(db) && after.messages == db.messages
    ensures KeyedById(after) && Recent(after, q, limit) == Recent(db, q, limit)
  {
    assert RowsBefore(after, q, None) == RowsBefore(db, q, None);
    hide Descending;
  }

  lemma RecentOfNone(db: Database, q: RoomId, limit: nat)
    requires KeyedById(db) && forall id :: id in db.messages ==> db.messages[id].roomId != q
    ensures Recent(db, q, limit) == []
  {
    hide Descending;
    assert RowsBefore(db, q, None) == {};
    assert Older(db, q, None) == [];
  }

  /** Tables and server change together in bindings or bans. */
  lemma LedgerMirrors(c: Config, db: Database, s: Server, t: Server, after: Database)
    requires Mirrors(c, db, s)
    requires after.rooms == db.rooms && after.messages == db.messages
    requires after.identities == t.identities && after.bans.Keys == t.bans
    requires t.rooms == s.rooms && t.stored == s.stored && t.lastStamp == s.lastStamp
    ensures Mirrors(c, after, t)
  {
    hide RoomRow, Recent;
    forall q | q in t.rooms ensures t.rooms[q].recent == Recent(after, q, c.historyLimit) {
      RecentOfMessages(db, after, q, c.historyLimit);
    }
  }

  // ---- stored messages belong to rooms ----

  ghost predicate Housed(db: Database) { forall id :: id in db.messages ==> db.messages[id].roomId in db.rooms }

  lemma {:induction false} ApplyAllHoused(origin: Database, ws: seq<Write>)
    requires Housed(origin) && ApplyAll(origin, ws).Some?
    ensures Housed(ApplyAll(origin, ws).value)
  {
    if ws != [] { ApplyAllHoused(origin, ws[..|ws| - 1]); }
  }

  // ---- each kind of write ----

  lemma FoundMirror(c: Config, origin: Database, s: Server, name: Text, owner: Text)
    requires Mirror(c, origin, s) && Housed(origin) && s.nextRoomId !in s.rooms && !NameExists(s, name)
    ensures Mirror(c, origin, AddRoom(s, name, owner))
  {
    var r, t := s.nextRoomId, AddRoom(s, name, owner);
    var db := ApplyAll(origin, s.writes).value;
    ApplyAllHoused(origin, s.writes);
    ApplyOne(origin, s.writes, RoomWrite(r, RoomRow(t.rooms[r])));
    forall q | q in db.rooms ensures Lower(db.rooms[q].name) != Lower(name) {
      assert !IsMatch(s, name, q);
    }
    hide Mirrors, ApplyAll, Lower;
    assert Apply(db, RoomWrite(r, RoomRow(t.rooms[r]))) == Some(db.(rooms := db.rooms[r := RoomRow(t.rooms[r])]));
    RoomsOfMirror(c, db, s);
    RowMirrors(c, db, s, t, db.(rooms := db.rooms[r := RoomRow(t.rooms[r])]), r);
  }

  lemma RoomsOfMirror(c: Config, db: Database, s: Server)
    requires Mirrors(c, db, s)
    ensures db.rooms.Keys == s.rooms.Keys
  {
  }

  lemma TopicMirror(c: Config, origin: Database, s: Server, r: RoomId, topic: Text)
    requires Mirror(c, origin, s) && r in s.rooms
    ensures Mirror(c, origin, Written(WithRoom(s, r, s.rooms[r].(topic := topic)), TopicWrite(r, topic)))
  {
    var t := Written(WithRoom(s, r, s.rooms[r].(topic := topic)), TopicWrite(r, topic));
    var db := ApplyAll(origin, s.writes).value;
    ApplyOne(origin, s.writes, TopicWrite(r, topic));
    assert db.rooms[r].(topic := topic) == RoomRow(t.rooms[r]);
    hide Mirrors, ApplyAll;
    RoomsOfMirror(c, db, s);
    RowMirrors(c, db, s, t, db.(rooms := db.rooms[r := RoomRow(t.rooms[r])]), r);
  }

  lemma BindMirror(c: Config, origin: Database, s: Server, nick: Text, key: Text)
    requires Mirror(c, origin, s)
    ensures Mirror(c, origin, Bind(s, nick, key))
  {
    if nick !in s.identities {
      var db, t := ApplyAll(origin, s.writes).value, Bind(s, nick, key);
      ApplyOne(origin, s.writes, IdentityWrite(nick, key));
      assert db.identities == s.identities && db.bans.Keys == s.bans;
      hide Mirrors, ApplyAll;
      LedgerMirrors(c, db, s, t, db.(identities := db.identities[nick := key]));
    }
  }

  lemma BanMirror(c: Config, origin: Database, s: Server, nick: Text, reason: Text)
    requires Mirror(c, origin, s)
    ensures Mirror(c, origin, BanStored(s, nick, reason))
  {
    var db, t := ApplyAll(origin, s.writes).value, BanStored(s, nick, reason);
    ApplyOne(origin, s.writes, BanWrite(nick, reason));
    assert db.identities == s.identities && db.bans.Keys == s.bans;
    hide Mirrors, ApplyAll;
    LedgerMirrors(c, db, s, t, db.(bans := db.bans[nick := reason]));
  }

  lemma UnbanMirror(c: Config, origin: Database, s: Server, nick: Text)
    requires Mirror(c, origin, s)
    ensures Mirror(c, origin, Unban(s, nick))
  {
    if nick in s.bans {
      var db, t := ApplyAll(origin, s.writes).value, Unban(s, nick);
      ApplyOne(origin, s.writes, BanRemove(nick));
      assert db.identities == s.identities && db.bans.Keys == s.bans;
      hide Mirrors, ApplyAll;
      LedgerMirrors(c, db, s, t, db.(bans := db.bans - {nick}));
    }
  }
}
