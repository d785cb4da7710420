/** The SQLite tables of the server, the writes applied to them, and the queries that read them. */
module Tables {
  import opened Octets
  import opened Messages

  datatype StoredRoom = StoredRoom(name: Text, topic: Text, owner: Text)

  datatype StoredMessage = StoredMessage(id: Text, roomId: RoomId, nickname: Text, body: Text, sentAt: int)

  datatype Write =
    | RoomWrite(roomId: RoomId, room: StoredRoom)
    | TopicWrite(roomId: RoomId, topic: Text)
    | IdentityWrite(nickname: Text, publicKey: Text)
    | BanWrite(nickname: Text, reason: Text)
    | BanRemove(nickname: Text)
    | MessageWrite(message: StoredMessage)

  /** The four tables, each keyed by its primary key. */
  datatype Database = Database(
    rooms: map<RoomId, StoredRoom>,
    identities: map<Text, Text>,
    bans: map<Text, Text>,
    messages: map<Text, StoredMessage>)

  function Lower(t: Text): Text { seq(|t|, i requires 0 <= i < |t| => ToLower(t[i])) }

  /** `execute_write`. It fails when a constraint is violated: room names are unique ignoring
      case, and a stored message must belong to a stored room. A message whose id is already
      stored is ignored. */
  function Apply(db: Database, w: Write): Option<Database>
  {
    match w
    case RoomWrite(id, room) =>
      if exists other :: other in db.rooms && other != id && Lower(db.rooms[other].name) == Lower(room.name)
      then None
      else Some(db.(rooms := db.rooms[id := room]))
    case TopicWrite(id, topic) =>
      if id in db.rooms then Some(db.(rooms := db.rooms[id := db.rooms[id].(topic := topic)])) else Some(db)
    case IdentityWrite(nickname, key) => Some(db.(identities := db.identities[nickname := key]))
    case BanWrite(nickname, reason) => Some(db.(bans := db.bans[nickname := reason]))
    case BanRemove(nickname) => Some(db.(bans := db.bans - {nickname}))
    case MessageWrite(m) =>
      if m.id in db.messages then Some(db)
      else if m.roomId !in db.rooms then None
      else Some(db.(messages := db.messages[m.id := m]))
  }

  function ApplyAll(db: Database, ws: seq<Write>): Option<Database>
  {
    if ws == [] then Some(db)
    else
      var n := |ws| - 1;
      match ApplyAll(db, ws[..n])
      case None => None
      case Some(before) => Apply(before, ws[n])
  }

  lemma {:induction false} ApplyAllAppend(db: Database, a: seq<Write>, b: seq<Write>)
    requires ApplyAll(db, a).Some?
    ensures ApplyAll(db, a + b) == ApplyAll(ApplyAll(db, a).value, b)
  {
    if b == [] {
      assert a + b == a;
    } else {
      var n := |b| - 1;
      ApplyAllAppend(db, a, b[..n]);
      assert (a + b)[..|a + b| - 1] == a + b[..n];
    }
  }

  ghost predicate KeyedById(db: Database)
  {
    forall id :: id in db.messages ==> db.messages[id].id == id
  }

  // ---- rows, newest first ----

  datatype Cursor = Cursor(sentAt: int, id: Text)

  function KeyOf(m: StoredMessage): Cursor { Cursor(m.sentAt, m.id) }

  predicate Below(a: Cursor, b: Cursor)
  {
    a.sentAt < b.sentAt || (a.sentAt == b.sentAt && LexLess(a.id, b.id))
  }

  lemma BelowTransitive(a: Cursor, b: Cursor, c: Cursor)
    requires Below(a, b) && Below(b, c)
    ensures Below(a, c)
  {
    if a.sentAt == b.sentAt == c.sentAt { LexTransitive(a.id, b.id, c.id); }
  }

  lemma BelowIrreflexive(a: Cursor)
    ensures !Below(a, a)
  {
    LexIrreflexive(a.id);
  }

  ghost predicate DistinctIds(rows: set<StoredMessage>)
  {
    forall a, b :: a in rows && b in rows && a.id == b.id ==> a == b
  }

  ghost predicate IsNewest(top: StoredMessage, rows: set<StoredMessage>)
  {
    top in rows && forall m :: m in rows && m != top ==> Below(KeyOf(m), KeyOf(top))
  }

  lemma {:induction false} NewestExists(rows: set<StoredMessage>) returns (top: StoredMessage)
    requires rows != {} && DistinctIds(rows)
    ensures IsNewest(top, rows)
    decreases |rows|
  {
    var m :| m in rows;
    var rest := rows - {m};
    assert forall x :: x in rows ==> x == m || x in rest;
    if rest == {} {
      top := m;
    } else {
      top := NewestExists(rest);
      LexTotal(m.id, top.id);
      if !Below(KeyOf(m), KeyOf(top)) {
        assert m.id != top.id;
        assert Below(KeyOf(top), KeyOf(m));
        forall x | x in rows && x != m ensures Below(KeyOf(x), KeyOf(m)) {
          if x != top { BelowTransitive(KeyOf(x), KeyOf(top), KeyOf(m)); }
        }
        top := m;
      }
    }
  }

  lemma NewestIsThere(rows: set<StoredMessage>)
    requires rows != {} && DistinctIds(rows)
    ensures exists top :: IsNewest(top, rows)
  {
    var top := NewestExists(rows);
  }

  lemma NewestUnique(a: StoredMessage, b: StoredMessage, rows: set<StoredMessage>)
    requires IsNewest(a, rows) && IsNewest(b, rows)
    ensures a == b
  {
    if a != b {
      BelowTransitive(KeyOf(a), KeyOf(b), KeyOf(a));
      BelowIrreflexive(KeyOf(a));
    }
  }

  /** `ORDER BY sent_at DESC, id DESC`. */
  ghost function Descending(rows: set<StoredMessage>): (q: seq<StoredMessage>)
    requires DistinctIds(rows)
    ensures |q| == |rows| && forall m :: m in q <==> m in rows
    decreases |rows|
  {
    if rows == {} then []
    else
      NewestIsThere(rows);
      var top :| IsNewest(top, rows);
      [top] + Descending(rows - {top})
  }

  lemma DescendingOf(top: StoredMessage, rows: set<StoredMessage>)
    requires DistinctIds(rows) && IsNewest(top, rows)
    ensures Descending(rows) == [top] + Descending(rows - {top})
  {
    var first := Descending(rows)[0];
    assert IsNewest(first, rows);
    NewestUnique(top, first, rows);
  }
}
