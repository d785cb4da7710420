/** `load_persistent_state` of a new server, loop by loop. */
module StartUp {
  import opened Octets
  import opened Messages
  import opened Ordering
  import opened Tables
  import opened History
  import opened ServerModel
  import opened Persistence
  import opened Restart
  import opened ChatService

  /** The bodies of a page, reversed: pages come newest first, rooms keep the oldest first. */
  method RecentOf(messages: seq<StoredMessage>) returns (recent: seq<Text>)
    ensures recent == Reverse(Bodies(messages))
  {
    recent := [];
    for k := 0 to |messages|
      invariant |recent| == k && forall j :: 0 <= j < k ==> recent[j] == messages[|messages| - 1 - j].body
    {
      recent := recent + [messages[|messages| - 1 - k].body];
    }
  }

  method LoadRoom(c: Config, db: Database, r: RoomId, answer: seq<StoredMessage>) returns (room: Room)
    requires KeyedById(db) && r in db.rooms && answer == QueryRows(db, r, None, c.historyLimit)
    ensures room == LoadedRoom(c, db, r)
  {
    hide ColumnText, Page, QueryRows, Reverse, Bodies;
    var row := db.rooms[r];
    var history := LoadHistory(db, r, c.historyLimit, None, answer);
    var recent := RecentOf(history.messages);
    room := Room(ColumnText(row.name), ColumnText(row.topic), ColumnText(row.owner), recent, {});
  }

  /** The rooms of the tables, each with its newest history, and the next room id. */
  method LoadRooms(c: Config, db: Database, answers: map<RoomId, seq<StoredMessage>>)
    returns (rooms: map<RoomId, Room>, next: RoomId)
    requires KeyedById(db) && answers.Keys == db.rooms.Keys
    requires forall r :: r in db.rooms ==> answers[r] == QueryRows(db, r, None, c.historyLimit)
    ensures rooms == LoadedRooms(c, db) && next == NextIdFrom(Ordered(db.rooms.Keys), LOBBY + 1)
  {
    hide LoadedRoom, QueryRows, Ordered;
    var ids := Walk(db.rooms.Keys);
    rooms, next := map[], LOBBY + 1;
    assert ids[0..] == ids;
    for k := 0 to |ids|
      invariant forall j :: 0 <= j < k ==> ids[j] in rooms
      invariant forall r :: r in rooms ==> r in db.rooms && rooms[r] == LoadedRoom(c, db, r)
      invariant NextIdFrom(ids[k..], next) == NextIdFrom(ids, LOBBY + 1)
    {
      var r := ids[k];
      assert r in ids && ids[k..][1..] == ids[k + 1..];
      var room := LoadRoom(c, db, r, answers[r]);
      if next <= r + 1 { next := r + 1; }
      rooms := rooms[r := room];
    }
    assert ids[|ids|..] == [];
    forall r | r in db.rooms ensures r in rooms {
      assert r in ids;
    }
  }

  /** The server a set of tables starts; `answers` are the rows of each room's history query. */
  method LoadPersistentState(c: Config, db: Database, answers: map<RoomId, seq<StoredMessage>>) returns (server: ChatServer)
    requires KeyedById(db) && answers.Keys == db.rooms.Keys
    requires forall r :: r in db.rooms ==> answers[r] == QueryRows(db, r, None, c.historyLimit)
    ensures fresh(server) && server.config == c && server.State() == Load(c, db)
  {
    hide LoadedRoom, NextIdFrom, LoadedBans, LoadedKeys, Ordered, QueryRows;
    var rooms, next := LoadRooms(c, db, answers);
    var writes: seq<Write> := [];
    if LOBBY !in rooms {
      rooms := rooms[LOBBY := NewLobby(c)];
      writes := [RoomWrite(LOBBY, RoomRow(NewLobby(c)))];
    }
    var state := Server(map[], {}, rooms, next, 0, LoadedBans(db.bans.Keys), LoadedKeys(db.identities), writes, 0, 0);
    assert state == Load(c, db);
    hide Load;
    server := new ChatServer(c, state);
  }
}
