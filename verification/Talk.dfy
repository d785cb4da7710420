/** What is said: exactly who is sent a chat, a broadcast or a private message, with what text, and
    what is kept of it. */
module Talk {
  import opened Octets
  import opened Messages
  import opened Ordering
  import opened Tables
  import opened ServerModel
  import opened ServerStructure
  import opened ServerActions
  import opened ServerSafety
  import opened Persistence
  import opened Deliveries
  import opened Entrance
  import opened Moves
  import RateLimit

  /** Nothing has changed but outboxes. */
  ghost predicate OnlyOutboxes(s: Server, t: Server)
  {
    && t.(clients := s.clients) == s && t.clients.Keys == s.clients.Keys
    && forall j :: j in s.clients ==> Bare(t.clients[j]) == Bare(s.clients[j])
  }

  // ---- public texts ----

  /** Everyone in room `r` has been sent the text, and no one else; it is the last of the room's recent
      texts, and has been stored. */
  ghost predicate HasBeenSaid(c: Config, s: Server, t: Server, r: RoomId, text: Text, nick: Text)
    requires r in s.rooms
  {
    var now := c.clock(s.stored);
    var stamp := if now > s.lastStamp then now else s.lastStamp + 1;
    && (forall j :: j in s.clients ==> Gets(c, s, t, j, if s.clients[j].activeRoom == r then [RoomText(r, text)] else []))
    && t.clients.Keys == s.clients.Keys
    && (forall j :: j in s.clients ==> Bare(t.clients[j]) == Bare(s.clients[j]))
    && t.rooms == s.rooms[r := s.rooms[r].(recent := Kept(c, s.rooms[r].recent, text))]
    && t.writes == s.writes + [MessageWrite(StoredMessage(c.freshId(s.stored), r, nick, text, stamp))]
    && t.stored == s.stored + 1 && t.lastStamp == stamp
    && t.(clients := s.clients, rooms := s.rooms, writes := s.writes, stored := s.stored, lastStamp := s.lastStamp) == s
  }

  lemma SaidState(c: Config, s: Server, r: RoomId, text: Text, nick: Text)
    requires r in s.rooms
    ensures var t := BroadcastRoom(c, s, r, text, nick);
      && t.rooms == s.rooms[r := s.rooms[r].(recent := Kept(c, s.rooms[r].recent, text))]
      && t.(clients := s.clients, rooms := s.rooms, writes := s.writes, stored := s.stored, lastStamp := s.lastStamp) == s
  {
    hide PostAll;
  }

  lemma StampIs(c: Config, s: Server)
    ensures NextStamp(c, s) == if c.clock(s.stored) > s.lastStamp then c.clock(s.stored) else s.lastStamp + 1
  {
  }

  lemma BroadcastExactly(c: Config, s: Server, r: RoomId, text: Text, nick: Text)
    requires Sound(c, s) && r in s.rooms
    ensures HasBeenSaid(c, s, BroadcastRoom(c, s, r, text, nick), r, text, nick)
  {
    hide Sound, BroadcastRoom, Core, Gets, Bare, NextStamp;
    var t := BroadcastRoom(c, s, r, text, nick);
    SaidState(c, s, r, text, nick);
    SaidFields(c, s, r, text, nick);
    StampIs(c, s);
    BroadcastRoomCore(c, s, r, text, nick);
    CoreKeys(s, t);
    forall j | j in s.clients ensures Gets(c, s, t, j, if s.clients[j].activeRoom == r then [RoomText(r, text)] else []) {
      SaidGets(c, s, r, text, nick, j);
      MemberWhere(c, s, r, j);
      NextIsNotZero(c, s, r);
    }
  }

  // ---- chat ----

  /** The quota's verdict on a message now, and the server with the message counted. */
  function Allows(x: Session, now: int): bool { RateLimit.Consume(x.quota, x.activeRoom, now).0 }

  function Counted(s: Server, i: SessionId, now: int): Server
    requires i in s.clients
  {
    var x := s.clients[i];
    s.(clients := s.clients[i := x.(quota := RateLimit.Consume(x.quota, x.activeRoom, now).1)])
  }

  /** What the chat of a member comes to: said in its room as `[time] name: text`, or refused. */
  ghost predicate ChatLeadsTo(c: Config, s: Server, t: Server, i: SessionId, body: Text, env: Env)
    requires i in s.clients
  {
    var x, u := s.clients[i], Counted(s, i, env.now);
    if !Allows(x, env.now) then OnlyTold(c, u, t, i, DirectText(SLOW_DOWN))
    else if !IsValidText(body, 1000) then OnlyTold(c, u, t, i, DirectText("[system] Invalid message text"))
    else if x.activeRoom !in s.rooms then t == u
    else HasBeenSaid(c, u, t, x.activeRoom, "[" + env.timeOfDay + "] " + x.nickname + ": " + body, x.nickname)
  }

  lemma CountedSound(c: Config, s: Server, i: SessionId, now: int)
    requires Sound(c, s) && i in s.clients
    ensures Sound(c, Counted(s, i, now)) && ConsumeQuota(s, i, now) == (Allows(s.clients[i], now), Counted(s, i, now))
  {
    hide Sound, RateLimit.Consume;
    var x := s.clients[i];
    PendingValid(c, s, i);
    WithSound(c, s, i, x.(quota := RateLimit.Consume(x.quota, x.activeRoom, now).1));
  }

  lemma ChatIs(c: Config, s: Server, i: SessionId, body: Text, env: Env)
    requires IsMember(c, s, i)
    ensures Step(c, s, Received(i, Chat(body), env)) ==
      Chatted(c, ConsumeQuota(s, i, env.now).1, i, s.clients[i], ConsumeQuota(s, i, env.now).0, body, env.timeOfDay)
  {
    hide Chatted, ConsumeQuota;
  }

  lemma ChatExactly(c: Config, s: Server, i: SessionId, body: Text, env: Env)
    requires Sound(c, s) && IsMember(c, s, i)
    ensures ChatLeadsTo(c, s, Step(c, s, Received(i, Chat(body), env)), i, body, env)
  {
    hide Sound, Step, RateLimit.Consume, BroadcastRoom, DeliverAll, IsValidText, HasBeenSaid, ConsumeQuota, Sent, MayCommand;
    var u, x := Counted(s, i, env.now), s.clients[i];
    ChatIs(c, s, i, body, env);
    CountedSound(c, s, i, env.now);
    DeliverOne(c, u, i, DirectText(SLOW_DOWN));
    DeliverOne(c, u, i, DirectText("[system] Invalid message text"));
    if x.activeRoom in s.rooms {
      BroadcastExactly(c, u, x.activeRoom, "[" + env.timeOfDay + "] " + x.nickname + ": " + body, x.nickname);
    } else {
      NothingSaid(c, u, x.activeRoom, "[" + env.timeOfDay + "] " + x.nickname + ": " + body, x.nickname);
    }
  }

  // ---- private messages ----

  predicate IsHere(s: Server, r: RoomId, j: SessionId, n: Text)
  {
    j in s.clients && s.clients[j].activeRoom == r && s.clients[j].nickname == n
  }

  /** Someone in the room under the nickname, if there is anyone. */
  ghost predicate IsPick(s: Server, r: RoomId, n: Text, p: Option<SessionId>)
  {
    match p
    case Some(j) => IsHere(s, r, j, n)
    case None => forall j :: !IsHere(s, r, j, n)
  }

  function Line(stamp: Text, sender: Text, target: Text, body: Text): ServerMessage
  {
    DirectText("[PRIVATE " + stamp + "] " + sender + " -> " + target + ": " + body)
  }

  function Absent(target: Text): ServerMessage { DirectText("[system] User '" + target + "' is not in this room") }

  /** The target `to` and another sender `from` have been sent the line once each, and no one else has
      been sent anything; or, if nobody there is called so, the sender has been told. */
  ghost predicate HasReached(c: Config, s: Server, t: Server, r: RoomId, sender: Text, target: Text, body: Text, stamp: Text,
                             from: Option<SessionId>, to: Option<SessionId>)
  {
    && IsPick(s, r, sender, from) && IsPick(s, r, target, to) && OnlyOutboxes(s, t)
    && forall j :: j in s.clients ==>
         Gets(c, s, t, j,
           if to.Some? || (c.localNickname != [] && s.localRoomId == r && target == c.localNickname) then
             if to == Some(j) || (from == Some(j) && sender != target) then [Line(stamp, sender, target, body)] else []
           else if from == Some(j) then [Absent(target)] else [])
  }

  lemma PickIs(c: Config, s: Server, r: RoomId, n: Text)
    requires Sound(c, s) && r in s.rooms
    ensures IsPick(s, r, n, LastNamed(s, Ordered(s.rooms[r].members), n))
  {
    hide Sound, LastNamed, Ordered;
    NextIsNotZero(c, s, r);
    var p := LastNamed(s, Ordered(s.rooms[r].members), n);
    forall j | j in s.clients ensures j in s.rooms[r].members <==> s.clients[j].activeRoom == r {
      MemberWhere(c, s, r, j);
    }
    MembersKnown(c, s, r);
  }

  lemma MembersKnown(c: Config, s: Server, r: RoomId)
    requires Sound(c, s) && r in s.rooms
    ensures forall j :: j in s.rooms[r].members ==> j in s.clients
  {
    hide DistinctNames, Handles, RoomTable;
  }

  lemma OutboxesOnly(c: Config, s: Server, i: SessionId, m: ServerMessage)
    ensures OnlyOutboxes(s, Deliver(c, s, i, m))
  {
  }

  lemma OutboxesOnlyThen(s: Server, t: Server, u: Server)
    requires OnlyOutboxes(s, t) && OnlyOutboxes(t, u)
    ensures OnlyOutboxes(s, u)
  {
    assert u.(clients := s.clients) == t.(clients := s.clients);
  }

  lemma SameOutboxes(c: Config, s: Server)
    ensures OnlyOutboxes(s, s)
  {
  }

  lemma LineIs(stamp: Text, sender: Text, target: Text, body: Text)
    ensures PrivateLine(stamp, sender, target, body) == Line(stamp, sender, target, body) && NotHere(target) == Absent(target)
  {
  }

  /** One delivery to an optional session. */
  ghost function Passed(c: Config, s: Server, p: Option<SessionId>, m: ServerMessage): Server
  {
    if p.Some? then Deliver(c, s, p.value, m) else s
  }

  lemma PassedGets(c: Config, s: Server, p: Option<SessionId>, m: ServerMessage, j: SessionId)
    requires j in s.clients
    ensures Gets(c, s, Passed(c, s, p, m), j, if p == Some(j) then [m] else []) && OnlyOutboxes(s, Passed(c, s, p, m))
  {
    hide Gets, DeliverAll, OnlyOutboxes;
    if p.Some? {
      DeliverGets(c, s, {p.value}, m, j);
      OutboxesOnly(c, s, p.value, m);
    } else {
      GetsNothing(c, s, s, j);
      SameOutboxes(c, s);
    }
  }

  lemma PassedOnly(c: Config, s: Server, p: Option<SessionId>, m: ServerMessage)
    ensures OnlyOutboxes(s, Passed(c, s, p, m))
  {
    hide DeliverAll, OnlyOutboxes;
    if p.Some? { OutboxesOnly(c, s, p.value, m); } else { SameOutboxes(c, s); }
  }

  lemma SendPrivateIs(c: Config, s: Server, sender: Text, target: Text, body: Text, r: RoomId, stamp: Text)
    requires r in s.rooms
    ensures var members := Ordered(s.rooms[r].members);
      var from, to := LastNamed(s, members, sender), LastNamed(s, members, target);
      SendPrivate(c, s, sender, target, body, r, stamp) ==
        if to.Some? || (c.localNickname != [] && s.localRoomId == r && target == c.localNickname) then
          Passed(c, Passed(c, s, to, Line(stamp, sender, target, body)),
            if sender != target then from else None, Line(stamp, sender, target, body))
        else Passed(c, s, from, Absent(target))
  {
    LineIs(stamp, sender, target, body);
    hide DeliverAll, LastNamed, Ordered, PrivateLine, NotHere, Line, Absent;
  }

  lemma PrivateExactly(c: Config, s: Server, sender: Text, target: Text, body: Text, r: RoomId, stamp: Text)
    returns (from: Option<SessionId>, to: Option<SessionId>)
    requires Sound(c, s) && r in s.rooms
    ensures HasReached(c, s, SendPrivate(c, s, sender, target, body, r, stamp), r, sender, target, body, stamp, from, to)
  {
    hide Sound, Gets, SendPrivate, LastNamed, Ordered, Line, Absent, OnlyOutboxes, Passed, IsPick;
    from, to := LastNamed(s, Ordered(s.rooms[r].members), sender), LastNamed(s, Ordered(s.rooms[r].members), target);
    PickIs(c, s, r, sender);
    PickIs(c, s, r, target);
    SendPrivateIs(c, s, sender, target, body, r, stamp);
    var line, t := Line(stamp, sender, target, body), SendPrivate(c, s, sender, target, body, r, stamp);
    var mid, other := Passed(c, s, to, line), if sender != target then from else None;
    PassedOnly(c, s, to, line);
    PassedOnly(c, mid, other, line);
    OutboxesOnlyThen(s, mid, Passed(c, mid, other, line));
    PassedOnly(c, s, from, Absent(target));
    if sender != target { NotBoth(s, r, sender, target, from, to); }
    forall j | j in s.clients
      ensures Gets(c, s, Passed(c, mid, other, line), j, if to == Some(j) || (from == Some(j) && sender != target) then [line] else [])
      ensures Gets(c, s, Passed(c, s, from, Absent(target)), j, if from == Some(j) then [Absent(target)] else [])
    {
      PassedGets(c, s, from, Absent(target), j);
      PassedGets(c, s, to, line, j);
      var a: seq<ServerMessage>, b: seq<ServerMessage> := if to == Some(j) then [line] else [], if other == Some(j) then [line] else [];
      GetsKnown(c, s, mid, j, a);
      PassedGets(c, mid, other, line, j);
      GetsThen(c, s, mid, Passed(c, mid, other, line), j, a, b);
      assert a + b == if to == Some(j) || (from == Some(j) && sender != target) then [line] else [];
    }
  }

  lemma NotBoth(s: Server, r: RoomId, sender: Text, target: Text, from: Option<SessionId>, to: Option<SessionId>)
    requires IsPick(s, r, sender, from) && IsPick(s, r, target, to) && sender != target
    ensures from.Some? ==> from != to
  {
  }

  /** What the whisper of a member comes to: sent as `[PRIVATE time] sender -> target: text` to a member
      of its room called so and to the sender, or refused. */
  ghost predicate WhisperLeadsTo(c: Config, s: Server, t: Server, i: SessionId, target: Text, body: Text, env: Env)
    requires i in s.clients
  {
    var x, u := s.clients[i], Counted(s, i, env.now);
    if !Allows(x, env.now) then OnlyTold(c, u, t, i, DirectText(SLOW_DOWN))
    else if !IsValidNickname(target) || !IsValidText(body, 1000) then OnlyTold(c, u, t, i, DirectText(BAD_WHISPER))
    else if x.activeRoom !in s.rooms then t == u
    else exists from, to ::
      && HasReached(c, u, t, x.activeRoom, x.nickname, target, body, env.timeOfDay, from, to)
      && from.Some? && ((forall j :: IsHere(s, x.activeRoom, j, x.nickname) ==> j == i) ==> from == Some(i))
  }

  lemma WhisperIs(c: Config, s: Server, i: SessionId, target: Text, body: Text, env: Env)
    requires IsMember(c, s, i)
    ensures Step(c, s, Received(i, Whisper(target, body), env)) ==
      Whispered(c, ConsumeQuota(s, i, env.now).1, i, s.clients[i], ConsumeQuota(s, i, env.now).0, target, body, env.timeOfDay)
  {
    hide Whispered, ConsumeQuota;
  }

  lemma WhisperExactly(c: Config, s: Server, i: SessionId, target: Text, body: Text, env: Env)
    requires Sound(c, s) && IsMember(c, s, i)
    ensures WhisperLeadsTo(c, s, Step(c, s, Received(i, Whisper(target, body), env)), i, target, body, env)
  {
    hide Sound, Step, RateLimit.Consume, SendPrivate, DeliverAll, IsValidText, IsValidNickname, HasReached, ConsumeQuota, Sent,
      MayCommand;
    var u, x := Counted(s, i, env.now), s.clients[i];
    WhisperIs(c, s, i, target, body, env);
    CountedSound(c, s, i, env.now);
    DeliverOne(c, u, i, DirectText(SLOW_DOWN));
    DeliverOne(c, u, i, DirectText(BAD_WHISPER));
    if x.activeRoom in s.rooms {
      var from, to := PrivateExactly(c, u, x.nickname, target, body, x.activeRoom, env.timeOfDay);
      SenderPicked(c, s, u, i, env.now, target, body, env.timeOfDay, from, to);
    } else {
      NowhereToWhisper(c, u, x.nickname, target, body, x.activeRoom, env.timeOfDay);
    }
  }

  lemma SenderPicked(c: Config, s: Server, u: Server, i: SessionId, now: int, target: Text, body: Text, stamp: Text,
                     from: Option<SessionId>, to: Option<SessionId>)
    requires i in s.clients && u == Counted(s, i, now)
    requires exists t :: HasReached(c, u, t, s.clients[i].activeRoom, s.clients[i].nickname, target, body, stamp, from, to)
    ensures from.Some? && ((forall j :: IsHere(s, s.clients[i].activeRoom, j, s.clients[i].nickname) ==> j == i) ==> from == Some(i))
  {
    hide RateLimit.Consume, Gets, OnlyOutboxes;
    var r, n := s.clients[i].activeRoom, s.clients[i].nickname;
    assert forall j :: IsHere(u, r, j, n) <==> IsHere(s, r, j, n);
    assert IsHere(u, r, i, n);
  }

  lemma NowhereToWhisper(c: Config, s: Server, sender: Text, target: Text, body: Text, r: RoomId, stamp: Text)
    requires r !in s.rooms
    ensures SendPrivate(c, s, sender, target, body, r, stamp) == s
  {
  }

  // ---- the host and the administrator ----

  /** The host's text is said where the host is, or in the lobby while it is nowhere. */
  lemma HostBroadcastExactly(c: Config, s: Server, text: Text)
    requires Sound(c, s)
    ensures var r := if s.localRoomId == 0 then LOBBY else s.localRoomId;
            r in s.rooms && HasBeenSaid(c, s, Step(c, s, Broadcast(text)), r, text, [])
  {
    hide Seats, DistinctNames, Handles, BroadcastRoom, HasBeenSaid, IsValidRoomName, IsValidRoomTopic, Lower;
    var r := if s.localRoomId == 0 then LOBBY else s.localRoomId;
    assert r in s.rooms;
    BroadcastExactly(c, s, r, text, []);
  }

  /** The rooms of `ids` have been told, each once, and the others not. */
  ghost predicate HasBeenAnnounced(c: Config, s: Server, t: Server, ids: seq<RoomId>, text: Text)
  {
    && t.clients.Keys == s.clients.Keys && t.rooms.Keys == s.rooms.Keys && |t.writes| == |s.writes| + |ids|
    && (forall j :: j in s.clients ==>
          Gets(c, s, t, j, if s.clients[j].activeRoom in ids then [RoomText(s.clients[j].activeRoom, text)] else []))
    && forall r :: r in s.rooms ==>
         t.rooms[r] == if r !in ids then s.rooms[r] else s.rooms[r].(recent := Kept(c, s.rooms[r].recent, text))
  }

  lemma {:induction false} EachAnnounced(c: Config, s: Server, ids: seq<RoomId>, text: Text)
    requires Sound(c, s) && (forall k :: 0 <= k < |ids| ==> ids[k] in s.rooms) && forall j, k :: 0 <= j < k < |ids| ==> ids[j] != ids[k]
    ensures HasBeenAnnounced(c, s, BroadcastEach(c, s, ids, text), ids, text)
    decreases |ids|
  {
    hide Sound, BroadcastRoom, Gets, Bare;
    if ids == [] {
      NothingAnnounced(c, s, text);
    } else {
      var r, rest := ids[0], ids[1..];
      var mid := BroadcastRoom(c, s, r, text, []);
      BroadcastExactly(c, s, r, text, []);
      BroadcastRoomSound(c, s, r, text);
      EachAnnounced(c, mid, rest, text);
      AnnouncedOneMore(c, s, mid, BroadcastEach(c, mid, rest, text), r, rest, text);
      assert ids == [r] + rest;
    }
  }

  lemma NothingAnnounced(c: Config, s: Server, text: Text)
    ensures HasBeenAnnounced(c, s, s, [], text)
  {
    hide Gets;
    forall j | j in s.clients ensures Gets(c, s, s, j, []) { GetsNothing(c, s, s, j); }
  }

  lemma BroadcastRoomSound(c: Config, s: Server, r: RoomId, text: Text)
    requires Sound(c, s)
    ensures Sound(c, BroadcastRoom(c, s, r, text, []))
  {
    hide Sound, BroadcastRoom, Core;
    BroadcastRoomCore(c, s, r, text, []);
    SoundOfCore(c, s, BroadcastRoom(c, s, r, text, []));
  }

  lemma {:induction false} AnnouncedOneMore(c: Config, s: Server, mid: Server, t: Server, r: RoomId, rest: seq<RoomId>, text: Text)
    requires r in s.rooms && HasBeenSaid(c, s, mid, r, text, []) && HasBeenAnnounced(c, mid, t, rest, text) && r !in rest
    ensures HasBeenAnnounced(c, s, t, [r] + rest, text)
  {
    hide Gets, Bare;
    forall j | j in s.clients
      ensures Gets(c, s, t, j, if s.clients[j].activeRoom in [r] + rest then [RoomText(s.clients[j].activeRoom, text)] else [])
    {
      var q := s.clients[j].activeRoom;
      BareSeat(mid.clients[j], s.clients[j]);
      var a: seq<ServerMessage>, b: seq<ServerMessage> := if q == r then [RoomText(r, text)] else [], if q in rest then [RoomText(q, text)] else [];
      GetsThen(c, s, mid, t, j, a, b);
      assert a + b == if q in [r] + rest then [RoomText(q, text)] else [];
    }
  }

  function Announcement(text: Text): Text { "[SERVER] " + text }

  /** An announcement is said once in every room, marked as the server's. */
  lemma AnnounceExactly(c: Config, s: Server, text: Text)
    requires Sound(c, s)
    ensures HasBeenAnnounced(c, s, Step(c, s, BroadcastServer(text)), Ordered(s.rooms.Keys), Announcement(text))
  {
    hide Sound, Ordered, BroadcastEach, HasBeenAnnounced;
    OrderedAscends(s.rooms.Keys);
    EachAnnounced(c, s, Ordered(s.rooms.Keys), Announcement(text));
  }

  ghost predicate HostHasReached(c: Config, s: Server, t: Server, target: Text, body: Text, stamp: Text)
  {
    exists from, to :: HasReached(c, s, t, s.localRoomId, c.localNickname, target, body, stamp, from, to)
  }

  /** The host's private message reaches its target in the room the host is in; while the host is in none
      it reaches no one. */
  lemma HostPrivateExactly(c: Config, s: Server, target: Text, body: Text, stamp: Text)
    requires Sound(c, s)
    ensures var t := Step(c, s, SendLocalPrivate(target, body, stamp));
      if s.localRoomId == 0 then t == s
      else s.localRoomId in s.rooms && HostHasReached(c, s, t, target, body, stamp)
  {
    hide SendPrivate, HasReached, Sound;
    HostRoomIs(c, s);
    assert Step(c, s, SendLocalPrivate(target, body, stamp))
        == SendPrivate(c, s, c.localNickname, target, body, s.localRoomId, stamp);
    hide Step;
    if s.localRoomId == 0 {
      NowhereToWhisper(c, s, c.localNickname, target, body, 0, stamp);
    } else {
      var from, to := PrivateExactly(c, s, c.localNickname, target, body, s.localRoomId, stamp);
    }
  }

  lemma HostRoomIs(c: Config, s: Server)
    requires Sound(c, s)
    ensures RoomFor(s, c.localNickname) == s.localRoomId && 0 !in s.rooms
    ensures s.localRoomId == 0 || s.localRoomId in s.rooms
  {
    assert s.sessions <= s.clients.Keys && 0 !in s.rooms;
    hide Seats, Handles, Ordered, FirstNamed, IsValidRoomName, IsValidRoomTopic, Lower;
    var found := FirstNamed(s, Ordered(s.sessions), c.localNickname);
    if found.Some? && s.localRoomId == 0 {
      assert found.value in s.sessions && Of(s, found.value).nickname == c.localNickname;
      assert c.localNickname == [];
      NamelessFacts(c, s, found.value);
    }
  }
}
