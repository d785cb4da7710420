/** Every step keeps the tables a mirror of the server. */
module PersistenceSafety {
  import opened Octets
  import opened Messages
  import opened Tables
  import opened ServerModel
  import opened ServerStructure
  import opened ServerActions
  import opened ServerPlans
  import opened ServerSafety
  import opened ServerReach
  import opened Persistence
  import opened Speech

  /** The environment the mirror rests on. */
  ghost predicate Grounded(c: Config, origin: Database)
  {
    GoodIds(c) && c.historyLimit >= 1 && Housed(origin)
  }

  lemma {:induction false} SayAllMirror(c: Config, origin: Database, s: Server, said: seq<Said>)
    requires Mirror(c, origin, s) && Grounded(c, origin)
    ensures Mirror(c, origin, SayAll(c, s, said))
    decreases |said|
  {
    hide Mirror, GoodIds, BroadcastRoom;
    if said != [] {
      var n := |said| - 1;
      SayAllMirror(c, origin, s, said[..n]);
      SaidMirror(c, origin, SayAll(c, s, said[..n]), said[n].room, said[n].text, said[n].nickname);
    }
  }

  lemma FoundIsNew(c: Config, s: Server, name: Text)
    requires Sound(c, s) && CreationError(s, name) == []
    ensures s.nextRoomId !in s.rooms && !NameExists(s, name)
  {
    hide Seats, DistinctNames, Handles, IsValidRoomName, IsValidRoomTopic, Lower;
  }

  lemma BookedMirror(c: Config, e: Input, origin: Database, s: Server, a: Action)
    requires Mirror(c, origin, s) && Grounded(c, origin) && Sound(c, s) && Allowed(c, e, s, a)
    ensures Mirror(c, origin, Booked(s, a))
  {
    hide Mirror, Sound, GoodIds, CreationError, NicknameInUse, CanBind, MayCommand, Bind, AddRoom, BanStored, Unban, WithRoom,
      Written;
    match a
    case Enter(i) => BindMirror(c, origin, s, Of(s, i).pendingNickname, Of(s, i).pendingKey);
    case Register(nick, key) => BindMirror(c, origin, s, nick, key);
    case Found(name, owner) => FoundIsNew(c, s, name); FoundMirror(c, origin, s, name, owner);
    case Retitle(r, topic) => TopicMirror(c, origin, s, r, topic);
    case BanAway(nick, reason, _) => BanMirror(c, origin, s, nick, reason);
    case LiftBan(nick) => UnbanMirror(c, origin, s, nick);
    case _ =>
  }

  lemma ActionMirror(c: Config, e: Input, origin: Database, s: Server, a: Action)
    requires Mirror(c, origin, s) && Grounded(c, origin) && Sound(c, s) && Allowed(c, e, s, a)
    ensures Mirror(c, origin, Do(c, s, a))
  {
    hide Mirror, Grounded, Sound, Allowed, Do, SameRecord, Booked, TextsOf, SayAll;
    BookedMirror(c, e, origin, s, a);
    ActionLeads(c, e, s, a);
    SayAllMirror(c, origin, Booked(s, a), TextsOf(c, s, a));
    MirrorSame(c, origin, SayAll(c, Booked(s, a), TextsOf(c, s, a)), Do(c, s, a));
  }

  lemma {:induction false} PlanMirror(c: Config, e: Input, origin: Database, s: Server, p: Plan)
    requires Mirror(c, origin, s) && Grounded(c, origin) && Sound(c, s) && Legal(c, e, s, p)
    ensures Mirror(c, origin, Run(c, s, p))
    decreases p
  {
    hide Sound, Allowed, Do, Mirror, Grounded;
    match p
    case Skip =>
    case One(a) => ActionMirror(c, e, origin, s, a);
    case Then(q, r) =>
      PlanMirror(c, e, origin, s, q);
      PlanSound(c, e, s, q);
      PlanMirror(c, e, origin, Run(c, s, q), r);
  }

  lemma StepMirror(c: Config, origin: Database, s: Server, e: Input)
    requires Mirror(c, origin, s) && Grounded(c, origin) && Sound(c, s) && Enabled(c, s, e)
    ensures Mirror(c, origin, Step(c, s, e))
  {
    hide Legal, PlanOf, Run, Step, Sound, Enabled, Mirror, Grounded;
    PlanLegal(c, s, e);
    PlanMirror(c, e, origin, s, PlanOf(c, s, e));
    PlanRuns(c, s, e);
  }

  /** In every reachable state, none of the server's writes violates a constraint, and the tables
      they leave mirror the server: each room's recent texts are the last of its stored log. */
  lemma {:induction false} RunMirror(c: Config, origin: Database, states: seq<Server>, inputs: seq<Input>, n: nat)
    requires IsRun(c, states, inputs) && Sound(c, states[0]) && Mirror(c, origin, states[0]) && Grounded(c, origin)
    requires n <= |inputs|
    ensures Mirror(c, origin, states[n])
  {
    hide Sound, Step, Enabled, Mirror, Grounded;
    if n > 0 {
      RunMirror(c, origin, states, inputs, n - 1);
      RunSound(c, states, inputs, n - 1);
      StepMirror(c, origin, states[n - 1], inputs[n - 1]);
    }
  }
}
