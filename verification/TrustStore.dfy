/** `verify_peer` and `forget_certificate` on the store of trusted fingerprints: each call reads,
    decides, and checks again before it writes, and calls interleave between those steps. */
module TrustStore {
  import opened Octets
  import opened TrustFile

  type CallId = nat

  /** What one call of `verify_peer` is asked: the peer's address and fingerprint (empty when none
      could be computed), the pinned fingerprint if any, whether the chain verifies for the host,
      whether there is someone to confirm with, and the trust-on-first-use settings. */
  datatype Request = Request(
    address: Text, fingerprint: Text, expected: Text, chainOk: bool, canConfirm: bool, firstUse: bool, hasPath: bool)

  datatype Phase = Looked(previous: Text) | Approved(previous: Text, confirmed: bool) | Finished(trusted: bool)

  datatype Call = Call(request: Request, phase: Phase)

  datatype Store = Store(file: Text, calls: map<CallId, Call>)

  /** The file as it would be written, and whether writing it succeeds. */
  datatype Writing = Writing(succeeds: bool, addresses: seq<Text>)

  datatype Event =
    | Begin(id: CallId, request: Request, legacy: Text, writing: Writing)
    | Decide(id: CallId, answer: bool)
    | Save(id: CallId, writing: Writing)
    | Forget(address: Text, writing: Writing)

  // ---- the steps ----

  function Get(entries: Entries, address: Text): Text { if address in entries then entries[address] else [] }

  /** `entries.insert` of every legacy entry: only absent addresses are filled. */
  function Merge(entries: Entries, legacy: Entries): Entries { legacy + entries }

  function Erase(entries: Entries, address: Text): Entries { entries - {address} }

  predicate Pinned(r: Request) { r.expected != [] }

  predicate Mismatched(r: Request)
  {
    Pinned(r) && (Normalize(r.expected) == [] || Normalize(r.expected) != r.fingerprint)
  }

  predicate Changed(r: Request, previous: Text) { previous != [] && previous != r.fingerprint }

  /** The decision between the two reads of the store. */
  function Verdict(r: Request, previous: Text, answer: bool): Phase
  {
    if Mismatched(r) then Finished(false)
    else if !Changed(r, previous) && (previous == r.fingerprint || Pinned(r) || r.chainOk) then Finished(true)
    else if r.canConfirm then if answer then Approved(previous, true) else Finished(false)
    else if Changed(r, previous) || !r.firstUse || !r.hasPath then Finished(false)
    else Approved(previous, false)
  }

  predicate Interfered(entries: Entries, r: Request, previous: Text)
  {
    r.address in entries && entries[r.address] != previous && entries[r.address] != r.fingerprint
  }

  /** What `Begin` finds: the entries with the legacy ones merged in. */
  function Merged(file: Text, legacy: Text): Entries { Merge(Read(file), Read(legacy)) }

  ghost predicate WritesTo(w: Writing, entries: Entries) { Lists(w.addresses, entries) }

  ghost predicate Enabled(s: Store, e: Event)
  {
    match e
    case Begin(i, r, legacy, w) => i !in s.calls && WritesTo(w, Merged(s.file, legacy))
    case Decide(i, _) => i in s.calls && s.calls[i].phase.Looked?
    case Save(i, w) =>
      i in s.calls && s.calls[i].phase.Approved?
      && WritesTo(w, Read(s.file)[s.calls[i].request.address := s.calls[i].request.fingerprint])
    case Forget(a, w) => WritesTo(w, Erase(Read(s.file), a))
  }

  function With(s: Store, i: CallId, r: Request, p: Phase): Store { s.(calls := s.calls[i := Call(r, p)]) }

  ghost function Step(s: Store, e: Event): Store
    requires Enabled(s, e)
  {
    match e
    case Begin(i, r, legacy, w) =>
      var merged := Merged(s.file, legacy);
      if r.fingerprint == [] then With(s, i, r, Finished(false))
      else if merged == Read(s.file) then With(s, i, r, Looked(Get(merged, r.address)))
      else if !w.succeeds then With(s, i, r, Finished(false))
      else With(s.(file := Print(w.addresses, merged)), i, r, Looked(Get(merged, r.address)))
    case Decide(i, answer) =>
      var r := s.calls[i].request;
      With(s, i, r, Verdict(r, s.calls[i].phase.previous, answer))
    case Save(i, w) =>
      var r, entries := s.calls[i].request, Read(s.file);
      if Interfered(entries, r, s.calls[i].phase.previous) || !w.succeeds then With(s, i, r, Finished(false))
      else With(s.(file := Print(w.addresses, entries[r.address := r.fingerprint])), i, r, Finished(true))
    case Forget(a, w) =>
      if w.succeeds then s.(file := Print(w.addresses, Erase(Read(s.file), a))) else s
  }

  // ---- the same, in place ----

  class Trust {
    var file: Text
    var calls: map<CallId, Call>

    function State(): Store
      reads this
    {
      Store(file, calls)
    }

    constructor (initial: Text)
      ensures State() == Store(initial, map[])
    {
      file, calls := initial, map[];
    }

    /** Filling in the legacy entries that are absent. */
    method MergeLegacy(entries: Entries, legacy: Entries) returns (merged: Entries)
      ensures merged == Merge(entries, legacy)
    {
      merged := entries;
      var rest := legacy.Keys;
      while rest != {}
        invariant rest <= legacy.Keys && merged == Merge(entries, map a | a in legacy && a !in rest :: legacy[a])
        decreases rest
      {
        var a :| a in rest;
        ghost var done := map b | b in legacy && b !in rest :: legacy[b];
        if a !in merged { merged := merged[a := legacy[a]]; }
        rest := rest - {a};
        assert (map b | b in legacy && b !in rest :: legacy[b]) == done[a := legacy[a]];
      }
      assert (map a | a in legacy && a !in rest :: legacy[a]) == legacy;
    }

    /** The first critical section of `verify_peer`. */
    method LookUp(i: CallId, r: Request, legacy: Text, succeeds: bool) returns (ghost w: Writing)
      requires i !in calls
      modifies this
      ensures w.succeeds == succeeds && old(Enabled(State(), Begin(i, r, legacy, w)))
      ensures State() == old(Step(State(), Begin(i, r, legacy, w)))
    {
      hide Read, Print, Merge;
      var entries := ReadTrustStore(file);
      var extra := ReadTrustStore(legacy);
      var merged := MergeLegacy(entries, extra);
      ghost var addresses;
      var text;
      text, addresses := WriteTrustStore(merged);
      w := Writing(succeeds, addresses);
      if r.fingerprint == [] {
        calls := calls[i := Call(r, Finished(false))];
        return;
      }
      if merged != entries {
        if !succeeds {
          calls := calls[i := Call(r, Finished(false))];
          return;
        }
        file := text;
      }
      var previous: Text := [];
      if r.address in merged { previous := merged[r.address]; }
      calls := calls[i := Call(r, Looked(previous))];
    }

    method Review(i: CallId, answer: bool)
      requires i in calls && calls[i].phase.Looked?
      modifies this
      ensures State() == old(Step(State(), Decide(i, answer)))
    {
      hide Normalize;
      var r, previous := calls[i].request, calls[i].phase.previous;
      var verdict := Finished(false);
      var mismatch := false;
      if r.expected != [] {
        var expected := NormalizeFingerprint(r.expected);
        mismatch := expected == [] || expected != r.fingerprint;
      }
      if !mismatch {
        var changed := previous != [] && previous != r.fingerprint;
        if !changed && (previous == r.fingerprint || r.expected != [] || r.chainOk) {
          verdict := Finished(true);
        } else if r.canConfirm {
          if answer { verdict := Approved(previous, true); }
        } else if !changed && r.firstUse && r.hasPath {
          verdict := Approved(previous, false);
        }
      }
      calls := calls[i := Call(r, verdict)];
    }

    /** The second critical section: look again, then write. */
    method Commit(i: CallId, succeeds: bool) returns (ghost w: Writing)
      requires i in calls && calls[i].phase.Approved?
      modifies this
      ensures w.succeeds == succeeds && old(Enabled(State(), Save(i, w)))
      ensures State() == old(Step(State(), Save(i, w)))
    {
      hide Read, Print;
      var r, previous := calls[i].request, calls[i].phase.previous;
      var entries := ReadTrustStore(file);
      ghost var addresses;
      var text;
      text, addresses := WriteTrustStore(entries[r.address := r.fingerprint]);
      w := Writing(succeeds, addresses);
      if r.address in entries && entries[r.address] != previous && entries[r.address] != r.fingerprint {
        calls := calls[i := Call(r, Finished(false))];
        return;
      }
      if succeeds { file := text; }
      calls := calls[i := Call(r, Finished(succeeds))];
    }

    method ForgetCertificate(address: Text, succeeds: bool) returns (ghost w: Writing)
      modifies this
      ensures w.succeeds == succeeds && old(Enabled(State(), Forget(address, w)))
      ensures State() == old(Step(State(), Forget(address, w)))
    {
      hide Read, Print;
      var entries := ReadTrustStore(file);
      ghost var addresses;
      var text;
      text, addresses := WriteTrustStore(entries - {address});
      w := Writing(succeeds, addresses);
      if succeeds { file := text; }
    }
  }

  // ---- runs ----

  ghost predicate IsRun(events: seq<Event>, states: seq<Store>)
  {
    && |states| == |events| + 1 && states[0].calls == map[]
    && forall n :: 0 <= n < |events| ==> Enabled(states[n], events[n]) && states[n + 1] == Step(states[n], events[n])
  }

  /** Addresses a file can hold, and fingerprints as they are computed. */
  ghost predicate PlainEvent(e: Event)
  {
    e.Begin? ==> IsPlainAddress(e.request.address) && (e.request.fingerprint == [] || IsFingerprint(e.request.fingerprint))
  }

  ghost predicate PlainCalls(s: Store)
  {
    forall i :: i in s.calls ==>
      && IsPlainAddress(s.calls[i].request.address)
      && (s.calls[i].phase.Finished? || IsFingerprint(s.calls[i].request.fingerprint))
  }

  lemma {:induction false} Reads(addresses: seq<Text>, entries: Entries)
    requires Lists(addresses, entries) && Plain(entries)
    ensures Read(Print(addresses, entries)) == entries
  {
    ReadBack(addresses, entries);
  }

  /** What a step does to the entries. */
  lemma StepEntries(s: Store, e: Event)
    requires Enabled(s, e) && PlainCalls(s) && PlainEvent(e)
    ensures var before, after := Read(s.file), Read(Step(s, e).file);
      match e
      case Begin(_, r, legacy, w) =>
        after == if r.fingerprint != [] && w.succeeds then Merge(before, Read(legacy)) else before
      case Decide(_, _) => after == before
      case Save(i, w) =>
        var r := s.calls[i].request;
        after == if Interfered(before, r, s.calls[i].phase.previous) || !w.succeeds then before
                 else before[r.address := r.fingerprint]
      case Forget(a, w) => after == if w.succeeds then Erase(before, a) else before
    ensures PlainCalls(Step(s, e))
  {
    ReadIsPlain(s.file);
    hide Read, Print, IsFingerprint, IsPlainAddress, Verdict;
    match e
    case Begin(i, r, legacy, w) =>
      ReadIsPlain(legacy);
      Reads(w.addresses, Merged(s.file, legacy));
    case Decide(_, _) =>
    case Save(i, w) =>
      var r := s.calls[i].request;
      Reads(w.addresses, Read(s.file)[r.address := r.fingerprint]);
    case Forget(a, w) => Reads(w.addresses, Erase(Read(s.file), a));
  }

  /** At event `k`, call `i` asked to confirm replacing `v` by `f` for the address, and the answer
      was yes. */
  ghost predicate AskedAndAccepted(events: seq<Event>, states: seq<Store>, k: nat, i: CallId, address: Text, f: Text, v: Text)
    requires |states| == |events| + 1
  {
    && k < |events| && events[k] == Decide(i, true)
    && i in states[k].calls && states[k].calls[i].phase == Looked(v)
    && var r := states[k].calls[i].request; r.canConfirm && r.address == address && r.fingerprint == f
  }

  /** Each approved call has been confirmed, when its fingerprint differs from the one it found. */
  ghost predicate Evidence(events: seq<Event>, states: seq<Store>, n: nat)
    requires |states| == |events| + 1 && n <= |events|
  {
    forall i :: i in states[n].calls && states[n].calls[i].phase.Approved? && Changed(states[n].calls[i].request, states[n].calls[i].phase.previous) ==>
      var r, p := states[n].calls[i].request, states[n].calls[i].phase;
      exists k: nat :: k < n && AskedAndAccepted(events, states, k, i, r.address, r.fingerprint, p.previous)
  }

  lemma StepApprovals(s: Store, e: Event, i: CallId)
    requires Enabled(s, e) && i in Step(s, e).calls && Step(s, e).calls[i].phase.Approved?
    ensures i in s.calls && Step(s, e).calls[i].request == s.calls[i].request
    ensures Step(s, e).calls[i] == s.calls[i]
         || (e.Decide? && e.id == i && s.calls[i].phase == Looked(Step(s, e).calls[i].phase.previous)
             && (Changed(s.calls[i].request, s.calls[i].phase.previous) ==> e.answer && s.calls[i].request.canConfirm))
  {
    hide Read, Print;
  }

  lemma {:induction false} EveryApprovalConfirmed(events: seq<Event>, states: seq<Store>, n: nat)
    requires IsRun(events, states) && n <= |events|
    ensures Evidence(events, states, n)
  {
    hide Step, Enabled;
    if n > 0 {
      EveryApprovalConfirmed(events, states, n - 1);
      var s, e, t := states[n - 1], events[n - 1], states[n];
      assert Enabled(s, e) && t == Step(s, e);
      forall i | i in t.calls && t.calls[i].phase.Approved? && Changed(t.calls[i].request, t.calls[i].phase.previous)
        ensures var r, p := t.calls[i].request, t.calls[i].phase;
                exists k: nat :: k < n && AskedAndAccepted(events, states, k, i, r.address, r.fingerprint, p.previous)
      {
        StepApprovals(s, e, i);
        var r, p := t.calls[i].request, t.calls[i].phase;
        if t.calls[i] == s.calls[i] {
          var k: nat :| k < n - 1 && AskedAndAccepted(events, states, k, i, r.address, r.fingerprint, p.previous);
          assert AskedAndAccepted(events, states, k, i, r.address, r.fingerprint, p.previous);
        } else {
          assert AskedAndAccepted(events, states, n - 1, i, r.address, r.fingerprint, p.previous);
        }
      }
    }
  }

  lemma {:induction false} EveryCallPlain(events: seq<Event>, states: seq<Store>, n: nat)
    requires IsRun(events, states) && n <= |events| && forall k :: 0 <= k < |events| ==> PlainEvent(events[k])
    ensures PlainCalls(states[n])
  {
    hide Step, Enabled, PlainEvent, PlainCalls, Read;
    if n == 0 {
      NoCallsPlain(states[0]);
    } else {
      EveryCallPlain(events, states, n - 1);
      StepEntries(states[n - 1], events[n - 1]);
    }
  }

  lemma NoCallsPlain(s: Store)
    requires s.calls == map[]
    ensures PlainCalls(s)
  {
  }

  /** In every interleaving, a stored fingerprint is replaced by a different one only by a call that
      asked to confirm exactly that replacement for that address, and was told yes; nothing else of
      the store changes in that step. */
  lemma {:induction false} ReplacedOnlyIfConfirmed(events: seq<Event>, states: seq<Store>, n: nat, a: Text)
    returns (k: nat, i: CallId)
    requires IsRun(events, states) && n < |events| && forall m :: 0 <= m < |events| ==> PlainEvent(events[m])
    requires a in Read(states[n].file) && a in Read(states[n + 1].file)
    requires Read(states[n + 1].file)[a] != Read(states[n].file)[a]
    ensures var before, after := Read(states[n].file), Read(states[n + 1].file);
      && k < n && AskedAndAccepted(events, states, k, i, a, after[a], before[a])
      && events[n].Save? && events[n].id == i && after == before[a := after[a]]
  {
    hide Step, Enabled, Read, PlainEvent, PlainCalls;
    EveryCallPlain(events, states, n);
    EveryApprovalConfirmed(events, states, n);
    var s, e := states[n], events[n];
    assert Enabled(s, e) && states[n + 1] == Step(s, e);
    StepEntries(s, e);
    SavedBy(s, e, a);
    i := e.id;
    var r, p := s.calls[i].request, s.calls[i].phase;
    assert exists m: nat :: m < n && AskedAndAccepted(events, states, m, i, r.address, r.fingerprint, p.previous);
    k :| k < n && AskedAndAccepted(events, states, k, i, r.address, r.fingerprint, p.previous);
  }

  lemma SavedBy(s: Store, e: Event, a: Text)
    requires Enabled(s, e) && PlainCalls(s) && PlainEvent(e)
    requires a in Read(s.file) && a in Read(Step(s, e).file) && Read(Step(s, e).file)[a] != Read(s.file)[a]
    ensures e.Save? && e.id in s.calls && s.calls[e.id].phase.Approved?
    ensures var r, p := s.calls[e.id].request, s.calls[e.id].phase;
      && r.address == a && Read(s.file)[a] == p.previous && Read(Step(s, e).file)[a] == r.fingerprint
      && Changed(r, p.previous) && Read(Step(s, e).file) == Read(s.file)[a := r.fingerprint]
  {
    ReadIsPlain(s.file);
    StepEntries(s, e);
    hide Read, Step, PlainEvent, PlainCalls, IsPlainAddress;
  }

  /** A step adds, replaces or removes at most one address, except that merging the legacy file may
      add any number: and it only adds, with the legacy fingerprints. */
  lemma OthersUntouched(s: Store, e: Event, b: Text)
    requires Enabled(s, e) && PlainCalls(s) && PlainEvent(e)
    requires match e case Begin(_, _, _, _) => true case Decide(_, _) => true
                     case Save(i, _) => s.calls[i].request.address != b case Forget(a, _) => a != b
    ensures var before, after := Read(s.file), Read(Step(s, e).file);
      && (b in before ==> b in after && after[b] == before[b])
      && (b !in before && b in after ==> e.Begin? && b in Read(e.legacy) && after[b] == Read(e.legacy)[b])
  {
    StepEntries(s, e);
    hide Read, Step, PlainEvent, PlainCalls;
  }

  // ---- forgetting ----

  /** A `forget_certificate` of the address that is written. */
  predicate Forgets(e: Event, a: Text) { e.Forget? && e.address == a && e.writing.succeeds }

  /** The two ways into the file: a call that comes with a fingerprint, and can write the merged
      entries, finds the address in the legacy file; and an approved call for the address writes its
      fingerprint, unless the recheck stops it. */
  predicate Stores(s: Store, e: Event, a: Text)
  {
    match e
    case Begin(_, r, legacy, w) => r.fingerprint != [] && w.succeeds && a in Read(legacy)
    case Save(i, w) =>
      && i in s.calls && s.calls[i].phase.Approved? && s.calls[i].request.address == a && w.succeeds
      && !Interfered(Read(s.file), s.calls[i].request, s.calls[i].phase.previous)
    case _ => false
  }

  /** After a step the address is stored exactly when the step stored it, or it was stored before and
      the step does not remove it. */
  lemma StepStores(s: Store, e: Event, a: Text)
    requires Enabled(s, e) && PlainCalls(s) && PlainEvent(e)
    ensures a in Read(Step(s, e).file) <==> Stores(s, e, a) || (a in Read(s.file) && !Forgets(e, a))
  {
    StepEntries(s, e);
    hide Read, Step, PlainEvent, PlainCalls;
  }

  /** Between `m` and `n` something stored the address, and nothing removed it after that. */
  ghost predicate StoredSince(events: seq<Event>, states: seq<Store>, m: nat, n: nat, a: Text)
    requires |states| == |events| + 1 && n <= |events|
  {
    exists k: nat :: m <= k < n && StoredAt(events, states, k, n, a)
  }

  ghost predicate StoredAt(events: seq<Event>, states: seq<Store>, k: nat, n: nat, a: Text)
    requires |states| == |events| + 1 && k < n <= |events|
  {
    Stores(states[k], events[k], a) && forall j :: k < j < n ==> !Forgets(events[j], a)
  }

  /** In every interleaving, an address that was removed is in the file again exactly when a call has
      stored it since, in one of the two ways, and it has not been removed after that. */
  lemma {:induction false} ForgottenUntilStored(events: seq<Event>, states: seq<Store>, m: nat, n: nat, a: Text)
    requires IsRun(events, states) && m < n <= |events| && forall k :: 0 <= k < |events| ==> PlainEvent(events[k])
    requires Forgets(events[m], a)
    ensures a in Read(states[n].file) <==> StoredSince(events, states, m, n, a)
    decreases n
  {
    hide Step, Enabled, Read, PlainEvent, PlainCalls, Stores;
    var s, e := states[n - 1], events[n - 1];
    EveryCallPlain(events, states, n - 1);
    assert Enabled(s, e) && states[n] == Step(s, e);
    StepStores(s, e, a);
    if Stores(s, e, a) {
      assert StoredAt(events, states, n - 1, n, a);
    } else if n == m + 1 {
      assert !StoredSince(events, states, m, n, a);
    } else {
      ForgottenUntilStored(events, states, m, n - 1, a);
      if a in Read(states[n].file) {
        var k: nat :| m <= k < n - 1 && StoredAt(events, states, k, n - 1, a);
        assert StoredAt(events, states, k, n, a);
      }
      if StoredSince(events, states, m, n, a) {
        var k: nat :| m <= k < n && StoredAt(events, states, k, n, a);
        assert StoredAt(events, states, k, n - 1, a);
      }
    }
  }

  // The two ways, in runs of a store that trusts one address.

  const PEER: Text := "h:1"
  const FIRST_KEY: Text := seq(FINGERPRINT_LENGTH, _ => 'A')
  const SECOND_KEY: Text := seq(FINGERPRINT_LENGTH, _ => 'B')
  const ONE_TRUSTED: Entries := map[PEER := FIRST_KEY]
  const TRUSTING: Text := Print([PEER], ONE_TRUSTED)

  lemma TrustingReads()
    ensures IsPlainAddress(PEER) && IsFingerprint(FIRST_KEY) && IsFingerprint(SECOND_KEY)
    ensures Read(TRUSTING) == ONE_TRUSTED && Read([]) == map[]
    ensures Erase(ONE_TRUSTED, PEER) == map[] && WritesTo(Writing(true, []), map[])
    ensures Lists([PEER], ONE_TRUSTED) && Lists([PEER], map[PEER := SECOND_KEY])
  {
    Reads([PEER], ONE_TRUSTED);
    BlankLearnsNothing(map[]);
  }

  /** Merging the legacy file puts a forgotten address back. */
  lemma {:induction false} LegacyPutsBack() returns (events: seq<Event>, states: seq<Store>)
    ensures IsRun(events, states) && |events| == 2 && forall k :: 0 <= k < |events| ==> PlainEvent(events[k])
    ensures Forgets(events[0], PEER) && PEER !in Read(states[1].file)
    ensures events[1].Begin? && PEER in Read(states[2].file)
  {
    TrustingReads();
    hide Read, Print;
    var forget := Forget(PEER, Writing(true, []));
    var begin := Begin(0, Request(PEER, SECOND_KEY, [], true, false, false, true), TRUSTING, Writing(true, [PEER]));
    var s0 := Store(TRUSTING, map[]);
    var s1 := Step(s0, forget);
    StepEntries(s0, forget);
    assert Merge(map[], ONE_TRUSTED) == ONE_TRUSTED;
    StepEntries(s1, begin);
    events, states := [forget, begin], [s0, s1, Step(s1, begin)];
  }

  /** A call approved before the address was forgotten puts it back, without any legacy file. */
  lemma {:induction false} ApprovedPutsBack() returns (events: seq<Event>, states: seq<Store>)
    ensures IsRun(events, states) && |events| == 4 && forall k :: 0 <= k < |events| ==> PlainEvent(events[k])
    ensures Forgets(events[2], PEER) && PEER !in Read(states[3].file)
    ensures events[0].Begin? && events[0].legacy == [] && events[1].Decide? && events[3].Save?
    ensures PEER in Read(states[4].file)
  {
    TrustingReads();
    hide Read, Print;
    var begin := Begin(0, Request(PEER, SECOND_KEY, [], true, true, false, true), [], Writing(true, [PEER]));
    var decide, forget, save := Decide(0, true), Forget(PEER, Writing(true, [])), Save(0, Writing(true, [PEER]));
    assert Merge(ONE_TRUSTED, map[]) == ONE_TRUSTED;
    assert SECOND_KEY[0] != FIRST_KEY[0];
    var s0 := Store(TRUSTING, map[]);
    var s1 := Step(s0, begin);
    var s2 := Step(s1, decide);
    StepEntries(s0, begin);
    StepEntries(s1, decide);
    assert s2.file == TRUSTING;
    var s3 := Step(s2, forget);
    StepEntries(s2, forget);
    assert map[][PEER := SECOND_KEY] == map[PEER := SECOND_KEY];
    StepEntries(s3, save);
    events, states := [begin, decide, forget, save], [s0, s1, s2, s3, Step(s3, save)];
  }

  // ---- who is trusted ----

  /** What is stored for the address when a call begins, in the file or else in the legacy file. */
  function FoundAt(s: Store, e: Event): Text
    requires e.Begin?
  {
    var a := e.request.address;
    if a in Read(s.file) then Read(s.file)[a] else if a in Read(e.legacy) then Read(e.legacy)[a] else []
  }

  /** No fingerprint is pinned, or one that is exactly the peer's, up to case and separators. */
  predicate PinHolds(r: Request) { r.expected == [] || Normalize(r.expected) == r.fingerprint }

  predicate NothingElseStored(r: Request, found: Text) { found == [] || found == r.fingerprint }

  /** What suffices without asking and without saving. */
  predicate KnownOrVouchedFor(r: Request, found: Text)
  {
    NothingElseStored(r, found) && (found == r.fingerprint || r.expected != [] || r.chainOk)
  }

  /** What allows saving: a yes, or a first use with nobody to ask. */
  predicate MaySave(r: Request, found: Text, answer: bool)
  {
    if r.canConfirm then answer else NothingElseStored(r, found) && r.firstUse && r.hasPath
  }

  /** At event `k` call `i` begins with a fingerprint, and whatever legacy entries are missing are written. */
  ghost predicate BeginsAt(events: seq<Event>, states: seq<Store>, k: nat, i: CallId, r: Request, found: Text)
    requires |states| == |events| + 1
  {
    && k < |events| && events[k].Begin? && events[k].id == i && events[k].request == r && r.fingerprint != []
    && FoundAt(states[k], events[k]) == found
    && (events[k].writing.succeeds || Read(events[k].legacy).Keys <= Read(states[k].file).Keys)
  }

  /** Before `n` call `i` has begun so, and been decided with that answer. */
  ghost predicate Decided(events: seq<Event>, states: seq<Store>, n: nat, i: CallId, r: Request, found: Text, answer: bool)
    requires |states| == |events| + 1 && n <= |events|
  {
    exists k: nat, m: nat :: k < m < n && BeginsAt(events, states, k, i, r, found) && events[m] == Decide(i, answer)
  }

  /** At event `k` call `i` saves: nothing other than it found or presents has been stored meanwhile. */
  ghost predicate SavesAt(events: seq<Event>, states: seq<Store>, k: nat, i: CallId, r: Request, found: Text)
    requires |states| == |events| + 1
  {
    && k < |events| && events[k].Save? && events[k].id == i && events[k].writing.succeeds
    && var stored := Read(states[k].file);
       r.address in stored ==> stored[r.address] == found || stored[r.address] == r.fingerprint
  }

  ghost predicate Saved(events: seq<Event>, states: seq<Store>, n: nat, i: CallId, r: Request, found: Text)
    requires |states| == |events| + 1 && n <= |events|
  {
    exists k: nat :: k < n && SavesAt(events, states, k, i, r, found)
  }

  /** What trusting the peer of call `i` rests on. */
  ghost predicate Grounds(events: seq<Event>, states: seq<Store>, n: nat, i: CallId, r: Request, found: Text, answer: bool)
    requires |states| == |events| + 1 && n <= |events|
  {
    && Decided(events, states, n, i, r, found, answer) && PinHolds(r)
    && (KnownOrVouchedFor(r, found) || (MaySave(r, found, answer) && Saved(events, states, n, i, r, found)))
  }

  /** How far call `i` has come, in terms of the events. */
  ghost predicate Progress(events: seq<Event>, states: seq<Store>, n: nat, i: CallId)
    requires |states| == |events| + 1 && n <= |events| && i in states[n].calls
  {
    var r := states[n].calls[i].request;
    match states[n].calls[i].phase
    case Looked(p) => exists k: nat :: k < n && BeginsAt(events, states, k, i, r, p)
    case Approved(p, _) => PinHolds(r) && exists answer :: Decided(events, states, n, i, r, p, answer) && MaySave(r, p, answer)
    case Finished(trusted) => trusted ==> exists p, answer :: Grounds(events, states, n, i, r, p, answer)
  }

  lemma MergeAddsNothing(entries: Entries, legacy: Entries)
    ensures Merge(entries, legacy) == entries <==> legacy.Keys <= entries.Keys
  {
    if Merge(entries, legacy) == entries {
      forall a | a in legacy ensures a in entries { assert a in Merge(entries, legacy); }
    }
  }

  /** One call, one step. */
  lemma CallStep(s: Store, e: Event, i: CallId)
    requires Enabled(s, e) && i in Step(s, e).calls
    ensures var x := Step(s, e).calls[i];
      match e
      case Begin(j, r, legacy, w) =>
        if i != j then i in s.calls && x == s.calls[i]
        else x == Call(r, if r.fingerprint != [] && (w.succeeds || Read(legacy).Keys <= Read(s.file).Keys) then Looked(FoundAt(s, e))
                          else Finished(false))
      case Decide(j, answer) =>
        && i in s.calls
        && x == if i != j then s.calls[i] else Call(s.calls[i].request, Verdict(s.calls[i].request, s.calls[i].phase.previous, answer))
      case Save(j, w) =>
        && i in s.calls
        && if i != j then x == s.calls[i]
           else
             var r, p, stored := s.calls[i].request, s.calls[i].phase.previous, Read(s.file);
             x == Call(r, Finished(w.succeeds && (r.address in stored ==> stored[r.address] == p || stored[r.address] == r.fingerprint)))
      case Forget(_, _) => i in s.calls && x == s.calls[i]
  {
    hide Read, Print, Verdict;
    if e.Begin? { MergeAddsNothing(Read(s.file), Read(e.legacy)); }
  }

  /** The decision, in those terms. */
  lemma VerdictIs(r: Request, p: Text, answer: bool)
    requires r.fingerprint != []
    ensures Verdict(r, p, answer) ==
      if !PinHolds(r) then Finished(false)
      else if KnownOrVouchedFor(r, p) then Finished(true)
      else if MaySave(r, p, answer) then Approved(p, r.canConfirm)
      else Finished(false)
  {
    hide Normalize;
  }

  lemma {:induction false} ProgressStays(events: seq<Event>, states: seq<Store>, n: nat, i: CallId)
    requires |states| == |events| + 1 && n < |events| && i in states[n].calls && i in states[n + 1].calls
    requires states[n + 1].calls[i] == states[n].calls[i] && Progress(events, states, n, i)
    ensures Progress(events, states, n + 1, i)
  {
    hide BeginsAt, SavesAt, PinHolds, MaySave, KnownOrVouchedFor;
    var r := states[n].calls[i].request;
    match states[n].calls[i].phase {
      case Looked(p) =>
        var k: nat :| k < n && BeginsAt(events, states, k, i, r, p);
        assert BeginsAt(events, states, k, i, r, p);
      case Approved(p, _) =>
        var answer :| Decided(events, states, n, i, r, p, answer) && MaySave(r, p, answer);
        assert Decided(events, states, n + 1, i, r, p, answer);
      case Finished(trusted) =>
        if trusted {
          var p, answer :| Grounds(events, states, n, i, r, p, answer);
          assert Grounds(events, states, n + 1, i, r, p, answer);
        }
    }
  }

  lemma {:induction false} DecidedNow(events: seq<Event>, states: seq<Store>, n: nat, i: CallId, answer: bool)
    requires IsRun(events, states) && n < |events| && events[n] == Decide(i, answer)
    requires i in states[n].calls && states[n].calls[i].phase.Looked? && Progress(events, states, n, i)
    ensures var r, p := states[n].calls[i].request, states[n].calls[i].phase.previous;
            r.fingerprint != [] && Decided(events, states, n + 1, i, r, p, answer)
  {
    hide Step, Enabled;
    var r, p := states[n].calls[i].request, states[n].calls[i].phase.previous;
    var k: nat :| k < n && BeginsAt(events, states, k, i, r, p);
    assert k < n < n + 1 && BeginsAt(events, states, k, i, r, p);
  }

  lemma {:induction false} SavedNow(events: seq<Event>, states: seq<Store>, n: nat, i: CallId)
    requires IsRun(events, states) && n < |events| && events[n].Save? && events[n].id == i
    requires i in states[n].calls && states[n].calls[i].phase.Approved? && Progress(events, states, n, i)
    requires i in states[n + 1].calls
    requires states[n + 1].calls[i].request == states[n].calls[i].request && states[n + 1].calls[i].phase.Finished?
    requires states[n + 1].calls[i].phase.trusted ==>
               var r, p := states[n].calls[i].request, states[n].calls[i].phase.previous; SavesAt(events, states, n, i, r, p)
    ensures Progress(events, states, n + 1, i)
  {
    hide Step, Enabled, BeginsAt, SavesAt, PinHolds, MaySave, KnownOrVouchedFor;
    var r, p := states[n].calls[i].request, states[n].calls[i].phase.previous;
    var answer :| Decided(events, states, n, i, r, p, answer) && MaySave(r, p, answer);
    assert Decided(events, states, n + 1, i, r, p, answer);
    if states[n + 1].calls[i].phase.trusted {
      assert Saved(events, states, n + 1, i, r, p);
      assert Grounds(events, states, n + 1, i, r, p, answer);
    }
  }

  lemma {:induction false} StepProgress(events: seq<Event>, states: seq<Store>, n: nat, i: CallId)
    requires IsRun(events, states) && n < |events| && i in states[n + 1].calls
    requires i in states[n].calls ==> Progress(events, states, n, i)
    ensures Progress(events, states, n + 1, i)
  {
    var s, e, x := states[n], events[n], states[n + 1].calls[i];
    assert Enabled(s, e) && states[n + 1] == Step(s, e);
    CallStep(s, e, i);
    if i in s.calls && x == s.calls[i] {
      hide Step, Enabled, Progress;
      ProgressStays(events, states, n, i);
    } else {
      match e
      case Begin(_, r, _, _) =>
        hide Step, Enabled, Read;
        if x.phase.Looked? { assert BeginsAt(events, states, n, i, r, x.phase.previous); }
      case Decide(_, answer) =>
        hide Step, Enabled, Verdict, Read, Progress;
        var r, p := s.calls[i].request, s.calls[i].phase.previous;
        DecidedNow(events, states, n, i, answer);
        VerdictIs(r, p, answer);
        DecidedProgress(events, states, n + 1, i, r, p, answer);
      case Save(_, w) =>
        hide Step, Enabled, Progress, Read;
        SavedNow(events, states, n, i);
      case Forget(_, _) =>
    }
  }

  lemma {:induction false} DecidedProgress(events: seq<Event>, states: seq<Store>, n: nat, i: CallId, r: Request, p: Text, answer: bool)
    requires |states| == |events| + 1 && n <= |events| && i in states[n].calls && states[n].calls[i].request == r
    requires Decided(events, states, n, i, r, p, answer) && r.fingerprint != []
    requires states[n].calls[i].phase ==
      if !PinHolds(r) then Finished(false)
      else if KnownOrVouchedFor(r, p) then Finished(true)
      else if MaySave(r, p, answer) then Approved(p, r.canConfirm)
      else Finished(false)
    ensures Progress(events, states, n, i)
  {
    hide BeginsAt, SavesAt, PinHolds, MaySave, KnownOrVouchedFor, Decided, Saved;
    if PinHolds(r) && KnownOrVouchedFor(r, p) { assert Grounds(events, states, n, i, r, p, answer); }
  }

  lemma {:induction false} EveryProgress(events: seq<Event>, states: seq<Store>, n: nat, i: CallId)
    requires IsRun(events, states) && n <= |events| && i in states[n].calls
    ensures Progress(events, states, n, i)
  {
    hide Step, Enabled, Progress;
    if n > 0 {
      if i in states[n - 1].calls { EveryProgress(events, states, n - 1, i); }
      StepProgress(events, states, n - 1, i);
    }
  }

  /** A call goes from looking to approved to finished, and never back. */
  predicate NoFurther(x: Call, y: Call)
  {
    && y.request == x.request
    && (y.phase.Looked? ==> y == x)
    && (y.phase.Approved? ==> y == x || x.phase.Looked?)
    && (x.phase.Finished? ==> y == x)
  }

  lemma {:induction false} CallGoesOn(events: seq<Event>, states: seq<Store>, m: nat, n: nat, i: CallId)
    requires IsRun(events, states) && m <= n <= |events| && i in states[m].calls
    ensures i in states[n].calls && NoFurther(states[m].calls[i], states[n].calls[i])
    decreases n
  {
    hide Step, Enabled;
    if m < n {
      CallGoesOn(events, states, m, n - 1, i);
      var s, e := states[n - 1], events[n - 1];
      assert Enabled(s, e) && states[n] == Step(s, e);
      CallsStay(s, e, i);
    }
  }

  lemma CallsStay(s: Store, e: Event, i: CallId)
    requires Enabled(s, e) && i in s.calls
    ensures i in Step(s, e).calls && NoFurther(s.calls[i], Step(s, e).calls[i])
  {
    hide Read, Print, Normalize;
  }

  /** After a decision the call is what `VerdictIs` says. */
  lemma {:induction false} AfterDecision(events: seq<Event>, states: seq<Store>, k: nat, m: nat, i: CallId, r: Request, found: Text,
                                         answer: bool)
    requires IsRun(events, states) && k < m < |events| && BeginsAt(events, states, k, i, r, found) && events[m] == Decide(i, answer)
    ensures i in states[m + 1].calls && states[m + 1].calls[i] == Call(r, Verdict(r, found, answer))
  {
    hide Verdict, Read;
    assert Enabled(states[k], events[k]) && states[k + 1] == Step(states[k], events[k]);
    assert Enabled(states[m], events[m]) && states[m + 1] == Step(states[m], events[m]);
    assert i in states[k + 1].calls && i in states[m + 1].calls;
    CallStep(states[k], events[k], i);
    CallGoesOn(events, states, k + 1, m, i);
    CallStep(states[m], events[m], i);
  }

  lemma {:induction false} GroundsSuffice(events: seq<Event>, states: seq<Store>, n: nat, i: CallId, r: Request, found: Text, answer: bool)
    requires IsRun(events, states) && n <= |events| && i in states[n].calls && Grounds(events, states, n, i, r, found, answer)
    ensures states[n].calls[i].phase == Finished(true)
  {
    hide BeginsAt, Step, Enabled, Verdict, PinHolds, KnownOrVouchedFor, MaySave, SavesAt;
    var k: nat, m: nat :| k < m < n && BeginsAt(events, states, k, i, r, found) && events[m] == Decide(i, answer);
    FingerprintPresent(events, states, k, i, r, found);
    AfterDecision(events, states, k, m, i, r, found, answer);
    VerdictIs(r, found, answer);
    CallGoesOn(events, states, m + 1, n, i);
    if !KnownOrVouchedFor(r, found) {
      var d: nat :| d < n && SavesAt(events, states, d, i, r, found);
      SaveFollows(events, states, m, d, i, r, found);
      CallGoesOn(events, states, d + 1, n, i);
    }
  }

  lemma {:induction false} FingerprintPresent(events: seq<Event>, states: seq<Store>, k: nat, i: CallId, r: Request, found: Text)
    requires |states| == |events| + 1 && BeginsAt(events, states, k, i, r, found)
    ensures r.fingerprint != []
  {
  }

  /** A save of a call that was approved when decided comes after the decision, and ends it. */
  lemma {:induction false} SaveFollows(events: seq<Event>, states: seq<Store>, m: nat, d: nat, i: CallId, r: Request, found: Text)
    requires IsRun(events, states) && m < |events| && SavesAt(events, states, d, i, r, found) && events[m].Decide? && events[m].id == i
    requires i in states[m + 1].calls && states[m + 1].calls[i].request == r
    requires states[m + 1].calls[i].phase.Approved? && states[m + 1].calls[i].phase.previous == found
    ensures i in states[d + 1].calls && states[d + 1].calls[i].phase == Finished(true)
  {
    hide Read, Verdict;
    assert Enabled(states[m], events[m]) && Enabled(states[d], events[d]) && states[d + 1] == Step(states[d], events[d]);
    if d < m { CallGoesOn(events, states, d, m, i); }
    assert d > m;
    CallGoesOn(events, states, m + 1, d, i);
    CallStep(states[d], events[d], i);
  }

  /** In every interleaving, a call ends with its peer trusted exactly when it came with a fingerprint
      that any pinned one agrees with, and either nothing else was stored and the fingerprint was
      stored, pinned or vouched for by the chain; or it saved the fingerprint, after a yes, or on a
      first use with nothing else stored and nobody to ask. */
  lemma {:induction false} TrustedExactly(events: seq<Event>, states: seq<Store>, n: nat, i: CallId)
    requires IsRun(events, states) && n <= |events| && i in states[n].calls
    ensures states[n].calls[i].phase == Finished(true) <==>
              exists r, found, answer :: Grounds(events, states, n, i, r, found, answer)
  {
    EveryProgress(events, states, n, i);
    hide Step, Enabled, Grounds;
    if exists r, found, answer :: Grounds(events, states, n, i, r, found, answer) {
      var r, found, answer :| Grounds(events, states, n, i, r, found, answer);
      GroundsSuffice(events, states, n, i, r, found, answer);
    }
  }

  /** Never trusted: after a no, against a pinned fingerprint, or with another one stored and nobody
      to ask. */
  lemma {:induction false} NeverTrusted(events: seq<Event>, states: seq<Store>, k: nat, m: nat, n: nat, i: CallId, r: Request,
                                        found: Text, answer: bool)
    requires IsRun(events, states) && k < m < n <= |events|
    requires BeginsAt(events, states, k, i, r, found) && events[m] == Decide(i, answer)
    requires
      || (r.expected != [] && Normalize(r.expected) != r.fingerprint)
      || (found != [] && found != r.fingerprint && !(r.canConfirm && answer))
      || (r.canConfirm && !answer && found == [] && r.expected == [] && !r.chainOk)
    ensures i in states[n].calls && states[n].calls[i].phase == Finished(false)
  {
    hide Step, Enabled, Verdict, Normalize;
    AfterDecision(events, states, k, m, i, r, found, answer);
    VerdictIs(r, found, answer);
    CallGoesOn(events, states, m + 1, n, i);
  }
}
