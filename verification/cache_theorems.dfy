/** Properties of the server variable's cache over sequences of transitions. */
module CacheTheorems {
  import opened Wrappers
  import opened Values
  import opened Backend
  import opened AssessmentCache

  /** Invocation `i` is waiting in `storage.get` for key `k`. */
  predicate WaitsOn(s: Cache, i: int, k: Key) {
    0 <= i < |s.procs| && s.procs[i].pc == Polling(k)
  }

  /** Invocation `i` has a delivered read of key `k` and has not yet acted on it. */
  predicate HoldsRead(s: Cache, i: int, k: Key) {
    0 <= i < |s.procs| && s.procs[i].pc.Got? && s.procs[i].pc.key == k
  }

  /** The state invariant: a stored marker always has an end-of-event callback pending
      for its key, and no invocation ever holds the marker as a read or resolved value. */
  predicate Inv(s: Cache) {
    && (forall k :: k in s.store && s.store[k] == Marker ==> k in s.callbacks)
    && (forall i :: 0 <= i < |s.procs| && s.procs[i].pc.Got? ==> s.procs[i].pc.read != Some(Marker))
    && (forall i :: 0 <= i < |s.procs| && s.procs[i].pc.Resolved? ==> s.procs[i].pc.value != Marker)
  }

  lemma StepPreservesInv(h: CacheHost, s: Cache, l: Label)
    requires Inv(s) && Enabled(s, l)
    ensures Inv(Step(h, s, l))
  {
    var r := Step(h, s, l);
    match l
    case Handle(i, k) =>
      var v := s.procs[i].pc.value;
      var hd := HandleValue(s.procs[i].cfg, v, h.deleteThrowsOnNonObject);
      assert hd.write.Some? ==> hd.write.value != Marker;
      forall k' | k' in r.store && r.store[k'] == Marker
        ensures k' in r.callbacks
      {
        assert Lookup(r.store, k') == Some(Marker);
        if k' == k {
          assert Lookup(s.store, k) == Some(Marker);
        } else {
          assert Lookup(s.store, k') == Some(Marker);
        }
      }
    case Cleanup(k) =>
      forall k' | k' in r.store && r.store[k'] == Marker
        ensures k' in r.callbacks
      {
        assert Lookup(s.store, k') == Lookup(r.store, k');
      }
    case _ =>
  }

  /** Every state reachable by enabled transitions satisfies the invariant. */
  lemma {:induction false} RunPreservesInv(h: CacheHost, s: Cache, ls: seq<Label>)
    requires Inv(s) && Run(h, s, ls).Some?
    ensures Inv(Run(h, s, ls).value)
    decreases |ls|
  {
    if ls != [] {
      StepPreservesInv(h, s, ls[0]);
      RunPreservesInv(h, Step(h, s, ls[0]), ls[1..]);
    }
  }

  /** In every reachable state `storage.get` has never handed the marker to an
      invocation, and every stored marker will be removed by a pending callback. */
  lemma ReachableInv(h: CacheHost, ls: seq<Label>)
    requires Run(h, Init, ls).Some?
    ensures Inv(Run(h, Init, ls).value)
  {
    RunPreservesInv(h, Init, ls);
  }

  /** Transitions that may take a stored marker away: the success handler of an
      invocation of that key, and a cleanup of that key. */
  predicate Releases(l: Label, k: Key) {
    (l.Handle? && l.key == k) || (l.Cleanup? && l.key == k)
  }

  lemma StepKeepsMarker(h: CacheHost, s: Cache, l: Label, k: Key)
    requires Enabled(s, l) && Lookup(s.store, k) == Some(Marker) && !Releases(l, k)
    ensures var s1 := Step(h, s, l);
            && Lookup(s1.store, k) == Some(Marker)
            && |s.procs| <= |s1.procs|
            && (forall i :: WaitsOn(s, i, k) ==> WaitsOn(s1, i, k))
            && (forall i :: HoldsRead(s1, i, k) ==> HoldsRead(s, i, k) && s1.procs[i].pc == s.procs[i].pc)
            && |s.calls| <= |s1.calls| && s1.calls[..|s.calls|] == s.calls
            && (forall j :: |s.calls| <= j < |s1.calls| && s1.calls[j].key == k ==> HoldsRead(s, s1.calls[j].proc, k))
  {
    var s1 := Step(h, s, l);
    match l
    case Spawn(isAnalytics, cfg, ev) =>
      assert forall i :: HoldsRead(s1, i, k) ==> i < |s.procs|;
    case Handle(i, k') =>
      assert Lookup(s1.store, k) == Lookup(s.store, k);
    case Cleanup(k') =>
      assert Lookup(s1.store, k) == Lookup(s.store, k);
    case _ =>
  }

  /** Coalescing after a claim: while the marker for `k` is stored and no transition
      releases it, the marker stays, every invocation waiting on `k` keeps waiting,
      no invocation receives a new read of `k`, and every backend request for `k` sent
      in the meantime comes from an invocation that had already read `k` before (a read
      that preceded the claim). */
  lemma {:induction false} MarkerPersists(h: CacheHost, s: Cache, ls: seq<Label>, k: Key)
    requires Run(h, s, ls).Some?
    requires Lookup(s.store, k) == Some(Marker)
    requires forall j :: 0 <= j < |ls| ==> !Releases(ls[j], k)
    ensures var s' := Run(h, s, ls).value;
            && Lookup(s'.store, k) == Some(Marker)
            && (forall i :: WaitsOn(s, i, k) ==> WaitsOn(s', i, k))
            && (forall i :: HoldsRead(s', i, k) ==> HoldsRead(s, i, k) && s'.procs[i].pc == s.procs[i].pc)
            && |s.calls| <= |s'.calls| && s'.calls[..|s.calls|] == s.calls
            && (forall j :: |s.calls| <= j < |s'.calls| && s'.calls[j].key == k ==> HoldsRead(s, s'.calls[j].proc, k))
    decreases |ls|
  {
    if ls != [] {
      var s1 := Step(h, s, ls[0]);
      StepKeepsMarker(h, s, ls[0], k);
      MarkerPersists(h, s1, ls[1..], k);
      var s' := Run(h, s, ls).value;
      assert s' == Run(h, s1, ls[1..]).value;
      assert s'.calls[..|s.calls|] == s1.calls[..|s.calls|];
      forall j | |s.calls| <= j < |s'.calls| && s'.calls[j].key == k
        ensures HoldsRead(s, s'.calls[j].proc, k)
      {
        if j < |s1.calls| {
          assert s'.calls[j] == s1.calls[j];
        }
      }
    }
  }

  /** Only an end-of-event callback takes an entry out of storage. */
  lemma {:induction false} EntrySurvivesUntilCleanup(h: CacheHost, s: Cache, ls: seq<Label>, k: Key)
    requires Run(h, s, ls).Some?
    requires k in s.store
    requires Cleanup(k) !in ls
    ensures k in Run(h, s, ls).value.store
    decreases |ls|
  {
    if ls != [] {
      var s1 := Step(h, s, ls[0]);
      assert ls[0] in ls;
      match ls[0] {
        case Handle(i, k') =>
          assert Lookup(s1.store, k) != None;
        case Cleanup(k') =>
          assert Lookup(s1.store, k) == Lookup(s.store, k);
        case _ =>
      }
      assert forall j :: 0 <= j < |ls[1..]| ==> ls[1..][j] == ls[j + 1];
      EntrySurvivesUntilCleanup(h, s1, ls[1..], k);
    }
  }

  /** Illustration: a cleanup removes only its own key, and a second cleanup of the
      same key (registered by a second claim, as in `RaceSendsTwoRequests`) leaves
      storage as the first one did. */
  lemma CleanupIdempotent(s: Cache, k: Key)
    requires s.callbacks[k] >= 2
    ensures var once := CleanupStep(s, k);
            Enabled(once, Cleanup(k)) && CleanupStep(once, k).store == once.store
  {
  }

  /** A stored score of 0 is falsy, so a read of it is a miss: the reader claims the key
      and calls the backend again instead of returning the cached score. */
  lemma ZeroScoreIsMiss(s: Cache, i: nat)
    requires Enabled(s, Read(i))
    requires Lookup(s.store, s.procs[i].pc.key) == Some(Num(Zero))
    ensures var k := s.procs[i].pc.key;
            var r := ReadStep(s, i);
            Enabled(r, Claim(i, k)) && !Enabled(r, Hit(i, k))
  {
  }

  // ---------------------------------------------------------------- scenarios

  /** The facts a scenario needs about one analytics event: its reCAPTCHA data is
      truthy and parses, and the version selects one of the two backends. */
  predicate Fetchable(h: CacheHost, cfg: VariableConfig, ev: EventData) {
    && TruthyOpt(Field(ev, "recaptcha"))
    && h.backend.parseRecaptcha(Field(ev, "recaptcha")).Some?
    && (cfg.backend.version == "v3" || cfg.backend.version == "enterprise")
  }

  /** `a` is the assessment the configured backend resolves with for the request an
      invocation of `ev` sends. */
  predicate Delivers(h: CacheHost, cfg: VariableConfig, ev: EventData, a: Assessment) {
    && Fetchable(h, cfg, ev)
    && Assess(cfg.backend, Variable, h.backend.parseRecaptcha(Field(ev, "recaptcha")).value, ev, h.backend) == Some(Ok(a))
  }

  /** A delivered site-verify assessment has no `event`; a delivered enterprise one has. */
  lemma DeliveredShape(h: CacheHost, cfg: VariableConfig, ev: EventData, a: Assessment)
    requires Delivers(h, cfg, ev, a)
    ensures cfg.backend.version == "v3" ==> a.event.None?
    ensures cfg.backend.version == "enterprise" ==> a.event.Some?
  {
    AssessValidity(cfg.backend, Variable, h.backend.parseRecaptcha(Field(ev, "recaptcha")).value, ev, h.backend);
  }

  lemma RunStep(h: CacheHost, s: Cache, l: Label, rest: seq<Label>)
    requires Enabled(s, l)
    ensures Run(h, s, [l] + rest) == Run(h, Step(h, s, l), rest)
  {
    assert ([l] + rest)[1..] == rest;
  }

  /** Two invocations of the same event start and both read the key as absent. */
  function BothRead(cfg: VariableConfig, ev: EventData): seq<Label> {
    [Spawn(true, cfg, ev), Spawn(true, cfg, ev), Read(0), Read(1)]
  }

  /** Both invocations then claim the key, one after the other. */
  function BothClaim(k: Key): seq<Label> {
    [Claim(0, k), Claim(1, k)]
  }

  lemma BothReadRuns(h: CacheHost, cfg: VariableConfig, ev: EventData)
    requires Fetchable(h, cfg, ev)
    ensures var got := Invocation(cfg, ev, Got(h.hashify(ev), None));
            Run(h, Init, BothRead(cfg, ev)) == Some(Cache(map[], multiset{}, [got, got], []))
  {
    var k := h.hashify(ev);
    var ls := BothRead(cfg, ev);
    var polling := Invocation(cfg, ev, Polling(k));
    var got := Invocation(cfg, ev, Got(k, None));
    var s0 := Init;
    var s1 := Step(h, s0, ls[0]);
    assert s1 == Cache(map[], multiset{}, [polling], []);
    var s2 := Step(h, s1, ls[1]);
    assert s2 == Cache(map[], multiset{}, [polling, polling], []);
    var s3 := Step(h, s2, ls[2]);
    assert s3 == Cache(map[], multiset{}, [got, polling], []);
    var s4 := Step(h, s3, ls[3]);
    assert s4 == Cache(map[], multiset{}, [got, got], []);
    RunStep(h, s3, ls[3], []);
    RunStep(h, s2, ls[2], ls[3..]);
    RunStep(h, s1, ls[1], ls[2..]);
    RunStep(h, s0, ls[0], ls[1..]);
    assert ls == [ls[0]] + ls[1..];
  }

  lemma BothClaimRuns(h: CacheHost, cfg: VariableConfig, ev: EventData)
    requires Fetchable(h, cfg, ev)
    ensures var k := h.hashify(ev);
            var got := Invocation(cfg, ev, Got(k, None));
            var r := Run(h, Cache(map[], multiset{}, [got, got], []), BothClaim(k));
            && r.Some?
            && |r.value.calls| == 2 && r.value.calls[0].key == k && r.value.calls[1].key == k
            && r.value.calls[0].proc == 0 && r.value.calls[1].proc == 1
            && r.value.callbacks[k] == 2
  {
    var k := h.hashify(ev);
    var got := Invocation(cfg, ev, Got(k, None));
    var ls := BothClaim(k);
    var s4 := Cache(map[], multiset{}, [got, got], []);
    var s5 := Step(h, s4, ls[0]);
    assert s5.procs[1] == got && |s5.calls| == 1 && s5.calls[0].key == k && s5.calls[0].proc == 0;
    assert s5.callbacks[k] == 1;
    var s6 := Step(h, s5, ls[1]);
    assert |s6.calls| == 2 && s6.calls[1].key == k && s6.calls[1].proc == 1;
    RunStep(h, s5, ls[1], []);
    RunStep(h, s4, ls[0], ls[1..]);
    assert ls == [ls[0]] + ls[1..];
  }

  /** Read and claim are separate turns: two invocations of the same event that both
      read before either claims both send a backend request for the same key. */
  lemma RaceSendsTwoRequests(h: CacheHost, cfg: VariableConfig, ev: EventData)
    requires Fetchable(h, cfg, ev)
    ensures var k := h.hashify(ev);
            var r := Run(h, Init, [Spawn(true, cfg, ev), Spawn(true, cfg, ev), Read(0), Read(1), Claim(0, k), Claim(1, k)]);
            && r.Some?
            && |r.value.calls| == 2 && r.value.calls[0].key == k && r.value.calls[1].key == k
            && r.value.calls[0].proc == 0 && r.value.calls[1].proc == 1
            && r.value.callbacks[k] == 2
  {
    var k := h.hashify(ev);
    BothReadRuns(h, cfg, ev);
    BothClaimRuns(h, cfg, ev);
    RunAppend(h, Init, BothRead(cfg, ev), BothClaim(k));
    assert BothRead(cfg, ev) + BothClaim(k) == [Spawn(true, cfg, ev), Spawn(true, cfg, ev), Read(0), Read(1), Claim(0, k), Claim(1, k)];
  }

  /** An end-of-event cleanup frees a key for any invocation waiting on it: the next
      poll reads the key as absent, which is a miss, so the invocation claims it. */
  lemma CleanupReleasesWaiter(h: CacheHost, s: Cache, i: nat, k: Key)
    requires WaitsOn(s, i, k) && k in s.callbacks
    ensures var r := Run(h, s, [Cleanup(k), Read(i)]);
            && r.Some?
            && HoldsRead(r.value, i, k) && r.value.procs[i].pc.read == None
            && Enabled(r.value, Claim(i, k))
  {
    var s1 := Step(h, s, Cleanup(k));
    var s2 := Step(h, s1, Read(i));
    RunStep(h, s1, Read(i), []);
    RunStep(h, s, Cleanup(k), [Read(i)]);
  }

  /** Running two label sequences one after the other is running their concatenation. */
  lemma {:induction false} RunAppend(h: CacheHost, s: Cache, ls: seq<Label>, ms: seq<Label>)
    requires Run(h, s, ls).Some?
    ensures Run(h, s, ls + ms) == Run(h, Run(h, s, ls).value, ms)
    decreases |ls|
  {
    if ls != [] {
      assert Enabled(s, ls[0]);
      assert ls + ms != [] && (ls + ms)[0] == ls[0] && (ls + ms)[1..] == ls[1..] + ms;
      RunAppend(h, Step(h, s, ls[0]), ls[1..], ms);
    } else {
      assert ls + ms == ms;
    }
  }

  /** Invocation 0 of an event claims its key and sends its request. */
  function ClaimAlone(k: Key, cfg: VariableConfig, ev: EventData): seq<Label> {
    [Spawn(true, cfg, ev), Read(0), Claim(0, k)]
  }

  /** Invocation 1 of the same event starts and polls once. */
  function WaitBehind(cfg: VariableConfig, ev: EventData): seq<Label> {
    [Spawn(true, cfg, ev), Read(1)]
  }

  /** Invocation 0 claims the key and sends its request; invocation 1 of the same
      event then finds the marker and keeps waiting. */
  function FetchWhileOtherWaits(k: Key, cfg: VariableConfig, ev: EventData): seq<Label> {
    ClaimAlone(k, cfg, ev) + WaitBehind(cfg, ev)
  }

  lemma ClaimAloneRuns(h: CacheHost, cfg: VariableConfig, ev: EventData)
    requires Fetchable(h, cfg, ev)
    ensures var k := h.hashify(ev);
            var r := Run(h, Init, ClaimAlone(k, cfg, ev));
            && r.Some?
            && r.value.store == map[k := Marker] && r.value.callbacks == multiset{k}
            && r.value.procs == [Invocation(cfg, ev, Awaiting(k))]
            && |r.value.calls| == 1 && r.value.calls[0].proc == 0 && r.value.calls[0].key == k
  {
    var k := h.hashify(ev);
    var ls := ClaimAlone(k, cfg, ev);
    var s0 := Init;
    var s1 := Step(h, s0, ls[0]);
    assert s1 == Cache(map[], multiset{}, [Invocation(cfg, ev, Polling(k))], []);
    var s2 := Step(h, s1, ls[1]);
    assert s2 == Cache(map[], multiset{}, [Invocation(cfg, ev, Got(k, None))], []);
    var s3 := Step(h, s2, ls[2]);
    assert s3.store == map[k := Marker] && s3.callbacks == multiset{k};
    assert |s3.procs| == 1 && s3.procs[0] == Invocation(cfg, ev, Awaiting(k));
    assert |s3.calls| == 1 && s3.calls[0].proc == 0 && s3.calls[0].key == k;
    RunStep(h, s2, ls[2], []);
    RunStep(h, s1, ls[1], ls[2..]);
    RunStep(h, s0, ls[0], ls[1..]);
    assert ls == [ls[0]] + ls[1..];
  }

  /** A second invocation of an event whose key holds the marker starts polling and
      keeps waiting; nothing else changes. */
  lemma WaitBehindRuns(h: CacheHost, s: Cache, cfg: VariableConfig, ev: EventData)
    requires Fetchable(h, cfg, ev)
    requires |s.procs| == 1 && Lookup(s.store, h.hashify(ev)) == Some(Marker)
    ensures Run(h, s, WaitBehind(cfg, ev)) == Some(s.(procs := s.procs + [Invocation(cfg, ev, Polling(h.hashify(ev)))]))
  {
    var ls := WaitBehind(cfg, ev);
    var s1 := Step(h, s, ls[0]);
    assert s1 == s.(procs := s.procs + [Invocation(cfg, ev, Polling(h.hashify(ev)))]);
    var s2 := Step(h, s1, ls[1]);
    assert s2 == s1;
    RunStep(h, s1, ls[1], []);
    RunStep(h, s, ls[0], ls[1..]);
    assert ls == [ls[0]] + ls[1..];
  }

  lemma FetchWhileOtherWaitsRuns(h: CacheHost, cfg: VariableConfig, ev: EventData)
    requires Fetchable(h, cfg, ev)
    ensures var k := h.hashify(ev);
            var r := Run(h, Init, FetchWhileOtherWaits(k, cfg, ev));
            && r.Some?
            && r.value.store == map[k := Marker] && r.value.callbacks == multiset{k}
            && r.value.procs == [Invocation(cfg, ev, Awaiting(k)), Invocation(cfg, ev, Polling(k))]
            && |r.value.calls| == 1 && r.value.calls[0].proc == 0 && r.value.calls[0].key == k
  {
    var k := h.hashify(ev);
    ClaimAloneRuns(h, cfg, ev);
    var mid := Run(h, Init, ClaimAlone(k, cfg, ev)).value;
    WaitBehindRuns(h, mid, cfg, ev);
    RunAppend(h, Init, ClaimAlone(k, cfg, ev), WaitBehind(cfg, ev));
  }

  /** A backend failure does not free the key: the failing invocation returns
      `defaultValueOnError`, and a later invocation of the same event keeps waiting on
      the marker (it is freed only by the end-of-event cleanup, see
      `CleanupReleasesWaiter`). */
  lemma FailureKeepsWaitersWaiting(h: CacheHost, cfg: VariableConfig, ev: EventData)
    requires Fetchable(h, cfg, ev)
    ensures var k := h.hashify(ev);
            var r := Run(h, Init, ClaimAlone(k, cfg, ev) + [Fail(0, k)] + WaitBehind(cfg, ev));
            && r.Some?
            && |r.value.procs| == 2
            && r.value.procs[0].pc == Done(Some(cfg.defaultValueOnError))
            && WaitsOn(r.value, 1, k)
            && Lookup(r.value.store, k) == Some(Marker)
            && k in r.value.callbacks
            && |r.value.calls| == 1
  {
    var k := h.hashify(ev);
    ClaimAloneRuns(h, cfg, ev);
    var s3 := Run(h, Init, ClaimAlone(k, cfg, ev)).value;
    var s4 := Step(h, s3, Fail(0, k));
    assert s4 == Cache(map[k := Marker], multiset{k}, [Invocation(cfg, ev, Done(Some(cfg.defaultValueOnError)))], s3.calls);
    RunStep(h, s3, Fail(0, k), []);
    RunAppend(h, Init, ClaimAlone(k, cfg, ev), [Fail(0, k)]);
    WaitBehindRuns(h, s4, cfg, ev);
    RunAppend(h, Init, ClaimAlone(k, cfg, ev) + [Fail(0, k)], WaitBehind(cfg, ev));
  }

  /** Invocation 0's backend request completes and its handler stores the result. */
  function CompleteAndStore(k: Key, a: Assessment): seq<Label> {
    [Complete(0, k, a), Handle(0, k)]
  }

  /** Invocation 1 then reads the stored result, hits, and runs the handler on it. */
  function ServeStored(k: Key): seq<Label> {
    [Read(1), Hit(1, k), Handle(1, k)]
  }

  function CompleteThenServe(k: Key, a: Assessment): seq<Label> {
    CompleteAndStore(k, a) + ServeStored(k)
  }

  /** The labels of a run in which invocation 0 fetches the assessment while invocation
      1 of the same event waits, and 1 is then served from storage. */
  function ServedFromCache(k: Key, cfg: VariableConfig, ev: EventData, a: Assessment): seq<Label> {
    FetchWhileOtherWaits(k, cfg, ev) + CompleteThenServe(k, a)
  }

  lemma CompleteAndStoreRuns(h: CacheHost, s: Cache, cfg: VariableConfig, ev: EventData, k: Key, a: Assessment)
    requires s.procs == [Invocation(cfg, ev, Awaiting(k)), Invocation(cfg, ev, Polling(k))]
    requires HandleValue(cfg, Object(a), h.deleteThrowsOnNonObject).write.Some?
    ensures var r := Run(h, s, CompleteAndStore(k, a));
            var first := HandleValue(cfg, Object(a), h.deleteThrowsOnNonObject);
            && r.Some?
            && r.value.calls == s.calls
            && r.value.procs == [Invocation(cfg, ev, Done(Some(first.out))), Invocation(cfg, ev, Polling(k))]
            && Lookup(r.value.store, k) == Some(first.out)
  {
    var first := HandleValue(cfg, Object(a), h.deleteThrowsOnNonObject);
    var polling := Invocation(cfg, ev, Polling(k));
    var ls := CompleteAndStore(k, a);
    var s1 := Step(h, s, ls[0]);
    assert s1.procs == [Invocation(cfg, ev, Resolved(k, Object(a))), polling] && s1.calls == s.calls;
    var s2 := Step(h, s1, ls[1]);
    assert s2.procs == [Invocation(cfg, ev, Done(Some(first.out))), polling];
    assert Lookup(s2.store, k) == Some(first.out) && s2.calls == s.calls;
    RunStep(h, s1, ls[1], []);
    RunStep(h, s, ls[0], ls[1..]);
    assert ls == [ls[0]] + ls[1..];
  }

  lemma ServeStoredRuns(h: CacheHost, s: Cache, cfg: VariableConfig, ev: EventData, k: Key, v: Value)
    requires |s.procs| == 2 && s.procs[1] == Invocation(cfg, ev, Polling(k))
    requires Lookup(s.store, k) == Some(v) && Truthy(v) && v != Marker
    ensures var r := Run(h, s, ServeStored(k));
            && r.Some?
            && r.value.calls == s.calls
            && |r.value.procs| == 2 && r.value.procs[0] == s.procs[0]
            && r.value.procs[1].pc == Done(Some(HandleValue(cfg, v, h.deleteThrowsOnNonObject).out))
  {
    var ls := ServeStored(k);
    var s1 := Step(h, s, ls[0]);
    assert s1.procs == [s.procs[0], Invocation(cfg, ev, Got(k, Some(v)))];
    var s2 := Step(h, s1, ls[1]);
    assert s2.procs == [s.procs[0], Invocation(cfg, ev, Resolved(k, v))] && s2.calls == s.calls;
    var s3 := Step(h, s2, ls[2]);
    assert s3.procs[1].pc == Done(Some(HandleValue(cfg, v, h.deleteThrowsOnNonObject).out));
    RunStep(h, s2, ls[2], []);
    RunStep(h, s1, ls[1], ls[2..]);
    RunStep(h, s, ls[0], ls[1..]);
    assert ls == [ls[0]] + ls[1..];
  }

  lemma CompleteThenServeRuns(h: CacheHost, s: Cache, cfg: VariableConfig, ev: EventData, k: Key, a: Assessment)
    requires s.procs == [Invocation(cfg, ev, Awaiting(k)), Invocation(cfg, ev, Polling(k))]
    requires Truthy(HandleValue(cfg, Object(a), h.deleteThrowsOnNonObject).out)
    requires HandleValue(cfg, Object(a), h.deleteThrowsOnNonObject).write.Some?
    ensures var r := Run(h, s, CompleteThenServe(k, a));
            var first := HandleValue(cfg, Object(a), h.deleteThrowsOnNonObject);
            && r.Some?
            && r.value.calls == s.calls
            && |r.value.procs| == 2
            && r.value.procs[0].pc == Done(Some(first.out))
            && r.value.procs[1].pc == Done(Some(HandleValue(cfg, first.out, h.deleteThrowsOnNonObject).out))
  {
    var first := HandleValue(cfg, Object(a), h.deleteThrowsOnNonObject);
    CompleteAndStoreRuns(h, s, cfg, ev, k, a);
    var mid := Run(h, s, CompleteAndStore(k, a)).value;
    assert first.out != Marker by {
      assert first.write.Some? && first.write.value == first.out;
    }
    ServeStoredRuns(h, mid, cfg, ev, k, first.out);
    RunAppend(h, s, CompleteAndStore(k, a), ServeStored(k));
  }

  /** Runs `ServedFromCache` and checks the facts both cache scenarios share: one
      backend request, and the second invocation waited until the first had stored
      its result. */
  lemma ServedFromCacheRuns(h: CacheHost, cfg: VariableConfig, ev: EventData, a: Assessment)
    requires Fetchable(h, cfg, ev)
    requires Truthy(HandleValue(cfg, Object(a), h.deleteThrowsOnNonObject).out)
    requires HandleValue(cfg, Object(a), h.deleteThrowsOnNonObject).write.Some?
    ensures var k := h.hashify(ev);
            var r := Run(h, Init, ServedFromCache(k, cfg, ev, a));
            var first := HandleValue(cfg, Object(a), h.deleteThrowsOnNonObject);
            && r.Some?
            && |r.value.calls| == 1
            && |r.value.procs| == 2
            && r.value.procs[0].pc == Done(Some(first.out))
            && r.value.procs[1].pc == Done(Some(HandleValue(cfg, first.out, h.deleteThrowsOnNonObject).out))
  {
    var k := h.hashify(ev);
    FetchWhileOtherWaitsRuns(h, cfg, ev);
    var mid := Run(h, Init, FetchWhileOtherWaits(k, cfg, ev)).value;
    CompleteThenServeRuns(h, mid, cfg, ev, k, a);
    RunAppend(h, Init, FetchWhileOtherWaits(k, cfg, ev), CompleteThenServe(k, a));
  }

  /** With the enterprise backend in json mode the cache coalesces: with one backend
      request, the waiting invocation returns the same assessment (token removed) as
      the fetching one. */
  lemma JsonModeCoalesces(h: CacheHost, cfg: VariableConfig, ev: EventData, a: Assessment)
    requires Delivers(h, cfg, ev, a) && cfg.backend.version == "enterprise" && cfg.outputType == "json"
    ensures var k := h.hashify(ev);
            var r := Run(h, Init, ServedFromCache(k, cfg, ev, a));
            && r.Some?
            && |r.value.calls| == 1
            && |r.value.procs| == 2
            && a.event.Some?
            && r.value.procs[0].pc == Done(Some(Object(StripToken(a))))
            && r.value.procs[1].pc == r.value.procs[0].pc
  {
    DeliveredShape(h, cfg, ev, a);
    ServedFromCacheRuns(h, cfg, ev, a);
    assert StripToken(StripToken(a)) == StripToken(a);
  }

  /** Invocation 0's backend request completes and its handler throws: it returns
      `defaultValueOnError` and writes nothing, so the marker stays. */
  lemma CompleteWithoutStoreRuns(h: CacheHost, s: Cache, cfg: VariableConfig, ev: EventData, k: Key, a: Assessment)
    requires s.procs == [Invocation(cfg, ev, Awaiting(k)), Invocation(cfg, ev, Polling(k))]
    requires HandleValue(cfg, Object(a), h.deleteThrowsOnNonObject).write.None?
    ensures var r := Run(h, s, CompleteAndStore(k, a));
            && r.Some?
            && r.value.store == s.store && r.value.callbacks == s.callbacks && r.value.calls == s.calls
            && r.value.procs == [Invocation(cfg, ev, Done(Some(cfg.defaultValueOnError))), Invocation(cfg, ev, Polling(k))]
  {
    var polling := Invocation(cfg, ev, Polling(k));
    var ls := CompleteAndStore(k, a);
    var s1 := Step(h, s, ls[0]);
    assert s1 == s.(procs := [Invocation(cfg, ev, Resolved(k, Object(a))), polling]);
    var s2 := Step(h, s1, ls[1]);
    assert s2 == s.(procs := [Invocation(cfg, ev, Done(Some(cfg.defaultValueOnError))), polling]);
    RunStep(h, s1, ls[1], []);
    RunStep(h, s, ls[0], ls[1..]);
    assert ls == [ls[0]] + ls[1..];
  }

  /** The labels of a run in which invocation 0 fetches and handles the assessment
      while invocation 1 waits, and 1 then polls once more. */
  function HandleThenPoll(k: Key, cfg: VariableConfig, ev: EventData, a: Assessment): seq<Label> {
    FetchWhileOtherWaits(k, cfg, ev) + CompleteAndStore(k, a) + [Read(1)]
  }

  /** With the site-verify backend in json mode the handler deletes `token` from the
      assessment's missing `event`. If the host's delete throws on that, the fetching
      invocation returns `defaultValueOnError`, stores nothing, and the waiting one is
      still polling the marker after its next read. If it does not throw, the cache
      coalesces on the assessment as delivered. */
  lemma SiteVerifyJsonMode(h: CacheHost, cfg: VariableConfig, ev: EventData, a: Assessment)
    requires Delivers(h, cfg, ev, a) && cfg.backend.version == "v3" && cfg.outputType == "json"
    ensures var k := h.hashify(ev);
            h.deleteThrowsOnNonObject ==>
              var r := Run(h, Init, HandleThenPoll(k, cfg, ev, a));
              && r.Some?
              && |r.value.calls| == 1
              && |r.value.procs| == 2
              && r.value.procs[0].pc == Done(Some(cfg.defaultValueOnError))
              && Lookup(r.value.store, k) == Some(Marker)
              && WaitsOn(r.value, 1, k)
    ensures var k := h.hashify(ev);
            !h.deleteThrowsOnNonObject ==>
              var r := Run(h, Init, ServedFromCache(k, cfg, ev, a));
              && r.Some?
              && |r.value.calls| == 1
              && |r.value.procs| == 2
              && r.value.procs[0].pc == Done(Some(Object(a)))
              && r.value.procs[1].pc == r.value.procs[0].pc
  {
    var k := h.hashify(ev);
    DeliveredShape(h, cfg, ev, a);
    if h.deleteThrowsOnNonObject {
      FetchWhileOtherWaitsRuns(h, cfg, ev);
      var mid := Run(h, Init, FetchWhileOtherWaits(k, cfg, ev)).value;
      CompleteWithoutStoreRuns(h, mid, cfg, ev, k, a);
      RunAppend(h, Init, FetchWhileOtherWaits(k, cfg, ev), CompleteAndStore(k, a));
      var s := Run(h, Init, FetchWhileOtherWaits(k, cfg, ev) + CompleteAndStore(k, a)).value;
      assert s == mid.(procs := [Invocation(cfg, ev, Done(Some(cfg.defaultValueOnError))), Invocation(cfg, ev, Polling(k))]);
      assert Step(h, s, Read(1)) == s;
      RunStep(h, s, Read(1), []);
      RunAppend(h, Init, FetchWhileOtherWaits(k, cfg, ev) + CompleteAndStore(k, a), [Read(1)]);
    } else {
      ServedFromCacheRuns(h, cfg, ev, a);
    }
  }

  /** In score mode the cache does not serve: the fetching invocation returns the score
      and stores it bare, and the handler then fails on the cached bare score, so the
      waiting invocation returns `defaultValueOnError`. */
  lemma ScoreModeCachedScoreIsError(h: CacheHost, cfg: VariableConfig, ev: EventData, a: Assessment)
    requires Fetchable(h, cfg, ev) && cfg.outputType != "json" && a.riskAnalysis.score.NonZero?
    ensures var k := h.hashify(ev);
            var r := Run(h, Init, ServedFromCache(k, cfg, ev, a));
            && r.Some?
            && |r.value.calls| == 1
            && |r.value.procs| == 2
            && r.value.procs[0].pc == Done(Some(Num(a.riskAnalysis.score)))
            && r.value.procs[1].pc == Done(Some(cfg.defaultValueOnError))
  {
    ServedFromCacheRuns(h, cfg, ev, a);
  }
}
