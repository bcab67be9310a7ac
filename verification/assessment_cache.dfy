/** The server variable's per-event assessment cache (server_variable.js).

    Every evaluation of the variable is an *invocation*. Invocations share one template
    storage, a map from event hash to stored value, in which the literal string
    'PROCESSING' marks a key whose assessment is being fetched. The host runs one
    callback at a time to completion, so each transition below is one atomic turn:

      Spawn    a new evaluation starts (missing data short-circuits, otherwise it hashes
               the event data and starts polling),
      Read     one poll of `storage.get`: while the marker is stored it defers,
      Hit      the read value is truthy: `getAssessment` resolves with it,
      Claim    the read value is falsy: write the marker, register the end-of-event
               removal, then parse the reCAPTCHA data and send the backend request,
      Complete the backend resolves with an assessment,
      Fail     the backend rejects: the caller gets `defaultValueOnError`,
      Handle   the top-level success handler stores and returns the result,
      Cleanup  one registered end-of-event callback removes its key.

    Read and Claim are separate turns, and Fail does not clear the marker: only
    Cleanup removes an entry. */
module AssessmentCache {
  import opened Wrappers
  import opened Values
  import opened Backend

  /** The literal the template stores while an assessment is being fetched. */
  const Processing := "PROCESSING"
  const Marker := Str(Processing)

  /** The storage key: `sha256Sync(JSON.stringify(eventData))`. */
  type Key = string

  datatype VariableConfig = VariableConfig(
    backend: BackendConfig,
    outputType: string,
    defaultValueOnMissing: Value,
    defaultValueOnError: Value)

  /** Host capabilities of the variable: the event hash, the backend host, and whether
      the sandbox's `Object.delete` throws when handed a non-object (it is handed
      `assessment.event`, which is `undefined` for a site-verify assessment or a
      cached bare score). */
  datatype CacheHost = CacheHost(
    hashify: EventData -> Key,
    backend: Host,
    deleteThrowsOnNonObject: bool)

  /** Where one invocation is. */
  datatype Pc =
    | Polling(key: Key)                 // waiting for `storage.get` to deliver
    | Got(key: Key, read: Option<Value>) // `storage.get` delivered; its `.then` is due
    | Awaiting(key: Key)                // the backend request is in flight
    | Resolved(key: Key, value: Value)  // `getAssessment` resolved; the handler is due
    | Stuck                             // a version with no backend: never settles
    | Done(out: Option<Value>)          // the variable's value (`None`: undefined)

  datatype Invocation = Invocation(cfg: VariableConfig, ev: EventData, pc: Pc)

  /** A backend request, with the invocation that sent it and its storage key. */
  datatype Call = Call(proc: nat, key: Key, request: HttpRequest)

  /** The shared state: template storage, the pending end-of-event callbacks (each
      removes one key), the invocations, and every backend request sent so far. */
  datatype Cache = Cache(
    store: map<Key, Value>,
    callbacks: multiset<Key>,
    procs: seq<Invocation>,
    calls: seq<Call>)

  datatype Label =
    | Spawn(isAnalytics: bool, cfg: VariableConfig, ev: EventData)
    | Read(i: nat)
    | Hit(i: nat, key: Key)
    | Claim(i: nat, key: Key)
    | Complete(i: nat, key: Key, a: Assessment)
    | Fail(i: nat, key: Key)
    | Handle(i: nat, key: Key)
    | Cleanup(key: Key)

  const Init := Cache(map[], multiset{}, [], [])

  /** The stored value, or `None` when the key is absent. */
  function Lookup(store: map<Key, Value>, k: Key): Option<Value> {
    if k in store then Some(store[k]) else None
  }

  // ---------------------------------------------------------------- storage.get

  datatype Poll = Deferred | Delivered(read: Option<Value>)

  /** One poll of `storage.get`: it defers while the stored value is exactly the
      marker and otherwise delivers whatever is stored, absence included. */
  function PollStore(store: map<Key, Value>, k: Key): (r: Poll)
    ensures r == Deferred <==> Lookup(store, k) == Some(Marker)
    ensures r.Delivered? ==> r.read == Lookup(store, k) && r.read != Some(Marker)
  {
    if k in store && store[k] == Marker then Deferred else Delivered(Lookup(store, k))
  }

  /** `storage.get(k)` over the storage contents seen at its successive polls: it
      delivers at the first poll that does not see the marker, and never delivers the
      marker. `None` means every poll seen so far deferred. */
  method StorageGet(snapshots: seq<map<Key, Value>>, k: Key) returns (r: Option<(nat, Option<Value>)>)
    ensures r.None? <==> forall j :: 0 <= j < |snapshots| ==> Lookup(snapshots[j], k) == Some(Marker)
    ensures r.Some? ==> r.value.0 < |snapshots| && r.value.1 == Lookup(snapshots[r.value.0], k)
    ensures r.Some? ==> r.value.1 != Some(Marker)
    ensures r.Some? ==> forall j :: 0 <= j < r.value.0 ==> Lookup(snapshots[j], k) == Some(Marker)
  {
    var n := 0;
    while n < |snapshots|
      invariant n <= |snapshots|
      invariant forall j :: 0 <= j < n ==> Lookup(snapshots[j], k) == Some(Marker)
    {
      match PollStore(snapshots[n], k)
      case Delivered(read) =>
        return Some((n, read));
      case Deferred =>
        n := n + 1;
    }
    return None;
  }

  // ---------------------------------------------------------------- the success handler

  /** What the top-level success handler writes to storage (if anything) and returns. */
  datatype Handled = Handled(write: Option<Value>, out: Value)

  /** `deleteProperty(assessment.event, 'token')`. */
  function StripToken(a: Assessment): Assessment
    requires a.event.Some?
  {
    a.(event := Some(a.event.value.(token := None)))
  }

  /** The top-level success handler, which runs on freshly fetched and on cached values
      alike. In json mode it deletes `event.token` and stores and returns the
      assessment; in any other mode it stores and returns `assessment.riskAnalysis.score`,
      which throws for anything but an assessment object. A throw yields
      `defaultValueOnError` and writes nothing. */
  function HandleValue(cfg: VariableConfig, v: Value, deleteThrows: bool): (r: Handled)
    ensures r.write.Some? ==> r.write.value == r.out
    ensures r.write.None? ==> r.out == cfg.defaultValueOnError
    ensures cfg.outputType == "json" && v.Object? && v.a.event.Some? ==>
              r.out == Object(StripToken(v.a)) && r.write.Some?
    ensures cfg.outputType != "json" ==> (r.write.Some? <==> v.Object?)
    ensures cfg.outputType != "json" && v.Object? ==> r.out == Num(v.a.riskAnalysis.score)
    ensures cfg.outputType == "json" && v != Null && !deleteThrows ==> r.write.Some?
    ensures cfg.outputType == "json" && !(v.Object? && v.a.event.Some?) ==>
              && ((v == Null || deleteThrows) ==> r == Handled(None, cfg.defaultValueOnError))
              && (v != Null && !deleteThrows ==> r == Handled(Some(v), v))
  {
    if cfg.outputType == "json" then
      if v.Object? && v.a.event.Some? then
        var a' := StripToken(v.a);
        Handled(Some(Object(a')), Object(a'))
      else if v == Null || deleteThrows then
        Handled(None, cfg.defaultValueOnError)
      else
        Handled(Some(v), v)
    else if v.Object? then
      Handled(Some(Num(v.a.riskAnalysis.score)), Num(v.a.riskAnalysis.score))
    else
      Handled(None, cfg.defaultValueOnError)
  }

  // ---------------------------------------------------------------- transitions

  /** How a new invocation starts: not an analytics request gives `undefined`; event
      data without truthy `recaptcha` gives `defaultValueOnMissing` without hashing;
      otherwise it polls the key hashed from the whole event data. */
  function Start(h: CacheHost, isAnalytics: bool, cfg: VariableConfig, ev: EventData): (pc: Pc)
    ensures !isAnalytics ==> pc == Done(None)
    ensures isAnalytics && !TruthyOpt(Field(ev, "recaptcha")) ==> pc == Done(Some(cfg.defaultValueOnMissing))
    ensures isAnalytics && TruthyOpt(Field(ev, "recaptcha")) ==> pc == Polling(h.hashify(ev))
  {
    if !isAnalytics then Done(None)
    else if !TruthyOpt(Field(ev, "recaptcha")) then Done(Some(cfg.defaultValueOnMissing))
    else Polling(h.hashify(ev))
  }

  /** A cache hit is a truthy read; absence and falsy values (a stored score of 0) miss. */
  predicate IsHit(read: Option<Value>) {
    TruthyOpt(read)
  }

  predicate Enabled(s: Cache, l: Label) {
    match l
    case Spawn(_, _, _) => true
    case Read(i) => i < |s.procs| && s.procs[i].pc.Polling?
    case Hit(i, k) => i < |s.procs| && s.procs[i].pc.Got? && s.procs[i].pc.key == k && IsHit(s.procs[i].pc.read)
    case Claim(i, k) => i < |s.procs| && s.procs[i].pc.Got? && s.procs[i].pc.key == k && !IsHit(s.procs[i].pc.read)
    case Complete(i, k, _) => i < |s.procs| && s.procs[i].pc == Awaiting(k)
    case Fail(i, k) => i < |s.procs| && s.procs[i].pc == Awaiting(k)
    case Handle(i, k) => i < |s.procs| && s.procs[i].pc.Resolved? && s.procs[i].pc.key == k
    case Cleanup(k) => k in s.callbacks
  }

  /** Replaces the program counter of invocation `i`. */
  function SetPc(s: Cache, i: nat, pc: Pc): (r: Cache)
    requires i < |s.procs|
    ensures |r.procs| == |s.procs| && r.procs[i].pc == pc
    ensures r.procs[i].cfg == s.procs[i].cfg && r.procs[i].ev == s.procs[i].ev
    ensures forall j :: 0 <= j < |s.procs| && j != i ==> r.procs[j] == s.procs[j]
    ensures r.store == s.store && r.callbacks == s.callbacks && r.calls == s.calls
  {
    s.(procs := s.procs[i := s.procs[i].(pc := pc)])
  }

  function SpawnStep(h: CacheHost, s: Cache, isAnalytics: bool, cfg: VariableConfig, ev: EventData): (r: Cache)
    ensures r.store == s.store && r.callbacks == s.callbacks && r.calls == s.calls
    ensures r.procs == s.procs + [Invocation(cfg, ev, Start(h, isAnalytics, cfg, ev))]
  {
    s.(procs := s.procs + [Invocation(cfg, ev, Start(h, isAnalytics, cfg, ev))])
  }

  /** One poll: while the marker is stored the invocation keeps waiting and nothing
      changes; otherwise it receives the stored value, which is never the marker. */
  function ReadStep(s: Cache, i: nat): (r: Cache)
    requires Enabled(s, Read(i))
    ensures r.store == s.store && r.callbacks == s.callbacks && r.calls == s.calls
    ensures Lookup(s.store, s.procs[i].pc.key) == Some(Marker) ==> r == s
    ensures Lookup(s.store, s.procs[i].pc.key) != Some(Marker) ==>
              r == SetPc(s, i, Got(s.procs[i].pc.key, Lookup(s.store, s.procs[i].pc.key)))
    ensures r.procs[i].pc.Got? ==> r.procs[i].pc.read != Some(Marker)
  {
    var k := s.procs[i].pc.key;
    match PollStore(s.store, k)
    case Deferred => s
    case Delivered(read) => SetPc(s, i, Got(k, read))
  }

  /** A hit resolves with the read value: no storage write, no callback, no backend. */
  function HitStep(s: Cache, i: nat, k: Key): (r: Cache)
    requires Enabled(s, Hit(i, k))
    ensures r.store == s.store && r.callbacks == s.callbacks && r.calls == s.calls
    ensures r == SetPc(s, i, Resolved(k, s.procs[i].pc.read.value))
  {
    SetPc(s, i, Resolved(k, s.procs[i].pc.read.value))
  }

  /** A miss claims the key: it stores the marker and registers exactly one removal
      callback for the key, and only then parses the reCAPTCHA data (a parse failure
      yields `defaultValueOnError`) and sends at most one backend request (none for a
      version with no backend, which then never settles). */
  function ClaimStep(h: CacheHost, s: Cache, i: nat, k: Key): (r: Cache)
    requires Enabled(s, Claim(i, k))
    ensures r.store == s.store[k := Marker]
    ensures r.callbacks == s.callbacks + multiset{k}
    ensures |r.procs| == |s.procs| && forall j :: 0 <= j < |s.procs| && j != i ==> r.procs[j] == s.procs[j]
    ensures r.procs[i].pc == Awaiting(k) <==> |r.calls| == |s.calls| + 1
    ensures r.procs[i].pc != Awaiting(k) ==> r.calls == s.calls
    ensures r.procs[i].pc == Awaiting(k) || r.procs[i].pc == Stuck || r.procs[i].pc == Done(Some(s.procs[i].cfg.defaultValueOnError))
    ensures var rc := h.backend.parseRecaptcha(Field(s.procs[i].ev, "recaptcha"));
            && (rc.None? ==> r.procs[i].pc == Done(Some(s.procs[i].cfg.defaultValueOnError)))
            && (rc.Some? ==>
                  var req := RequestFor(s.procs[i].cfg.backend, Variable, rc.value, s.procs[i].ev, h.backend.encode);
                  && (req.None? ==> r.procs[i].pc == Stuck)
                  && (req.Some? ==> r.procs[i].pc == Awaiting(k)))
    ensures r.procs[i].pc == Awaiting(k) ==>
              var rc := h.backend.parseRecaptcha(Field(s.procs[i].ev, "recaptcha"));
              && rc.Some?
              && RequestFor(s.procs[i].cfg.backend, Variable, rc.value, s.procs[i].ev, h.backend.encode).Some?
              && r.calls == s.calls + [Call(i, k, RequestFor(s.procs[i].cfg.backend, Variable, rc.value, s.procs[i].ev, h.backend.encode).value)]
  {
    var inv := s.procs[i];
    var claimed := s.(store := s.store[k := Marker], callbacks := s.callbacks + multiset{k});
    match h.backend.parseRecaptcha(Field(inv.ev, "recaptcha"))
    case None => SetPc(claimed, i, Done(Some(inv.cfg.defaultValueOnError)))
    case Some(rc) =>
      match RequestFor(inv.cfg.backend, Variable, rc, inv.ev, h.backend.encode)
      case None => SetPc(claimed, i, Stuck)
      case Some(req) => SetPc(claimed.(calls := s.calls + [Call(i, k, req)]), i, Awaiting(k))
  }

  /** The backend resolves: `getAssessment` resolves with the assessment. */
  function CompleteStep(s: Cache, i: nat, k: Key, a: Assessment): (r: Cache)
    requires Enabled(s, Complete(i, k, a))
    ensures r.store == s.store && r.callbacks == s.callbacks && r.calls == s.calls
    ensures r == SetPc(s, i, Resolved(k, Object(a)))
  {
    SetPc(s, i, Resolved(k, Object(a)))
  }

  /** The backend rejects: the caller gets `defaultValueOnError` and the marker stays. */
  function FailStep(s: Cache, i: nat, k: Key): (r: Cache)
    requires Enabled(s, Fail(i, k))
    ensures r.store == s.store && r.callbacks == s.callbacks && r.calls == s.calls
    ensures r == SetPc(s, i, Done(Some(s.procs[i].cfg.defaultValueOnError)))
  {
    SetPc(s, i, Done(Some(s.procs[i].cfg.defaultValueOnError)))
  }

  /** The success handler: it writes at most the invocation's own key, with exactly
      the value the invocation returns. */
  function HandleStep(h: CacheHost, s: Cache, i: nat, k: Key): (r: Cache)
    requires Enabled(s, Handle(i, k))
    ensures r.callbacks == s.callbacks && r.calls == s.calls
    ensures |r.procs| == |s.procs| && forall j :: 0 <= j < |s.procs| && j != i ==> r.procs[j] == s.procs[j]
    ensures forall k' :: k' != k ==> Lookup(r.store, k') == Lookup(s.store, k')
    ensures r.procs[i].pc.Done? && r.procs[i].pc.out.Some?
    ensures Lookup(r.store, k) != Lookup(s.store, k) ==> Lookup(r.store, k) == r.procs[i].pc.out
    ensures var hd := HandleValue(s.procs[i].cfg, s.procs[i].pc.value, h.deleteThrowsOnNonObject);
            r.procs[i].pc == Done(Some(hd.out))
            && (hd.write.Some? ==> Lookup(r.store, k) == hd.write)
            && (hd.write.None? ==> r.store == s.store)
  {
    var hd := HandleValue(s.procs[i].cfg, s.procs[i].pc.value, h.deleteThrowsOnNonObject);
    var store := if hd.write.Some? then s.store[k := hd.write.value] else s.store;
    SetPc(s.(store := store), i, Done(Some(hd.out)))
  }

  /** One end-of-event callback: it removes its key's entry and nothing else. */
  function CleanupStep(s: Cache, k: Key): (r: Cache)
    requires Enabled(s, Cleanup(k))
    ensures k !in r.store
    ensures forall k' :: k' != k ==> Lookup(r.store, k') == Lookup(s.store, k')
    ensures r.callbacks == s.callbacks - multiset{k} && r.procs == s.procs && r.calls == s.calls
  {
    s.(store := s.store - {k}, callbacks := s.callbacks - multiset{k})
  }

  function Step(h: CacheHost, s: Cache, l: Label): Cache
    requires Enabled(s, l)
  {
    match l
    case Spawn(isAnalytics, cfg, ev) => SpawnStep(h, s, isAnalytics, cfg, ev)
    case Read(i) => ReadStep(s, i)
    case Hit(i, k) => HitStep(s, i, k)
    case Claim(i, k) => ClaimStep(h, s, i, k)
    case Complete(i, k, a) => CompleteStep(s, i, k, a)
    case Fail(i, k) => FailStep(s, i, k)
    case Handle(i, k) => HandleStep(h, s, i, k)
    case Cleanup(k) => CleanupStep(s, k)
  }

  /** Runs a sequence of transitions; `None` when one of them is not enabled. */
  function Run(h: CacheHost, s: Cache, ls: seq<Label>): Option<Cache>
    decreases |ls|
  {
    if ls == [] then Some(s)
    else if Enabled(s, ls[0]) then Run(h, Step(h, s, ls[0]), ls[1..])
    else None
  }
}
