/** The web tag (web_tag.js). On `gtm.init` it injects the reCAPTCHA library and
    announces it by pushing `{recaptcha: 'loaded'}`; on any other event it waits for
    that announcement, picks the action configured for the firing trigger, requests a
    token and pushes it to the data layer. */
module WebTag {
  import opened Wrappers
  import opened Text
  import opened PageConfig

  /** One row of the tag's action table: an action name and a trigger id. */
  datatype ActionMapping = ActionMapping(name: string, trigger: string)

  /** `maxLibraryLoadWaitCycles`: how many times the wait re-checks after the first. */
  const MaxLibraryLoadWaitCycles := 50

  // ---------------------------------------------------------------- getAction

  /** A row matches when `'_' + trigger` occurs anywhere in the fired triggers. */
  predicate Matches(triggers: string, m: ActionMapping) {
    IndexOf(triggers, "_" + m.trigger) != -1
  }

  /** The name of the first row, in table order, that matches; `None` (null) if none does. */
  function FirstMatch(actions: seq<ActionMapping>, triggers: string): (r: Option<string>)
    ensures r.None? <==> forall j :: 0 <= j < |actions| ==> !Matches(triggers, actions[j])
    ensures r.Some? ==> exists j :: 0 <= j < |actions| && Matches(triggers, actions[j]) && actions[j].name == r.value
                          && forall j' :: 0 <= j' < j ==> !Matches(triggers, actions[j'])
    decreases |actions|
  {
    if actions == [] then None
    else if Matches(triggers, actions[0]) then Some(actions[0].name)
    else
      var rest := FirstMatch(actions[1..], triggers);
      assert forall j :: 1 <= j < |actions| ==> actions[j] == actions[1..][j - 1];
      if rest.Some? then
        var j :| 0 <= j < |actions[1..]| && Matches(triggers, actions[1..][j]) && actions[1..][j].name == rest.value
                 && forall j' :: 0 <= j' < j ==> !Matches(triggers, actions[1..][j']);
        assert Matches(triggers, actions[j + 1]) && actions[j + 1].name == rest.value;
        assert forall j' :: 0 <= j' < j + 1 ==> !Matches(triggers, actions[j']);
        rest
      else
        rest
  }

  /** `getAction`: the loop over `data.actions` with its early return. */
  method GetAction(actions: seq<ActionMapping>, triggers: string) returns (r: Option<string>)
    ensures r == FirstMatch(actions, triggers)
  {
    var n := 0;
    while n < |actions|
      invariant n <= |actions|
      invariant FirstMatch(actions, triggers) == FirstMatch(actions[n..], triggers)
    {
      var suffix := "_" + actions[n].trigger;
      if IndexOf(triggers, suffix) != -1 {
        return Some(actions[n].name);
      }
      assert actions[n + 1..] == actions[n..][1..];
      n := n + 1;
    }
    return None;
  }

  /** Illustration of `FirstMatch`: matching is by substring and list order decides, so
      a trigger id that is a prefix of a later row's id captures that row's trigger. */
  lemma PrefixTriggerIdShadows()
    ensures FirstMatch([ActionMapping("login", "1"), ActionMapping("signup", "12")], "gtm_12") == Some("login")
  {
    assert OccursAt("gtm_12", "_1", 3);
  }

  // ---------------------------------------------------------------- waitLibraryLoaded

  /** The outcome of `waitLibraryLoaded` and how many checks it made. */
  datatype WaitOutcome = Loaded(checks: nat) | GaveUp(checks: nat)

  /** Whether check number `c` sees a truthy `recaptcha` in the data layer; `obs` holds
      what each check sees, and checks past its end see nothing. */
  predicate Observed(obs: seq<bool>, c: nat) {
    c < |obs| && obs[c]
  }

  /** The wait from check `cycle` on: resolve at the first check that sees the library,
      otherwise re-check on a later turn while `cycle < 50`, and reject after that. */
  function WaitFrom(obs: seq<bool>, cycle: nat): (r: WaitOutcome)
    requires cycle <= MaxLibraryLoadWaitCycles
    ensures cycle < r.checks <= MaxLibraryLoadWaitCycles + 1
    ensures r.Loaded? <==> exists c :: cycle <= c <= MaxLibraryLoadWaitCycles && Observed(obs, c)
    ensures r.Loaded? ==> Observed(obs, r.checks - 1)
    ensures forall c :: cycle <= c < r.checks - 1 ==> !Observed(obs, c)
    ensures r.GaveUp? ==> r.checks == MaxLibraryLoadWaitCycles + 1
    decreases MaxLibraryLoadWaitCycles - cycle
  {
    if Observed(obs, cycle) then Loaded(cycle + 1)
    else if cycle < MaxLibraryLoadWaitCycles then WaitFrom(obs, cycle + 1)
    else GaveUp(cycle + 1)
  }

  /** `waitLibraryLoaded` as the loop its callback chain unrolls to. */
  method WaitLibraryLoaded(obs: seq<bool>) returns (r: WaitOutcome)
    ensures r == WaitFrom(obs, 0)
    ensures r.checks <= MaxLibraryLoadWaitCycles + 1
    ensures r.GaveUp? <==> forall c :: 0 <= c <= MaxLibraryLoadWaitCycles ==> !Observed(obs, c)
  {
    var waitCycles := 0;
    while true
      invariant waitCycles <= MaxLibraryLoadWaitCycles
      invariant WaitFrom(obs, waitCycles) == WaitFrom(obs, 0)
      decreases MaxLibraryLoadWaitCycles - waitCycles
    {
      var recaptchaLoaded := waitCycles < |obs| && obs[waitCycles];
      if recaptchaLoaded {
        return Loaded(waitCycles + 1);
      }
      if waitCycles < MaxLibraryLoadWaitCycles {
        waitCycles := waitCycles + 1;
      } else {
        return GaveUp(waitCycles + 1);
      }
    }
  }

  // ---------------------------------------------------------------- a run of the tag

  datatype WebConfig = WebConfig(
    version: string,
    v3SiteKey: string,
    enterpriseSiteKey: string,
    actions: seq<ActionMapping>)

  /** What the page supplies to one run: `dataLayer.get('event')` and
      `dataLayer.get('gtm.triggers')` (`None` for undefined), whether `injectScript`
      loads, what each readiness check sees, and how `execute` resolves. */
  datatype WebPage = WebPage(
    eventName: Option<string>,
    triggers: Option<string>,
    scriptLoads: bool,
    checks: seq<bool>,
    execution: Execution)

  /** `injectToken`: without a truthy action it rejects and requests no token. With
      undefined triggers and a non-empty table, `trigger.indexOf` throws. */
  function InjectToken(cfg: WebConfig, triggers: Option<string>, exec: Execution): (r: seq<Effect>)
    ensures SettlesOnce(r)
    ensures triggers.None? && |cfg.actions| > 0 ==> r == [Threw]
    ensures triggers.Some? ==>
              var action := FirstMatch(cfg.actions, triggers.value);
              (action.None? || action.value == "") <==> r == [Failed]
    ensures triggers.None? && |cfg.actions| == 0 ==> r == [Failed]
    ensures triggers.Some? && FirstMatch(cfg.actions, triggers.value).Some? && FirstMatch(cfg.actions, triggers.value).value != "" ==>
              r == TokenPath(Configuration(cfg.version, cfg.v3SiteKey, cfg.enterpriseSiteKey), FirstMatch(cfg.actions, triggers.value).value, exec, true)
    ensures r[0].ExecuteToken? ==>
              && triggers.Some? && FirstMatch(cfg.actions, triggers.value).Some?
              && r[0].action == FirstMatch(cfg.actions, triggers.value).value
  {
    if triggers.None? && |cfg.actions| > 0 then [Threw]
    else
      var action := if triggers.None? then None else FirstMatch(cfg.actions, triggers.value);
      if action.None? || action.value == "" then [Failed]
      else TokenPath(Configuration(cfg.version, cfg.v3SiteKey, cfg.enterpriseSiteKey), action.value, exec, true)
  }

  /** One run of the web tag. `gtm.init` takes the library-injection path, which
      announces the library before succeeding; any other event first waits for that
      announcement and fails if it never comes. A run succeeds off `gtm.init` only by
      pushing a token for the first matching action, with the configured site key. */
  function RunWebTag(cfg: WebConfig, page: WebPage): (r: seq<Effect>)
    ensures SettlesOnce(r)
    ensures page.eventName == Some("gtm.init") ==>
              r == InitPath(Configuration(cfg.version, cfg.v3SiteKey, cfg.enterpriseSiteKey), page.scriptLoads, RecaptchaLoaded)
    ensures page.eventName != Some("gtm.init") && WaitFrom(page.checks, 0).GaveUp? ==> r == [Failed]
    ensures page.eventName != Some("gtm.init") && WaitFrom(page.checks, 0).Loaded? ==> r == InjectToken(cfg, page.triggers, page.execution)
    ensures page.eventName != Some("gtm.init") && Succeeded in r ==>
              && WaitFrom(page.checks, 0).Loaded?
              && page.triggers.Some?
              && var action := FirstMatch(cfg.actions, page.triggers.value);
                 var config := Configuration(cfg.version, cfg.v3SiteKey, cfg.enterpriseSiteKey);
                 && action.Some? && action.value != "" && config.Some? && page.execution.Issued?
                 && r == [ExecuteToken(config.value.siteKey, action.value),
                          DataLayerPush(RecaptchaToken(Payload(page.execution.token, action.value, Some(config.value.siteKey)))),
                          Succeeded]
  {
    if page.eventName == Some("gtm.init") then
      InitPath(Configuration(cfg.version, cfg.v3SiteKey, cfg.enterpriseSiteKey), page.scriptLoads, RecaptchaLoaded)
    else
      match WaitFrom(page.checks, 0)
      case GaveUp(_) => [Failed]
      case Loaded(_) => InjectToken(cfg, page.triggers, page.execution)
  }

  /** What the readiness checks see, given the data layer's pushes at each check. */
  function ChecksSee(histories: seq<seq<Push>>): (obs: seq<bool>)
    ensures |obs| == |histories|
    ensures forall c :: 0 <= c < |histories| ==> obs[c] == RecaptchaTruthy(histories[c])
  {
    seq(|histories|, c requires 0 <= c < |histories| => RecaptchaTruthy(histories[c]))
  }

  /** A successful `gtm.init` run announces the library, so a later event whose first
      readiness check comes after that push (and after no push that resets `recaptcha`)
      resolves at that first check. */
  lemma InitThenWaitResolvesAtFirstCheck(cfg: WebConfig, init: WebPage, before: seq<Push>, later: seq<Push>, histories: seq<seq<Push>>)
    requires init.eventName == Some("gtm.init") && Succeeded in RunWebTag(cfg, init)
    requires forall j :: 0 <= j < |later| ==> !SetsRecaptcha(later[j])
    requires |histories| >= 1 && histories[0] == before + PushesOf(RunWebTag(cfg, init)) + later
    ensures WaitFrom(ChecksSee(histories), 0) == Loaded(1)
  {
    var config := Configuration(cfg.version, cfg.v3SiteKey, cfg.enterpriseSiteKey);
    assert RunWebTag(cfg, init) == [InjectScript(LibraryUrl(config.value)), DataLayerPush(RecaptchaLoaded), Succeeded];
    PushesOfSuccess(InjectScript(LibraryUrl(config.value)), RecaptchaLoaded);
    RecaptchaPushSticks(before, RecaptchaLoaded, later);
  }

  /** After a successful event run, `recaptcha` in the data layer is the serialised
      payload holding exactly the token, the chosen action and the configured site key. */
  lemma EventRunLeavesPayload(cfg: WebConfig, page: WebPage, before: seq<Push>)
    requires page.eventName != Some("gtm.init") && Succeeded in RunWebTag(cfg, page)
    ensures var action := FirstMatch(cfg.actions, page.triggers.value).value;
            var config := Configuration(cfg.version, cfg.v3SiteKey, cfg.enterpriseSiteKey).value;
            RecaptchaEntry(before + PushesOf(RunWebTag(cfg, page)))
              == Some(Serialised(Payload(page.execution.token, action, Some(config.siteKey))))
  {
    var action := FirstMatch(cfg.actions, page.triggers.value).value;
    var config := Configuration(cfg.version, cfg.v3SiteKey, cfg.enterpriseSiteKey).value;
    var p := RecaptchaToken(Payload(page.execution.token, action, Some(config.siteKey)));
    assert RunWebTag(cfg, page) == [ExecuteToken(config.siteKey, action), DataLayerPush(p), Succeeded];
    PushesOfSuccess(ExecuteToken(config.siteKey, action), p);
    RecaptchaPushSticks(before, p, []);
    assert before + [p] + [] == before + [p];
  }
}
