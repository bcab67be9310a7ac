/** The client tag (client_tag.js). On `gtm.init` it injects the reCAPTCHA library and
    pushes a `reCAPTCHA Loaded` event; on any other event it derives the action from a
    SHA-256 hash of the page path and the event name, requests a token for it and pushes
    the token and action to the data layer. */
module ClientTag {
  import opened Wrappers
  import opened Text
  import opened PageConfig

  /** The action id from a hash: `actionId.replace('=', '').replace('+', '')`. A string
      pattern makes `replace` act on the first occurrence only. */
  function CleanActionId(hash: string): string {
    RemoveFirst(RemoveFirst(hash, '='), '+')
  }

  /** The cleanup removes one `=` (if any) and then one `+` (if any), and keeps every
      other character. */
  lemma CleanActionIdMultiset(hash: string)
    ensures multiset(CleanActionId(hash)) == multiset(hash) - multiset{'='} - multiset{'+'}
  {
    RemoveFirstMultiset(hash, '=');
    RemoveFirstMultiset(RemoveFirst(hash, '='), '+');
  }

  /** The action is at most two characters shorter than the hash. */
  lemma CleanActionIdLength(hash: string)
    ensures |hash| - 2 <= |CleanActionId(hash)| <= |hash|
    ensures |CleanActionId(hash)| == |hash| - (if '=' in hash then 1 else 0) - (if '+' in hash then 1 else 0)
  {
    CleanActionIdMultiset(hash);
    assert |multiset(CleanActionId(hash))| == |CleanActionId(hash)|;
    assert '=' in hash <==> multiset(hash)['='] > 0;
    assert '+' in hash <==> multiset(hash)['+'] > 0;
  }

  /** A hash with neither `=` nor `+` is its own action. */
  lemma CleanActionIdKeepsPlainHash(hash: string)
    requires '=' !in hash && '+' !in hash
    ensures CleanActionId(hash) == hash
  {
  }

  /** Only the first occurrence goes: a hash with two or more `+` (or `=`) still has one
      in its action, so the cleanup does not guarantee an action free of them. */
  lemma CleanActionIdKeepsLaterOccurrences(hash: string)
    ensures multiset(hash)['+'] >= 2 ==> '+' in CleanActionId(hash)
    ensures multiset(hash)['='] >= 2 ==> '=' in CleanActionId(hash)
    ensures multiset(hash)['+'] <= 1 && multiset(hash)['='] <= 1 ==>
              '+' !in CleanActionId(hash) && '=' !in CleanActionId(hash)
  {
    CleanActionIdMultiset(hash);
    var r := CleanActionId(hash);
    assert '+' in r <==> multiset(r)['+'] > 0;
    assert '=' in r <==> multiset(r)['='] > 0;
  }

  /** Illustration of `CleanActionIdKeepsLaterOccurrences`: a concrete base64 digest
      with two `+`, of which the action keeps the second. */
  lemma CleanActionIdExample()
    ensures CleanActionId("ab+c+d=") == "abc+d"
  {
    assert "ab+c+d=" == "ab+c+d" + ['='] + "";
    FirstPosAfterPrefix("ab+c+d", '=', "");
    assert RemoveFirst("ab+c+d=", '=') == "ab+c+d";
    assert "ab+c+d" == "ab" + ['+'] + "c+d";
    FirstPosAfterPrefix("ab", '+', "c+d");
  }

  /** `pagePath + trigger`: JavaScript string concatenation, in which an undefined
      event name reads as "undefined". */
  function HashInput(pagePath: string, trigger: Option<string>): string {
    pagePath + (match trigger case Some(t) => t case None => "undefined")
  }

  /** `buildAction`: the cleaned SHA-256 hash of the page path and event name. */
  function BuildAction(sha256: string -> string, pagePath: string, trigger: Option<string>): (r: string)
    ensures |sha256(HashInput(pagePath, trigger))| - 2 <= |r| <= |sha256(HashInput(pagePath, trigger))|
    ensures multiset(r) == multiset(sha256(HashInput(pagePath, trigger))) - multiset{'='} - multiset{'+'}
  {
    CleanActionIdLength(sha256(HashInput(pagePath, trigger)));
    CleanActionIdMultiset(sha256(HashInput(pagePath, trigger)));
    CleanActionId(sha256(HashInput(pagePath, trigger)))
  }

  /** The action depends on the page path and event name only through their
      concatenation: moving characters across the boundary gives the same action. */
  lemma BuildActionSeesOnlyConcatenation(sha256: string -> string, path: string, moved: string, trigger: string)
    ensures BuildAction(sha256, path + moved, Some(trigger)) == BuildAction(sha256, path, Some(moved + trigger))
  {
    var input := path + moved + trigger;
    assert HashInput(path + moved, Some(trigger)) == input;
    assert HashInput(path, Some(moved + trigger)) == input;
    assert BuildAction(sha256, path + moved, Some(trigger)) == CleanActionId(sha256(input));
    assert BuildAction(sha256, path, Some(moved + trigger)) == CleanActionId(sha256(input));
  }

  datatype ClientConfig = ClientConfig(version: string, v3SiteKey: string, enterpriseSiteKey: string)

  /** What the page supplies to one run: `dataLayer.get('event')` (`None` for
      undefined), the page path, whether `injectScript` loads, and how `execute`
      resolves. */
  datatype ClientPage = ClientPage(
    eventName: Option<string>,
    pagePath: string,
    scriptLoads: bool,
    execution: Execution)

  /** One run of the client tag. `gtm.init` injects the library and pushes the loaded
      event before succeeding. Any other event skips both and goes straight to a token
      request for the built action, with no readiness wait and no action table; the
      pushed payload carries no site key. */
  function RunClientTag(cfg: ClientConfig, page: ClientPage, sha256: string -> string): (r: seq<Effect>)
    ensures SettlesOnce(r)
    ensures page.eventName == Some("gtm.init") ==>
              r == InitPath(Configuration(cfg.version, cfg.v3SiteKey, cfg.enterpriseSiteKey), page.scriptLoads, LoadedEvent)
    ensures page.eventName != Some("gtm.init") ==>
              r == TokenPath(Configuration(cfg.version, cfg.v3SiteKey, cfg.enterpriseSiteKey), BuildAction(sha256, page.pagePath, page.eventName), page.execution, false)
    ensures page.eventName != Some("gtm.init") ==> forall e :: e in r ==> !e.InjectScript?
    ensures page.eventName != Some("gtm.init") && Configuration(cfg.version, cfg.v3SiteKey, cfg.enterpriseSiteKey).Some? ==>
              r[0] == ExecuteToken(Configuration(cfg.version, cfg.v3SiteKey, cfg.enterpriseSiteKey).value.siteKey,
                                   BuildAction(sha256, page.pagePath, page.eventName))
    ensures page.eventName != Some("gtm.init") && Succeeded in r ==>
              && page.execution.Issued? && |r| == 3
              && r[1] == DataLayerPush(RecaptchaToken(Payload(page.execution.token, BuildAction(sha256, page.pagePath, page.eventName), None)))
  {
    var config := Configuration(cfg.version, cfg.v3SiteKey, cfg.enterpriseSiteKey);
    if page.eventName == Some("gtm.init") then InitPath(config, page.scriptLoads, LoadedEvent)
    else
      var action := BuildAction(sha256, page.pagePath, page.eventName);
      TokenPath(config, action, page.execution, false)
  }

  /** The client tag's init run announces the library with an event only: it leaves the
      data layer's `recaptcha` as it was. */
  lemma ClientInitLeavesRecaptcha(cfg: ClientConfig, page: ClientPage, sha256: string -> string, before: seq<Push>)
    requires page.eventName == Some("gtm.init") && Succeeded in RunClientTag(cfg, page, sha256)
    ensures PushesOf(RunClientTag(cfg, page, sha256)) == [LoadedEvent]
    ensures RecaptchaEntry(before + PushesOf(RunClientTag(cfg, page, sha256))) == RecaptchaEntry(before)
  {
    var config := Configuration(cfg.version, cfg.v3SiteKey, cfg.enterpriseSiteKey);
    assert RunClientTag(cfg, page, sha256) == [InjectScript(LibraryUrl(config.value)), DataLayerPush(LoadedEvent), Succeeded];
    PushesOfSuccess(InjectScript(LibraryUrl(config.value)), LoadedEvent);
    assert (before + [LoadedEvent])[..|before|] == before;
  }
}
