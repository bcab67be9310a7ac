/** What the two browser templates (web_tag.js and client_tag.js) share: the per-version
    library table, the data layer they read and push to, and the effects a run has on
    the page. Their `injectLibrary` and `getToken` are identical and are defined once
    here; `saveToDataLayer` differs only in whether the payload carries the site key. */
module PageConfig {
  import opened Wrappers
  import opened Text

  /** One entry of the `configurations` table. */
  datatype LibraryConfig = LibraryConfig(
    library: string,
    siteKey: string,
    readyMethod: string,
    executeMethod: string)

  const LibraryRoot := "https://www.google.com/recaptcha/"
  const V3Library := LibraryRoot + "api.js"
  const EnterpriseLibrary := LibraryRoot + "enterprise.js"

  /** `configurations[data.version]`: `undefined` (`None`) for any version other than
      `v3` and `enterprise`; otherwise the version's library and methods with the site
      key configured for that version. */
  function Configuration(version: string, v3SiteKey: string, enterpriseSiteKey: string): (r: Option<LibraryConfig>)
    ensures r.Some? <==> version == "v3" || version == "enterprise"
    ensures version == "v3" ==> r.value.siteKey == v3SiteKey && r.value.library == V3Library
    ensures version == "enterprise" ==> r.value.siteKey == enterpriseSiteKey && r.value.library == EnterpriseLibrary
  {
    if version == "v3" then
      Some(LibraryConfig(V3Library, v3SiteKey, "grecaptcha.ready", "grecaptcha.execute"))
    else if version == "enterprise" then
      Some(LibraryConfig(EnterpriseLibrary, enterpriseSiteKey, "grecaptcha.enterprise.ready", "grecaptcha.enterprise.execute"))
    else
      None
  }

  /** Neither library URL has a query of its own. */
  lemma LibrariesHaveNoQuery()
    ensures '?' !in V3Library && '?' !in EnterpriseLibrary
  {
    assert forall i :: 0 <= i < |LibraryRoot| ==> LibraryRoot[i] != '?';
    assert '?' !in "api.js" && '?' !in "enterprise.js";
  }

  /** The script `injectLibrary` loads: the library with the site key as `render`. */
  function LibraryUrl(c: LibraryConfig): string {
    c.library + "?render=" + c.siteKey
  }

  /** The site key can be read back from the script URL: the first `?` ends the library
      path, and the site key is everything after `?render=`. */
  lemma LibraryUrlRecoversSiteKey(c: LibraryConfig)
    requires '?' !in c.library
    ensures var url := LibraryUrl(c);
            && '?' in url
            && url[..FirstPos(url, '?')] == c.library
            && url[FirstPos(url, '?')..FirstPos(url, '?') + 8] == "?render="
            && url[FirstPos(url, '?') + 8..] == c.siteKey
  {
    var url := LibraryUrl(c);
    assert url == c.library + ['?'] + ("render=" + c.siteKey);
    FirstPosAfterPrefix(c.library, '?', "render=" + c.siteKey);
    assert FirstPos(url, '?') == |c.library|;
  }

  /** The script a run injects names exactly the site key configured for its version. */
  lemma ScriptUrlNamesVersionSiteKey(version: string, v3SiteKey: string, enterpriseSiteKey: string)
    requires Configuration(version, v3SiteKey, enterpriseSiteKey).Some?
    ensures var url := LibraryUrl(Configuration(version, v3SiteKey, enterpriseSiteKey).value);
            && '?' in url && FirstPos(url, '?') + 8 <= |url|
            && url[FirstPos(url, '?') + 8..] == (if version == "v3" then v3SiteKey else enterpriseSiteKey)
  {
    LibrariesHaveNoQuery();
    LibraryUrlRecoversSiteKey(Configuration(version, v3SiteKey, enterpriseSiteKey).value);
  }

  // ---------------------------------------------------------------- the data layer

  /** The object `saveToDataLayer` serialises under `recaptcha`. */
  datatype Payload = Payload(token: string, action: string, siteKey: Option<string>)

  /** A data-layer push: the three the templates make, and any push by the page. */
  datatype Push =
    | RecaptchaLoaded                        // {recaptcha: 'loaded'}
    | RecaptchaToken(payload: Payload)       // {recaptcha: JSON.stringify(payload)}
    | LoadedEvent                            // {event: 'reCAPTCHA Loaded'}
    | PagePush(fields: map<string, string>)  // anything else on the page

  /** What the data layer's model holds under `recaptcha`. */
  datatype Entry = LoadedLiteral | Serialised(p: Payload) | PageString(s: string)

  /** The value `copyFromDataLayer('recaptcha')` reads after `pushes`: the one set by
      the latest push that sets the key. */
  function RecaptchaEntry(pushes: seq<Push>): Option<Entry>
    decreases |pushes|
  {
    if pushes == [] then None
    else
      match pushes[|pushes| - 1]
      case RecaptchaLoaded => Some(LoadedLiteral)
      case RecaptchaToken(p) => Some(Serialised(p))
      case PagePush(fields) =>
        if "recaptcha" in fields then Some(PageString(fields["recaptcha"]))
        else RecaptchaEntry(pushes[..|pushes| - 1])
      case LoadedEvent => RecaptchaEntry(pushes[..|pushes| - 1])
  }

  /** A push that sets `recaptcha`. */
  predicate SetsRecaptcha(p: Push) {
    p.RecaptchaLoaded? || p.RecaptchaToken? || (p.PagePush? && "recaptcha" in p.fields)
  }

  /** `dataLayer.get('recaptcha') ? true : false`. The literal 'loaded' and the JSON text
      of an object are non-empty strings, so both are truthy. */
  predicate RecaptchaTruthy(pushes: seq<Push>) {
    match RecaptchaEntry(pushes)
    case None => false
    case Some(PageString(s)) => s != ""
    case Some(_) => true
  }

  /** Once a template has pushed `recaptcha`, the key stays truthy until some later push
      sets it again. */
  lemma {:induction false} RecaptchaPushSticks(before: seq<Push>, p: Push, later: seq<Push>)
    requires p.RecaptchaLoaded? || p.RecaptchaToken?
    requires forall j :: 0 <= j < |later| ==> !SetsRecaptcha(later[j])
    ensures RecaptchaTruthy(before + [p] + later)
    ensures RecaptchaEntry(before + [p] + later) == RecaptchaEntry([p])
    decreases |later|
  {
    var all := before + [p] + later;
    if later == [] {
      assert all[..|all| - 1] == before;
    } else {
      var init := later[..|later| - 1];
      assert all[..|all| - 1] == before + [p] + init;
      assert all[|all| - 1] == later[|later| - 1];
      RecaptchaPushSticks(before, p, init);
    }
  }

  // ---------------------------------------------------------------- effects on the page

  /** What the token request resolved with: `execute(...)` either yields a token or
      rejects. */
  datatype Execution = Issued(token: string) | Refused

  /** The observable effects of one run, in order. `Threw` is an uncaught exception. */
  datatype Effect =
    | InjectScript(url: string)
    | DataLayerPush(push: Push)
    | ExecuteToken(siteKey: string, action: string)
    | Succeeded   // data.gtmOnSuccess()
    | Failed      // data.gtmOnFailure()
    | Threw

  predicate Terminal(e: Effect) {
    e == Succeeded || e == Failed || e == Threw
  }

  /** A run settles exactly once: it ends with one success, failure or exception and
      nothing terminal precedes it. */
  predicate SettlesOnce(effects: seq<Effect>) {
    && |effects| >= 1
    && Terminal(effects[|effects| - 1])
    && forall j :: 0 <= j < |effects| - 1 ==> !Terminal(effects[j])
  }

  /** The data-layer pushes among a run's effects, in order. */
  function PushesOf(effects: seq<Effect>): (r: seq<Push>)
    ensures |r| <= |effects|
    ensures forall p :: p in r <==> DataLayerPush(p) in effects
    decreases |effects|
  {
    if effects == [] then []
    else if effects[0].DataLayerPush? then [effects[0].push] + PushesOf(effects[1..])
    else
      assert forall e :: e in effects <==> e == effects[0] || e in effects[1..];
      PushesOf(effects[1..])
  }

  /** A successful run's effects hold one push, between the call that leads up to it
      and the success callback. */
  lemma PushesOfSuccess(first: Effect, p: Push)
    requires !first.DataLayerPush?
    ensures PushesOf([first, DataLayerPush(p), Succeeded]) == [p]
  {
    var e := [first, DataLayerPush(p), Succeeded];
    assert e[1..][1..][1..] == [];
    assert PushesOf([Succeeded]) == [];
    assert PushesOf([DataLayerPush(p), Succeeded]) == [p] + PushesOf([Succeeded]);
    assert e[1..] == [DataLayerPush(p), Succeeded];
  }

  /** `injectLibrary` followed by the init callback, which pushes `announce` and then
      succeeds. With no configuration `config.library` throws; if the script fails to
      load the run fails and pushes nothing. */
  function InitPath(config: Option<LibraryConfig>, scriptLoads: bool, announce: Push): (r: seq<Effect>)
    ensures SettlesOnce(r)
    ensures config.None? <==> r == [Threw]
    ensures Succeeded in r <==> config.Some? && scriptLoads
    ensures Succeeded in r ==> r == [InjectScript(LibraryUrl(config.value)), DataLayerPush(announce), Succeeded]
    ensures config.Some? && !scriptLoads ==> r == [InjectScript(LibraryUrl(config.value)), Failed]
    ensures forall e :: e in r && e.DataLayerPush? ==> e.push == announce
  {
    match config
    case None => [Threw]
    case Some(c) =>
      if scriptLoads then [InjectScript(LibraryUrl(c)), DataLayerPush(announce), Succeeded]
      else [InjectScript(LibraryUrl(c)), Failed]
  }

  /** `getToken(action, ...)` followed by `saveToDataLayer`: with no configuration
      `config.readyMethod` throws; otherwise the library's `execute` is called with the
      configured site key and the action, and an issued token is pushed before
      succeeding. The payload holds the site key only when `withSiteKey`. */
  function TokenPath(config: Option<LibraryConfig>, action: string, exec: Execution, withSiteKey: bool): (r: seq<Effect>)
    ensures SettlesOnce(r)
    ensures config.None? <==> r == [Threw]
    ensures config.Some? ==> r[0] == ExecuteToken(config.value.siteKey, action)
    ensures forall e :: e in r ==> !e.InjectScript?
    ensures Succeeded in r <==> config.Some? && exec.Issued?
    ensures Succeeded in r ==>
              var sk := if withSiteKey then Some(config.value.siteKey) else None;
              r == [ExecuteToken(config.value.siteKey, action), DataLayerPush(RecaptchaToken(Payload(exec.token, action, sk))), Succeeded]
    ensures config.Some? && exec.Refused? ==> r == [ExecuteToken(config.value.siteKey, action), Failed]
  {
    match config
    case None => [Threw]
    case Some(c) =>
      match exec
      case Issued(t) =>
        var sk := if withSiteKey then Some(c.siteKey) else None;
        [ExecuteToken(c.siteKey, action), DataLayerPush(RecaptchaToken(Payload(t, action, sk))), Succeeded]
      case Refused => [ExecuteToken(c.siteKey, action), Failed]
  }
}
