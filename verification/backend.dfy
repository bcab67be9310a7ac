/** Backend request building and response normalisation, shared by the server tag
    (server_tag.js) and the server variable (server_variable.js). The two copies behave
    the same apart from the `assessmentEnvironment` the variable adds to the
    enterprise request body; their logging and the name of the `JSON` module differ.

    Host capabilities the source calls but this model cannot see (`sendHttpRequest`,
    `JSON.parse`, `encodeUriComponent`) are the function-typed fields of `Host`. */
module Backend {
  import opened Wrappers
  import opened Text
  import opened Values

  const SiteVerifyUrl := "https://www.google.com/recaptcha/api/siteverify"
  const EnterpriseApiUrl := "https://recaptchaenterprise.googleapis.com/v1"
  const RequestTimeoutMs := 5000
  const JsonContentType := "application/json; charset=utf-8"
  /** The creation time the enterprise API reports when it has none. */
  const EpochZero := "1970-01-01T00:00:00Z"

  /** Which template builds the request. */
  datatype Caller = Tag | Variable

  datatype AssessmentEnvironment = AssessmentEnvironment(client: string, version: string)

  /** The environment only the variable reports to the enterprise API. */
  const VariableEnvironment := AssessmentEnvironment(
    "server-side-google-tag-manager",
    "github-gcp-recaptcha-enterprise-google-tag-manager-1.0.0")

  datatype RequestEvent = RequestEvent(
    token: Option<string>,
    siteKey: Option<string>,
    expectedAction: Option<string>,
    userIpAddress: Option<string>,
    userAgent: Option<string>)

  /** The enterprise request body before `JSON.stringify`. */
  datatype EnterpriseBody = EnterpriseBody(
    event: RequestEvent,
    assessmentEnvironment: Option<AssessmentEnvironment>)

  datatype HttpRequest = HttpRequest(
    url: string,
    httpMethod: string,
    timeoutMs: nat,
    contentType: Option<string>,
    authorized: bool,
    body: Option<EnterpriseBody>)

  datatype HttpResponse = HttpResponse(statusCode: int, body: string)

  /** Why a backend promise rejects: a non-200 reply (with its body), a transport
      failure or timeout of `sendHttpRequest`, or an exception thrown while handling
      the reply. */
  datatype Rejection = StatusRejected(body: string) | TransportFailed | Thrown

  /** The fields of a site-verify reply the templates read. */
  datatype SiteVerifyReply = SiteVerifyReply(
    success: bool,
    score: Score,
    action: Option<string>,
    challengeTs: Option<string>,
    hostname: Option<string>)

  /** The template settings the backends read. */
  datatype BackendConfig = BackendConfig(version: string, secretKey: string, cloudProjectId: string)

  /** Host capabilities: `send` is `sendHttpRequest` (`None` when it rejects or times
      out); the parsers are `JSON.parse` (`None` when it throws or the parsed value
      lacks a field the code dereferences); `encode` is `encodeUriComponent`. */
  datatype Host = Host(
    send: HttpRequest -> Option<HttpResponse>,
    parseRecaptcha: Option<Value> -> Option<RecaptchaData>,
    parseSiteVerify: string -> Option<SiteVerifyReply>,
    parseEnterprise: string -> Option<Assessment>,
    encode: string -> string)

  // ---------------------------------------------------------------- query strings

  /** `String(value)` for a query value that may be `undefined`. */
  function QueryValue(v: Option<string>): string {
    v.GetOr("undefined")
  }

  /** The `key=value` segments `buildQueryString` pushes, one per field, in field order. */
  function Segments(fields: seq<(string, string)>, encode: string -> string): (r: seq<string>)
    ensures |r| == |fields|
    ensures forall i :: 0 <= i < |fields| ==> r[i] == encode(fields[i].0) + "=" + encode(fields[i].1)
  {
    if fields == [] then []
    else [encode(fields[0].0) + "=" + encode(fields[0].1)] + Segments(fields[1..], encode)
  }

  /** `buildQueryString`: the encoded segments joined by `&`. */
  function BuildQueryString(fields: seq<(string, string)>, encode: string -> string): string {
    Join(Segments(fields, encode), '&')
  }

  /** A query-string segment split at its first `=`. */
  function SplitPair(seg: string): (string, string) {
    if '=' in seg then
      var i := FirstPos(seg, '=');
      (seg[..i], seg[i + 1..])
    else (seg, "")
  }

  /** Reads a query string back into encoded key/value pairs. */
  function ParseQuery(q: string): seq<(string, string)> {
    var segs := Split(q, '&');
    seq(|segs|, i requires 0 <= i < |segs| => SplitPair(segs[i]))
  }

  /** What `encodeUriComponent` guarantees of its output: no `&` and no `=`. */
  predicate Encoded(s: string) {
    '&' !in s && '=' !in s
  }

  /** Every field's key and value encode to text free of `&` and `=`. */
  predicate EncodesCleanly(fields: seq<(string, string)>, encode: string -> string) {
    forall i :: 0 <= i < |fields| ==> Encoded(encode(fields[i].0)) && Encoded(encode(fields[i].1))
  }

  lemma SplitPairOfSegment(a: string, b: string)
    requires '=' !in a
    ensures SplitPair(a + "=" + b) == (a, b)
  {
    assert a + "=" + b == a + ['='] + b;
    FirstPosAfterPrefix(a, '=', b);
    var s := a + ['='] + b;
    assert s[..|a|] == a;
    assert s[|a| + 1..] == b;
  }

  /** The query string holds one `encode(key)=encode(value)` segment per field, in
      field order, and nothing else: reading it back yields exactly the encoded pairs. */
  lemma QueryRoundTrip(fields: seq<(string, string)>, encode: string -> string)
    requires |fields| >= 1
    requires EncodesCleanly(fields, encode)
    ensures ParseQuery(BuildQueryString(fields, encode))
         == seq(|fields|, i requires 0 <= i < |fields| => (encode(fields[i].0), encode(fields[i].1)))
  {
    var segs := Segments(fields, encode);
    forall i | 0 <= i < |segs|
      ensures '&' !in segs[i]
    {
      assert segs[i] == encode(fields[i].0) + "=" + encode(fields[i].1);
    }
    SplitJoin(segs, '&');
    forall i | 0 <= i < |segs|
      ensures SplitPair(segs[i]) == (encode(fields[i].0), encode(fields[i].1))
    {
      SplitPairOfSegment(encode(fields[i].0), encode(fields[i].1));
    }
  }

  // ---------------------------------------------------------------- requests

  /** The fields of the site-verify query, in the order the object literal lists them. */
  function SiteVerifyFields(secret: string, rc: RecaptchaData, ev: EventData): seq<(string, string)> {
    [("secret", secret), ("response", QueryValue(rc.token)), ("remoteip", QueryValue(StringField(ev, "ip_override")))]
  }

  /** The site-verify call: a POST with the query in the URL and no body. */
  function SiteVerifyRequest(secret: string, rc: RecaptchaData, ev: EventData, encode: string -> string): (r: HttpRequest)
    ensures r.httpMethod == "POST" && r.timeoutMs == RequestTimeoutMs && r.body.None? && !r.authorized
    ensures r.url == SiteVerifyUrl + "?" + BuildQueryString(SiteVerifyFields(secret, rc, ev), encode)
  {
    HttpRequest(
      SiteVerifyUrl + "?" + BuildQueryString(SiteVerifyFields(secret, rc, ev), encode),
      "POST", RequestTimeoutMs, None, false, None)
  }

  /** The query of the site-verify URL reads back as `secret`, `response`, `remoteip`,
      in that order, each key and value encoded. */
  lemma SiteVerifyQueryOrder(secret: string, rc: RecaptchaData, ev: EventData, encode: string -> string)
    requires EncodesCleanly(SiteVerifyFields(secret, rc, ev), encode)
    ensures var url := SiteVerifyRequest(secret, rc, ev, encode).url;
            |url| > |SiteVerifyUrl| && url[..|SiteVerifyUrl| + 1] == SiteVerifyUrl + "?"
            && ParseQuery(url[|SiteVerifyUrl| + 1..])
               == [(encode("secret"), encode(secret)),
                   (encode("response"), encode(QueryValue(rc.token))),
                   (encode("remoteip"), encode(QueryValue(StringField(ev, "ip_override"))))]
  {
    var fields := SiteVerifyFields(secret, rc, ev);
    var q := BuildQueryString(fields, encode);
    var url := SiteVerifyUrl + "?" + q;
    assert url[..|SiteVerifyUrl| + 1] == SiteVerifyUrl + "?";
    assert url[|SiteVerifyUrl| + 1..] == q;
    QueryRoundTrip(fields, encode);
  }

  function EnterpriseUrl(projectId: string): string {
    EnterpriseApiUrl + "/projects/" + projectId + "/assessments"
  }

  /** The enterprise call: an authorised JSON POST to the project's assessments
      endpoint. The variable's body adds `assessmentEnvironment`; the tag's does not. */
  function EnterpriseRequest(caller: Caller, projectId: string, rc: RecaptchaData, ev: EventData): (r: HttpRequest)
    ensures r.url == EnterpriseUrl(projectId) && r.httpMethod == "POST" && r.authorized
    ensures r.timeoutMs == RequestTimeoutMs && r.contentType == Some(JsonContentType)
    ensures r.body.Some?
    ensures r.body.value.event.token == rc.token && r.body.value.event.siteKey == rc.siteKey
    ensures r.body.value.event.expectedAction == rc.action
    ensures r.body.value.event.userIpAddress == StringField(ev, "ip_override")
    ensures r.body.value.event.userAgent == StringField(ev, "user_agent")
    ensures r.body.value.assessmentEnvironment.Some? <==> caller == Variable
    ensures r.body.value.assessmentEnvironment.Some? ==> r.body.value.assessmentEnvironment.value == VariableEnvironment
  {
    var event := RequestEvent(rc.token, rc.siteKey, rc.action, StringField(ev, "ip_override"), StringField(ev, "user_agent"));
    var env := if caller == Variable then Some(VariableEnvironment) else None;
    HttpRequest(EnterpriseUrl(projectId), "POST", RequestTimeoutMs, Some(JsonContentType), true, Some(EnterpriseBody(event, env)))
  }

  /** The `switch (data.version)`: a request for `v3` and `enterprise`, none otherwise
      (there is no `default` branch). */
  function RequestFor(cfg: BackendConfig, caller: Caller, rc: RecaptchaData, ev: EventData, encode: string -> string): (r: Option<HttpRequest>)
    ensures r.Some? <==> cfg.version == "v3" || cfg.version == "enterprise"
    ensures cfg.version == "v3" ==> r == Some(SiteVerifyRequest(cfg.secretKey, rc, ev, encode))
    ensures cfg.version == "enterprise" ==> r == Some(EnterpriseRequest(caller, cfg.cloudProjectId, rc, ev))
  {
    match cfg.version
    case "v3" => Some(SiteVerifyRequest(cfg.secretKey, rc, ev, encode))
    case "enterprise" => Some(EnterpriseRequest(caller, cfg.cloudProjectId, rc, ev))
    case _ => None
  }

  // ---------------------------------------------------------------- responses

  /** Maps a site-verify reply to the common assessment shape. */
  function NormaliseSiteVerify(reply: SiteVerifyReply, expectedAction: Option<string>): (a: Assessment)
    ensures a.tokenProperties.valid <==> reply.action == expectedAction && reply.success
    ensures a.riskAnalysis.score == reply.score
    ensures a.riskAnalysis.reasons == [] && a.riskAnalysis.extendedVerdictReasons == []
    ensures a.tokenProperties.invalidReason == ""
    ensures a.tokenProperties.createTime == reply.challengeTs
    ensures a.tokenProperties.hostname == reply.hostname
    ensures a.tokenProperties.action == reply.action
    ensures a.event.None?
  {
    Assessment(
      RiskAnalysis(reply.score, [], []),
      TokenProperties(reply.action == expectedAction && reply.success, "", reply.challengeTs, reply.hostname, reply.action),
      None)
  }

  /** Enterprise post-processing: the action re-check is ANDed into validity and an
      epoch-zero creation time becomes null. An assessment without `event` makes the
      re-check throw. */
  function PostProcessEnterprise(a: Assessment): (r: Result<Assessment, Rejection>)
    ensures r.Ok? <==> a.event.Some?
    ensures r.Err? ==> r.error == Thrown
    ensures r.Ok? ==> (r.value.tokenProperties.valid ==> a.tokenProperties.valid)
    ensures r.Ok? ==> (r.value.tokenProperties.valid != a.tokenProperties.valid
                       <==> a.tokenProperties.valid && a.tokenProperties.action != a.event.value.expectedAction)
    ensures r.Ok? ==> r.value.tokenProperties.createTime
                      == (if a.tokenProperties.createTime == Some(EpochZero) then None else a.tokenProperties.createTime)
    ensures r.Ok? ==> r.value.riskAnalysis == a.riskAnalysis && r.value.event == a.event
    ensures r.Ok? ==> r.value.tokenProperties.(valid := a.tokenProperties.valid, createTime := a.tokenProperties.createTime)
                      == a.tokenProperties
  {
    match a.event
    case None => Err(Thrown)
    case Some(e) =>
      var actionMatches := a.tokenProperties.action == e.expectedAction;
      var tp := a.tokenProperties.(valid := actionMatches && a.tokenProperties.valid);
      var tp' := if tp.createTime == Some(EpochZero) then tp.(createTime := None) else tp;
      Ok(a.(tokenProperties := tp'))
  }

  /** Post-processing an already post-processed assessment changes nothing. */
  lemma PostProcessIdempotent(a: Assessment)
    requires a.event.Some?
    ensures PostProcessEnterprise(PostProcessEnterprise(a).value) == PostProcessEnterprise(a)
  {
  }

  /** The status gate both backends apply: a 200 reply is interpreted, any other
      status rejects with the response body, and a failed send rejects. */
  function StatusGate(sent: Option<HttpResponse>, interpret: string -> Result<Assessment, Rejection>): (r: Result<Assessment, Rejection>)
    ensures sent.None? ==> r == Err(TransportFailed)
    ensures sent.Some? && sent.value.statusCode != 200 ==> r == Err(StatusRejected(sent.value.body))
    ensures sent.Some? && sent.value.statusCode == 200 ==> r == interpret(sent.value.body)
  {
    match sent
    case None => Err(TransportFailed)
    case Some(resp) => if resp.statusCode == 200 then interpret(resp.body) else Err(StatusRejected(resp.body))
  }

  /** `getAssessmentFromSiteVerify` given what the send produced. */
  function SiteVerifyOutcome(sent: Option<HttpResponse>, parse: string -> Option<SiteVerifyReply>, expectedAction: Option<string>): (r: Result<Assessment, Rejection>)
  {
    StatusGate(sent, body =>
      match parse(body)
      case None => Err(Thrown)
      case Some(reply) => Ok(NormaliseSiteVerify(reply, expectedAction)))
  }

  /** `getAssessmentFromEnterpriseAPI` given what the send produced. */
  function EnterpriseOutcome(sent: Option<HttpResponse>, parse: string -> Option<Assessment>): (r: Result<Assessment, Rejection>)
  {
    StatusGate(sent, body =>
      match parse(body)
      case None => Err(Thrown)
      case Some(a) => PostProcessEnterprise(a))
  }

  /** The backend call of either template: `None` when the version selects no backend
      (the promise never settles), otherwise the settled outcome of the one request. */
  function Assess(cfg: BackendConfig, caller: Caller, rc: RecaptchaData, ev: EventData, host: Host): (r: Option<Result<Assessment, Rejection>>)
  {
    match RequestFor(cfg, caller, rc, ev, host.encode)
    case None => None
    case Some(req) =>
      if cfg.version == "v3" then Some(SiteVerifyOutcome(host.send(req), host.parseSiteVerify, rc.action))
      else Some(EnterpriseOutcome(host.send(req), host.parseEnterprise))
  }

  /** Both backends resolve only on a 200 reply and reject with the body on any other
      status; a version with no backend settles neither way. */
  lemma AssessGate(cfg: BackendConfig, caller: Caller, rc: RecaptchaData, ev: EventData, host: Host)
    ensures var req := RequestFor(cfg, caller, rc, ev, host.encode);
            var r := Assess(cfg, caller, rc, ev, host);
            && (r.None? <==> cfg.version != "v3" && cfg.version != "enterprise")
            && (r.Some? ==>
                  var sent := host.send(req.value);
                  && (r.value.Ok? ==> sent.Some? && sent.value.statusCode == 200)
                  && (sent.Some? && sent.value.statusCode != 200 ==> r.value == Err(StatusRejected(sent.value.body)))
                  && (sent.None? ==> r.value == Err(TransportFailed)))
  {
  }

  /** A resolved site-verify assessment carries no `event` and can be valid only if
      its action is the expected one; a resolved enterprise assessment can be valid
      only if its echoed expected action matches the token's action, and never keeps
      the epoch-zero creation time. */
  lemma AssessValidity(cfg: BackendConfig, caller: Caller, rc: RecaptchaData, ev: EventData, host: Host)
    requires Assess(cfg, caller, rc, ev, host).Some? && Assess(cfg, caller, rc, ev, host).value.Ok?
    ensures var a := Assess(cfg, caller, rc, ev, host).value.value;
            && (cfg.version == "v3" ==> a.event.None? && (a.tokenProperties.valid ==> a.tokenProperties.action == rc.action))
            && (cfg.version == "enterprise" ==> a.event.Some? && (a.tokenProperties.valid ==> a.tokenProperties.action == a.event.value.expectedAction))
            && (cfg.version == "enterprise" ==> a.tokenProperties.createTime != Some(EpochZero))
  {
    var req := RequestFor(cfg, caller, rc, ev, host.encode).value;
    var sent := host.send(req);
    var r := Assess(cfg, caller, rc, ev, host).value;
    if cfg.version == "enterprise" {
      assert r == EnterpriseOutcome(sent, host.parseEnterprise);
      assert sent.Some? && sent.value.statusCode == 200;
      var parsed := host.parseEnterprise(sent.value.body);
      assert parsed.Some? && r == PostProcessEnterprise(parsed.value);
    } else {
      assert r == SiteVerifyOutcome(sent, host.parseSiteVerify, rc.action);
      assert sent.Some? && sent.value.statusCode == 200;
      var parsed := host.parseSiteVerify(sent.value.body);
      assert parsed.Some? && r == Ok(NormaliseSiteVerify(parsed.value, rc.action));
    }
  }
}
