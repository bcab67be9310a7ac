/** The server tag (server_tag.js): on an analytics request carrying reCAPTCHA data it
    fetches one assessment, then optionally re-runs the container with rewritten event
    data and optionally inserts a BigQuery row, and finally calls `gtmOnSuccess` or
    `gtmOnFailure`.

    `runContainer` and `BigQuery.insert` are sinks: a run records what it handed to
    them, and the insert's outcome is a host function. */
module ServerTag {
  import opened Wrappers
  import opened Values
  import opened Backend

  datatype ConnectionInfo = ConnectionInfo(projectId: string, datasetId: string, tableId: string)

  datatype TagConfig = TagConfig(
    backend: BackendConfig,
    attachToEventData: bool,
    outputToBigQuery: bool,
    bigQuery: ConnectionInfo)

  /** A BigQuery row; `timestamp` is the optional column. */
  datatype Row = Row(
    clientId: Option<Value>,
    score: Score,
    reasons: seq<string>,
    extendedVerdictReasons: seq<string>,
    valid: bool,
    invalidReason: string,
    timestamp: Option<string>)

  /** Which GTM callback a run ends with, if any. */
  datatype Callback = NoCallback | OnSuccess | OnFailure

  /** What `processAssessment` handed to its sinks and how it settled. */
  datatype Processed = Processed(
    reemitted: Option<EventData>,
    inserted: Option<(ConnectionInfo, seq<Row>)>,
    callback: Callback)

  /** One run of the tag: the backend requests it sent, what it did with the
      assessment, and the callback it ended with. */
  datatype TagRun = TagRun(requests: seq<HttpRequest>, processed: Option<Processed>, callback: Callback)

  /** A creation time is truthy when present and not the empty string. */
  predicate CreateTimeTruthy(a: Assessment) {
    a.tokenProperties.createTime.Some? && a.tokenProperties.createTime.value != ""
  }

  /** `sendToTags`: drops the raw `recaptcha` field and adds the score and validity. */
  function SendToTags(ev: EventData, a: Assessment): (r: EventData)
    ensures "recaptcha" !in r
    ensures "recaptcha_score" in r && r["recaptcha_score"] == Num(a.riskAnalysis.score)
    ensures "recaptcha_valid" in r && r["recaptcha_valid"] == Bool(a.tokenProperties.valid)
    ensures forall k :: k != "recaptcha" && k != "recaptcha_score" && k != "recaptcha_valid" ==>
              (k in r <==> k in ev) && (k in r ==> r[k] == ev[k])
  {
    (ev - {"recaptcha"})["recaptcha_score" := Num(a.riskAnalysis.score)]["recaptcha_valid" := Bool(a.tokenProperties.valid)]
  }

  /** Rewriting event data a second time with the same assessment changes nothing. */
  lemma SendToTagsIdempotent(ev: EventData, a: Assessment)
    ensures SendToTags(SendToTags(ev, a), a) == SendToTags(ev, a)
  {
    var once := SendToTags(ev, a);
    var twice := SendToTags(once, a);
    assert twice.Keys == once.Keys;
  }

  /** The BigQuery row: score, reasons, validity and invalid reason copied verbatim;
      `timestamp` present exactly when the creation time is truthy. */
  function BigQueryRow(ev: EventData, a: Assessment): (r: Row)
    ensures r.clientId == Field(ev, "client_id")
    ensures r.score == a.riskAnalysis.score && r.reasons == a.riskAnalysis.reasons
    ensures r.extendedVerdictReasons == a.riskAnalysis.extendedVerdictReasons
    ensures r.valid == a.tokenProperties.valid && r.invalidReason == a.tokenProperties.invalidReason
    ensures r.timestamp.Some? <==> CreateTimeTruthy(a)
    ensures r.timestamp.Some? ==> r.timestamp == a.tokenProperties.createTime
  {
    Row(
      Field(ev, "client_id"),
      a.riskAnalysis.score, a.riskAnalysis.reasons, a.riskAnalysis.extendedVerdictReasons,
      a.tokenProperties.valid, a.tokenProperties.invalidReason,
      if CreateTimeTruthy(a) then a.tokenProperties.createTime else None)
  }

  /** `processAssessment`. `sendToTags` rewrites the event data in place, so the row is
      built from the rewritten data; `insert` is the outcome of `BigQuery.insert`. */
  function ProcessAssessment(cfg: TagConfig, ev: EventData, a: Assessment, insert: (ConnectionInfo, seq<Row>) -> bool): (p: Processed)
    ensures p.reemitted.Some? <==> cfg.attachToEventData
    ensures p.reemitted.Some? ==> p.reemitted.value == SendToTags(ev, a)
    ensures p.inserted.Some? <==> cfg.outputToBigQuery
    ensures p.inserted.Some? ==> p.inserted.value.0 == cfg.bigQuery && |p.inserted.value.1| == 1
    ensures p.inserted.Some? ==> p.inserted.value.1 == [BigQueryRow(if cfg.attachToEventData then SendToTags(ev, a) else ev, a)]
    ensures p.inserted.Some? ==> p.inserted.value.1[0].clientId == Field(ev, "client_id")
    ensures p.callback != NoCallback
    ensures p.callback == OnFailure <==> cfg.outputToBigQuery && !insert(p.inserted.value.0, p.inserted.value.1)
  {
    var ev' := if cfg.attachToEventData then SendToTags(ev, a) else ev;
    var reemitted := if cfg.attachToEventData then Some(ev') else None;
    if cfg.outputToBigQuery then
      var rows := [BigQueryRow(ev', a)];
      Processed(reemitted, Some((cfg.bigQuery, rows)), if insert(cfg.bigQuery, rows) then OnSuccess else OnFailure)
    else
      Processed(reemitted, None, OnSuccess)
  }

  /** When the tag both re-emits the event and inserts a row, the two sinks agree: the
      row's score, validity and client id are the ones the re-emitted event carries. */
  lemma RowAgreesWithReemitted(cfg: TagConfig, ev: EventData, a: Assessment, insert: (ConnectionInfo, seq<Row>) -> bool)
    requires cfg.attachToEventData && cfg.outputToBigQuery
    ensures var p := ProcessAssessment(cfg, ev, a, insert);
            var row := p.inserted.value.1[0];
            var out := p.reemitted.value;
            && out["recaptcha_score"] == Num(row.score)
            && out["recaptcha_valid"] == Bool(row.valid)
            && row.clientId == Field(out, "client_id")
            && row.clientId == Field(ev, "client_id")
  {
    var out := SendToTags(ev, a);
    assert Field(out, "client_id") == Field(ev, "client_id");
  }

  /** One run of the tag. `isAnalytics` is `isRequestMpv2()`; `ev` is
      `getAllEventData()`. */
  function RunTag(cfg: TagConfig, isAnalytics: bool, ev: EventData, host: Host, insert: (ConnectionInfo, seq<Row>) -> bool): (r: TagRun)
    ensures !isAnalytics ==> r == TagRun([], None, OnSuccess)
    ensures isAnalytics && !TruthyOpt(Field(ev, "recaptcha")) ==> r == TagRun([], None, NoCallback)
    ensures |r.requests| <= 1
    ensures r.processed.Some? ==> r.callback == r.processed.value.callback && |r.requests| == 1
    ensures isAnalytics && TruthyOpt(Field(ev, "recaptcha")) ==>
              var parsed := host.parseRecaptcha(Field(ev, "recaptcha"));
              && (parsed.None? ==> r == TagRun([], None, OnFailure))
              && (parsed.Some? ==>
                    var req := RequestFor(cfg.backend, Tag, parsed.value, ev, host.encode);
                    && (req.None? ==> r == TagRun([], None, NoCallback))
                    && (req.Some? ==>
                          var out := Assess(cfg.backend, Tag, parsed.value, ev, host);
                          && r.requests == [req.value]
                          && out.Some?
                          && (out.value.Err? ==> r.processed.None? && r.callback == OnFailure)
                          && (out.value.Ok? ==> r.processed == Some(ProcessAssessment(cfg, ev, out.value.value, insert)))))
  {
    if !isAnalytics then TagRun([], None, OnSuccess)
    else if !TruthyOpt(Field(ev, "recaptcha")) then TagRun([], None, NoCallback)
    else
      match host.parseRecaptcha(Field(ev, "recaptcha"))
      case None => TagRun([], None, OnFailure)
      case Some(rc) =>
        match RequestFor(cfg.backend, Tag, rc, ev, host.encode)
        case None => TagRun([], None, NoCallback)
        case Some(req) =>
          match Assess(cfg.backend, Tag, rc, ev, host).value
          case Err(_) => TagRun([req], None, OnFailure)
          case Ok(a) =>
            var p := ProcessAssessment(cfg, ev, a, insert);
            TagRun([req], Some(p), p.callback)
  }

  /** An analytics run with reCAPTCHA data settles neither way exactly when the version
      selects no backend, and then sends nothing. A run that reaches
      `processAssessment` sent exactly the request `RequestFor` builds, and the backend
      answered it with status 200. */
  lemma RunTagSettles(cfg: TagConfig, ev: EventData, host: Host, insert: (ConnectionInfo, seq<Row>) -> bool)
    requires TruthyOpt(Field(ev, "recaptcha"))
    ensures var r := RunTag(cfg, true, ev, host, insert);
            var parsed := host.parseRecaptcha(Field(ev, "recaptcha"));
            && (r.callback == NoCallback <==> parsed.Some? && cfg.backend.version != "v3" && cfg.backend.version != "enterprise")
            && (r.callback == NoCallback ==> r.requests == [])
            && (r.processed.Some? ==>
                  && parsed.Some?
                  && r.requests == [RequestFor(cfg.backend, Tag, parsed.value, ev, host.encode).value]
                  && host.send(r.requests[0]).Some? && host.send(r.requests[0]).value.statusCode == 200)
  {
    var r := RunTag(cfg, true, ev, host, insert);
    var parsed := host.parseRecaptcha(Field(ev, "recaptcha"));
    if parsed.Some? {
      var rc := parsed.value;
      var req := RequestFor(cfg.backend, Tag, rc, ev, host.encode);
      if req.Some? {
        AssessGate(cfg.backend, Tag, rc, ev, host);
      }
    }
  }
}
