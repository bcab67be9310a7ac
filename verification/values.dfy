/** The JavaScript values the server templates pass around: event data, the stored
    cache values, and the common assessment shape both verification backends are
    normalised to. */
module Values {
  import opened Wrappers

  /** A risk score. It is a JavaScript number that the templates only copy and test
      for truthiness, so the model keeps it opaque: `Zero` is the falsy score 0, and
      `NonZero(ident)` stands for any other score, identified by `ident`. */
  datatype Score = Zero | NonZero(ident: nat)

  datatype RiskAnalysis = RiskAnalysis(
    score: Score,
    reasons: seq<string>,
    extendedVerdictReasons: seq<string>)

  /** `createTime`, `hostname` and `action` may be missing (`undefined`) or `null`;
      both read as `None`. */
  datatype TokenProperties = TokenProperties(
    valid: bool,
    invalidReason: string,
    createTime: Option<string>,
    hostname: Option<string>,
    action: Option<string>)

  /** The `event` object an enterprise assessment echoes back. */
  datatype AssessmentEvent = AssessmentEvent(
    token: Option<string>,
    siteKey: Option<string>,
    expectedAction: Option<string>,
    userIpAddress: Option<string>,
    userAgent: Option<string>)

  /** The common assessment shape. Site-verify assessments carry no `event`. */
  datatype Assessment = Assessment(
    riskAnalysis: RiskAnalysis,
    tokenProperties: TokenProperties,
    event: Option<AssessmentEvent>)

  /** A JavaScript value as it appears in event data or in template storage.
      `undefined` is the absence of a value (`None` or a missing map key). */
  datatype Value = Null | Bool(b: bool) | Num(n: Score) | Str(s: string) | Object(a: Assessment)

  /** JavaScript truthiness. */
  predicate Truthy(v: Value) {
    match v
    case Null => false
    case Bool(b) => b
    case Num(n) => n.NonZero?
    case Str(s) => s != ""
    case Object(_) => true
  }

  /** Truthiness of a value that may be `undefined`. */
  predicate TruthyOpt(v: Option<Value>) {
    v.Some? && Truthy(v.value)
  }

  /** The data of one inbound event, as `getAllEventData` returns it. */
  type EventData = map<string, Value>

  /** `eventData[name]`. */
  function Field(ev: EventData, name: string): Option<Value> {
    if name in ev then Some(ev[name]) else None
  }

  /** `eventData[name]` where the templates use it as a string. */
  function StringField(ev: EventData, name: string): Option<string> {
    match Field(ev, name)
    case Some(Str(s)) => Some(s)
    case _ => None
  }

  /** The object `JSON.parse(eventData.recaptcha)` yields. */
  datatype RecaptchaData = RecaptchaData(
    token: Option<string>,
    action: Option<string>,
    siteKey: Option<string>)
}
