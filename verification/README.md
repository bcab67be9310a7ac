# reCAPTCHA templates for Google Tag Manager — a verified model

This project models the four Google Tag Manager templates that attach reCAPTCHA
assessments to tagged traffic:

- **the server variable** (`server_variable.js`): it fetches an assessment once per
  inbound analytics event and serves it to every evaluation of the variable through a
  per-event cache in template storage. The literal `'PROCESSING'` marks a key whose
  assessment is being fetched.
- **the server tag** (`server_tag.js`): it fetches an assessment, then re-runs the
  container with rewritten event data and/or inserts a BigQuery row.
- **the web tag** (`web_tag.js`): it loads the reCAPTCHA library on `gtm.init`. On any
  other event it waits for the library, picks the action configured for the firing
  trigger, and pushes a token to the data layer.
- **the client tag** (`client_tag.js`): it loads the library on `gtm.init`. Otherwise
  it derives the action from a SHA-256 hash of the page path and event name, then pushes
  a token.

Modules, one per file:

| module | file | what it holds |
|---|---|---|
| `Wrappers` | wrappers.dfy | `Option`, `Result` |
| `Text` | text.dfy | the JavaScript string operations the templates use: `indexOf`, `replace` with a string pattern, `join`/`split` |
| `Values` | values.dfy | event data, JavaScript truthiness, the common assessment shape; the score is opaque (`Zero` is falsy, `NonZero` is any other number) |
| `Backend` | backend.dfy | request building and response normalisation for both backends. The functions in the tag and the variable behave identically apart from `assessmentEnvironment`, which only the variable's enterprise body adds; their logging and the name of the `JSON` module differ. They are modelled once, and a `Caller` tells the two apart |
| `ServerTag` | server_tag.dfy | a run of the server tag, `processAssessment`, `sendToTags`, the BigQuery row |
| `AssessmentCache` | assessment_cache.dfy | the variable's cache as a transition system |
| `CacheTheorems` | cache_theorems.dfy | invariants and trace properties of that transition system |
| `PageConfig` | page_config.dfy | what the two browser tags share: the library table, the data layer, `injectLibrary`/`getToken`, a run's effects on the page |
| `WebTag` | web_tag.dfy | `getAction`, `waitLibraryLoaded`, `injectToken`, a run of the web tag |
| `ClientTag` | client_tag.dfy | `buildAction` and a run of the client tag |

### The cache as a transition system

The host runs one callback at a time to completion, so each promise turn is one atomic
transition over a shared state:

- `store`: template storage, a map from key to value;
- `callbacks`: a multiset of pending end-of-event removals;
- `procs`: the evaluations of the variable, each with a program counter;
- `calls`: every backend request sent.

The transitions are:

- `Spawn`: a new evaluation starts.
- `Read`: one poll of `storage.get`.
- `Hit` or `Claim`: the `.then` of the read.
- `Complete` or `Fail`: the backend settles.
- `Handle`: the top-level success handler runs.
- `Cleanup`: one end-of-event callback runs.

`Run` applies a label sequence, and every property of an interleaving is a lemma over
such sequences.

### What the cache does not guarantee

The cache coalesces evaluations only in part:

- **A failure does not free the key.** A failed backend call leaves `'PROCESSING'` in
  storage (server_variable.js:83-86, 108-110). Only the end-of-event callback removes
  it. Until then, evaluations of the same event keep polling and never retry
  (`FailureKeepsWaitersWaiting`, `CleanupReleasesWaiter`).
- **Reading and claiming are separate turns.** The read (line 48) and the marker write
  (line 108) happen in separate turns. Two evaluations that both read before either
  claims both call the backend, and both register a removal (`RaceSendsTwoRequests`).
  So "at most one backend call per key" and "one callback per key" do not hold in
  general. `MarkerPersists` proves what does hold: after a claim, no new read of the key
  happens until the marker is released, and every further request for the key comes
  from a read that preceded the claim.
- **A hit is decided by truthiness.** A stored score of `0` is a miss and triggers a new
  fetch (`ZeroScoreIsMiss`).
- **The success handler also runs on cached values.** In score mode the first
  evaluation stores the bare score. An evaluation served from the cache then reads
  `riskAnalysis.score` of a number, which throws, so it returns `defaultValueOnError`
  (`ScoreModeCachedScoreIsError`). In json mode with the enterprise backend the cache
  does coalesce (`JsonModeCoalesces`).
- **Json mode with the site-verify backend depends on the host.** A site-verify
  assessment has no `event`, so the handler calls `deleteProperty(undefined, 'token')`
  (server_variable.js:75). If that throws, the fetching evaluation returns
  `defaultValueOnError` and stores nothing, and waiting evaluations keep polling the
  marker until the end-of-event removal. If it does not throw, the assessment is
  stored and served as it is (`SiteVerifyJsonMode`).

## Model

| member | source | states |
|---|---|---|
| Text.IndexOf | web_tag.js:171 | `indexOf` is not -1 exactly when the pattern occurs, and otherwise it is the position of the first occurrence |
| Text.RemoveFirst | client_tag.js:137 | `replace(c, '')` with a one-character string pattern leaves a string without `c` unchanged and otherwise removes exactly the first `c` |
| Text.RemoveFirstMultiset | client_tag.js:137 | removing the first `c` takes exactly one `c` out of the character multiset and keeps every other character |
| Text.SplitJoin | server_tag.js:309 | joining segments that contain no separator can be undone by splitting at the separator |
| Backend.Segments | server_tag.js:303-310 | `buildQueryString` pushes one `encode(key)=encode(value)` segment per field, in field order |
| Backend.QueryRoundTrip | server_tag.js:303-310 | when the encoder emits no `&` or `=`, reading the query string back yields exactly the encoded key/value pairs in field order: there is one segment per field and nothing else |
| Backend.SiteVerifyRequest | server_tag.js:109-119 | the site-verify call is a POST with a 5000 ms timeout, no body and no authorisation, to the site-verify URL followed by `?` and the query string |
| Backend.SiteVerifyQueryOrder | server_tag.js:109-116 | the site-verify URL's query reads back as `secret`, `response`, `remoteip`, in that order; an undefined token or IP is sent as the text `undefined` |
| Backend.EnterpriseRequest | server_variable.js:199-223 | the enterprise call is an authorised JSON POST to the project's assessments endpoint whose event echoes the token, site key, action, IP and user agent; `assessmentEnvironment` is present exactly for the variable, with the variable's client and version strings |
| Backend.RequestFor | server_tag.js:80-92 | the version switch yields a request exactly for `v3` (site-verify) and `enterprise`; there is no default branch |
| Backend.NormaliseSiteVerify | server_tag.js:127-140 | a site-verify reply is valid exactly when its action equals the expected action and it reports success; reasons are empty and the invalid reason is `''`; score, creation time, hostname and action are copied |
| Backend.PostProcessEnterprise | server_tag.js:184-190 | the action re-check can only turn `valid` from true to false, and does so exactly when the token's action differs from the echoed expected action; an epoch-zero creation time becomes null and any other is kept; nothing else changes; a reply without `event` throws |
| Backend.PostProcessIdempotent | server_tag.js:185-189 | post-processing an already post-processed enterprise assessment changes nothing |
| Backend.StatusGate | server_tag.js:120-145 | status 200 goes on to the body's interpretation; any other status rejects with the response body; a failed send rejects |
| Backend.AssessGate | server_tag.js:76-197 | a backend resolves only after a 200 reply and rejects with the body on any other status; a version with no backend settles neither way |
| Backend.AssessValidity | server_tag.js:127-190 | a resolved site-verify assessment carries no event and is valid only if the reply's action is the expected one; a resolved enterprise assessment is valid only if its echoed expected action matches, and never carries the epoch-zero creation time |
| ServerTag.SendToTags | server_tag.js:287-291 | `recaptcha` is deleted, `recaptcha_score` and `recaptcha_valid` are set from the assessment, and every other event field is unchanged |
| ServerTag.SendToTagsIdempotent | server_tag.js:287-291 | rewriting the event data twice with the same assessment is the same as rewriting it once |
| ServerTag.BigQueryRow | server_tag.js:245-262 | the row copies the client id, score, reasons, validity and invalid reason verbatim; it has a `timestamp` exactly when the creation time is truthy, and then the timestamp is that creation time |
| ServerTag.ProcessAssessment | server_tag.js:205-219 | the container is re-run exactly when attaching to event data, with the rewritten data; exactly when outputting to BigQuery, one row is inserted, and it is the `BigQueryRow` of the assessment and of the event data as rewritten (if attaching); the tag fails exactly when the insert fails |
| ServerTag.RowAgreesWithReemitted | server_tag.js:205-262 | when the tag both re-emits and inserts, the row's score, validity and client id are those the re-emitted event carries |
| ServerTag.RunTag | server_tag.js:53-94 | a non-analytics request succeeds at once; an analytics event without truthy `recaptcha` calls neither callback; unparsable reCAPTCHA data fails with no request; a version with no backend sends nothing and calls neither callback; otherwise exactly the built request is sent, a rejection fails the tag, and a resolved assessment is handed to `ProcessAssessment`, whose callback ends the run |
| ServerTag.RunTagSettles | server_tag.js:53-94 | an analytics run with reCAPTCHA data calls neither callback exactly when the data parses and the version selects no backend, and then sends nothing; a run that reaches `processAssessment` sent the built request and got status 200 |
| AssessmentCache.PollStore | server_variable.js:46-57 | one poll defers exactly when the stored value is the marker, and otherwise delivers what is stored, absence included; it never delivers the marker |
| AssessmentCache.StorageGet | server_variable.js:46-57 | over the storage contents seen at successive polls, `storage.get` delivers the value at the first poll that does not see the marker; it has no result only while every poll sees the marker, and it never yields the marker |
| AssessmentCache.HandleValue | server_variable.js:72-86 | the stored value always equals the returned one; in json mode an assessment with `event` is stored and returned with `event.token` deleted, and any other value is stored and returned as it is unless it is null or the host's delete throws, which writes nothing and returns `defaultValueOnError`; in score mode it is written exactly when the value is an assessment, and is its score |
| AssessmentCache.Start | server_variable.js:64-72 | a non-analytics request yields undefined; an event without truthy `recaptcha` yields `defaultValueOnMissing` without hashing; otherwise the evaluation polls the key hashed from the whole event data |
| AssessmentCache.SpawnStep | server_variable.js:64-72 | a new evaluation touches neither storage, callbacks nor backend, and starts where `Start` says |
| AssessmentCache.ReadStep | server_variable.js:46-57 | while the marker is stored a poll changes nothing; otherwise the evaluation receives exactly the stored value, never the marker, and storage is unchanged |
| AssessmentCache.HitStep | server_variable.js:100-106 | a truthy read resolves with the read value, with no storage write, no callback registration and no backend call |
| AssessmentCache.ClaimStep | server_variable.js:108-126 | a falsy read writes the marker and registers exactly one removal for the key before any backend call; unparsable `recaptcha` yields `defaultValueOnError` with no request; a version with no backend sends nothing and never settles; otherwise exactly the built request is sent, for the evaluation's own key, and the evaluation awaits it |
| AssessmentCache.CompleteStep | server_variable.js:114-126 | a resolving backend resolves the evaluation with the assessment and changes no shared state |
| AssessmentCache.FailStep | server_variable.js:83-86 | a rejecting backend yields `defaultValueOnError` and leaves storage (the marker included) unchanged |
| AssessmentCache.HandleStep | server_variable.js:73-82 | the success handler writes at most the evaluation's own key, with exactly the value it returns; other keys, callbacks and requests are unchanged |
| AssessmentCache.CleanupStep | server_variable.js:110 | one end-of-event callback removes its key's entry and nothing else |
| CacheTheorems.StepPreservesInv | server_variable.js:46-110 | every transition preserves the invariant: a stored marker has a pending removal for its key, and no evaluation holds the marker as a read or resolved value |
| CacheTheorems.RunPreservesInv | server_variable.js:46-110 | the invariant holds after any sequence of enabled transitions from a state satisfying it |
| CacheTheorems.ReachableInv | server_variable.js:46-110 | every reachable state satisfies the invariant, so `storage.get` never hands out the marker and every stored marker will be removed |
| CacheTheorems.StepKeepsMarker | server_variable.js:46-57 | a transition that is neither a handler nor a cleanup of `k` keeps the marker for `k`, keeps waiters on `k` waiting, delivers no new read of `k`, and sends a request for `k` only for an evaluation that had already read `k` |
| CacheTheorems.MarkerPersists | server_variable.js:48-110 | after a claim of `k`, until a handler or cleanup of `k` runs, the marker stays, waiters keep waiting, no evaluation receives a new read of `k`, and any backend request for `k` comes from a read made before the claim |
| CacheTheorems.EntrySurvivesUntilCleanup | server_variable.js:108-110 | only an end-of-event callback takes a key out of storage: a failed or successful fetch never does |
| CacheTheorems.CleanupIdempotent | server_variable.js:110 | (illustration) with two removals registered for a key, the second leaves storage as the first did |
| CacheTheorems.ZeroScoreIsMiss | server_variable.js:102-108 | a stored score of 0 is read as a miss: the evaluation can only claim the key again, not hit |
| CacheTheorems.BothReadRuns | server_variable.js:46-57 | two evaluations of one event both start polling and both read the key as absent before either claims |
| CacheTheorems.BothClaimRuns | server_variable.js:98-126 | two evaluations that both hold an absent read each write the marker, register a removal and send a request for the same key |
| CacheTheorems.RaceSendsTwoRequests | server_variable.js:98-126 | two evaluations of one event that both read before either claims send two backend requests for the same key and register two removals |
| CacheTheorems.CleanupReleasesWaiter | server_variable.js:100-110 | after the end-of-event removal, an evaluation waiting on the key reads it as absent and can claim it |
| CacheTheorems.FailureKeepsWaitersWaiting | server_variable.js:83-128 | after a failed fetch the failing evaluation returns `defaultValueOnError`, the marker and its removal remain, and a later evaluation of the same event waits without sending a request |
| CacheTheorems.ClaimAloneRuns | server_variable.js:98-126 | the first evaluation of an event reads the key as absent, stores the marker, registers one removal and sends one request for the key |
| CacheTheorems.WaitBehindRuns | server_variable.js:46-57 | a later evaluation of an event whose key holds the marker starts polling and keeps waiting, and nothing else changes |
| CacheTheorems.FetchWhileOtherWaitsRuns | server_variable.js:98-110 | when one evaluation claims a key, a second evaluation of the same event finds the marker and waits, with one request in flight |
| CacheTheorems.CompleteAndStoreRuns | server_variable.js:72-82 | when the fetch completes, its handler stores exactly the value it returns and sends nothing |
| CacheTheorems.ServeStoredRuns | server_variable.js:46-106 | an evaluation waiting on a key that now holds a truthy value reads it, hits, and returns the handler applied to it, with no request |
| CacheTheorems.CompleteThenServeRuns | server_variable.js:72-106 | once the fetch completes and its handler stores the result, the waiting evaluation hits on the stored value and runs the handler on it, with no further request |
| CacheTheorems.ServedFromCacheRuns | server_variable.js:72-130 | a fetch with a waiting second evaluation ends with exactly one backend request; the second evaluation returns the handler applied to what the first one stored |
| CacheTheorems.DeliveredShape | server_variable.js:114-126 | an assessment the site-verify backend resolves with has no `event`, and one the enterprise backend resolves with has one |
| CacheTheorems.JsonModeCoalesces | server_variable.js:74-77 | in json mode with the enterprise backend, both evaluations return the assessment the backend delivered with the token removed, from one backend request |
| CacheTheorems.CompleteWithoutStoreRuns | server_variable.js:72-86 | when the fetch completes and the handler throws, the evaluation returns `defaultValueOnError` and storage, removals and requests are unchanged |
| CacheTheorems.SiteVerifyJsonMode | server_variable.js:72-86 | in json mode with the site-verify backend: if deleting from the missing `event` throws, the fetching evaluation returns `defaultValueOnError`, the marker stays and the waiter keeps waiting; otherwise both evaluations return the delivered assessment from one request |
| CacheTheorems.ScoreModeCachedScoreIsError | server_variable.js:78-86 | in score mode the fetching evaluation returns the score, and the evaluation served from the cache returns `defaultValueOnError` |
| PageConfig.Configuration | web_tag.js:27-42 | the configuration exists exactly for `v3` and `enterprise`, with that version's library and its configured site key |
| PageConfig.LibrariesHaveNoQuery | web_tag.js:29-35 | neither library URL has a query of its own |
| PageConfig.LibraryUrlRecoversSiteKey | web_tag.js:124-126 | the injected script URL is the library, then `?render=`, then the site key, and the site key can be read back after the first `?` |
| PageConfig.ScriptUrlNamesVersionSiteKey | web_tag.js:124-126 | the injected script names exactly the site key configured for the selected version |
| PageConfig.RecaptchaPushSticks | web_tag.js:78 | once a template pushes `recaptcha`, reading `recaptcha` from the data layer gives that value, and it stays truthy until another push sets the key |
| PageConfig.InitPath | web_tag.js:47-51 | the init path settles once: without configuration it throws; otherwise it injects the script and, if the script loads, pushes the announcement before succeeding; if the script does not load it injects and fails, pushing nothing |
| PageConfig.TokenPath | web_tag.js:135-160 | requesting a token settles once: without configuration it throws; otherwise `execute` gets the configured site key and the action; an issued token is pushed (with the site key only for the web tag) before success, and a refused one fails with no push |
| WebTag.FirstMatch | web_tag.js:168-177 | the action is the name of the first row, in table order, for which `'_' + trigger` occurs in the fired triggers; it is null exactly when no row matches |
| WebTag.GetAction | web_tag.js:168-177 | the loop with early return computes exactly the first match |
| WebTag.PrefixTriggerIdShadows | web_tag.js:169-173 | (illustration) matching is by substring: a row whose id is a prefix of a later row's id captures that later row's trigger |
| WebTag.WaitFrom | web_tag.js:77-96 | the wait resolves at the first check that sees `recaptcha` truthy, makes at most 51 checks (cycles 0 to 50), and rejects exactly when all 51 fail |
| WebTag.WaitLibraryLoaded | web_tag.js:77-96 | the re-check loop computes the same outcome, rejects exactly when no check among cycles 0 to 50 sees the library, and makes at most 51 checks |
| WebTag.ChecksSee | web_tag.js:78 | each check sees whether `recaptcha` is truthy in the data layer at that check |
| WebTag.InjectToken | web_tag.js:105-115 | without a truthy action it fails and requests no token; undefined triggers with a non-empty table throw; with a truthy first-matching action it requests a token for that action and continues as `TokenPath` with the site key in the payload |
| WebTag.RunWebTag | web_tag.js:42-56 | a run settles once; `gtm.init` takes the init path that announces `recaptcha: 'loaded'`; otherwise a wait that gives up fails, a wait that sees the library continues as `InjectToken`, and a success pushes the token for the first matching action with the configured site key |
| WebTag.InitThenWaitResolvesAtFirstCheck | web_tag.js:47-86 | after a successful init run, a wait whose first check follows the announcement (with no push resetting `recaptcha` in between) resolves at that first check |
| WebTag.EventRunLeavesPayload | web_tag.js:152-160 | after a successful event run the data layer's `recaptcha` holds exactly the token, the action and the site key |
| ClientTag.CleanActionIdMultiset | client_tag.js:137 | the action is the hash with one `=` (if any) and then one `+` (if any) removed; every other character is kept |
| ClientTag.CleanActionIdLength | client_tag.js:137 | the action is at most two characters shorter than the hash, one for each of `=` and `+` present |
| ClientTag.CleanActionIdKeepsPlainHash | client_tag.js:135-137 | a hash with no `=` and no `+` is returned unchanged |
| ClientTag.CleanActionIdKeepsLaterOccurrences | client_tag.js:135-137 | a hash with two or more `+` (or `=`) keeps one in the action; only a hash with at most one of each yields an action free of both |
| ClientTag.CleanActionIdExample | client_tag.js:137 | (illustration) `ab+c+d=` becomes `abc+d` |
| ClientTag.BuildAction | client_tag.js:133-138 | the action is the hash of `pagePath + trigger` with the first `=` and then the first `+` removed |
| ClientTag.BuildActionSeesOnlyConcatenation | client_tag.js:134 | the action depends only on the concatenation: moving characters between the page path and the event name gives the same action |
| ClientTag.RunClientTag | client_tag.js:43-58 | a run settles once; `gtm.init` takes the init path that pushes the `reCAPTCHA Loaded` event; any other event continues as `TokenPath` for the built action without the site key, so it injects nothing, and an issued token is pushed before success |
| ClientTag.ClientInitLeavesRecaptcha | client_tag.js:104-108 | a successful init run pushes only the loaded event and leaves the data layer's `recaptcha` as it was |

## Left out

- Host I/O is abstract: `sendHttpRequest`, `getGoogleAuth`, `BigQuery.insert`, `runContainer`, `injectScript`, `copyFromWindow`, `createQueue` and `copyFromDataLayer`. Each is a function parameter or an input. An HTTP response or transport failure is a function of the request. Authorisation is a flag on the request. The insert's outcome is a boolean function. `runContainer` is recorded as the event data handed to it.
- `JSON.parse`, `JSON.stringify`, `sha256` and `sha256Sync` are uninterpreted deterministic functions. No serialisation or hashing is modelled. A parse failure is a throw.
- `encodeUriComponent` is an uninterpreted function. The query-string round trip assumes only that its output contains no `&` or `=`.
- Timeouts and time are not modelled. The 5000 ms timeout is recorded on the request. Waiting and polling are explicit transitions or observation sequences.
- The timestamped `log` functions and the logging of `error-codes` are left out: they have no effect on results.
- Scores are opaque: the templates only copy them and test them for truthiness.
- The server tag's `data.testing` / `bigQueryInsertMock` switch is left out. It only swaps the insert function, which is already a parameter.
- web_config_variable.js is not part of this model. It is a constant two-entry table, and the same table is modelled as `PageConfig.Configuration`.
- `getToken`'s `ready` callback is assumed to run. A library whose `ready` never fires would leave the run unsettled, and that case is not modelled.
- The client tag passes `sha256` no failure callback. A failed hash would leave the run unsettled; the hash is modelled as total.
- The data layer's `gtm.triggers` is modelled as a string or undefined. Other JavaScript types are not modelled.
- Backend.NormaliseSiteVerify: the action fields are `Option<string>`, and `None` stands for both `null` and `undefined`. So the `===` of server_tag.js:134 (server_variable.js:170) is modelled as equality of options. JavaScript gives `valid: false` when one side is `null` and the other `undefined`, for example `"action": null` in the reCAPTCHA data against a reply without `action`. The model then gives `valid` equal to `success`.
- Backend.PostProcessEnterprise: the same conflation applies to the comparison of `tokenProperties.action` with `event.expectedAction` at server_tag.js:185 (server_variable.js:228). A `null` against a missing field keeps `valid` in the model, while JavaScript sets it to false.
- Values.StringField: `ip_override` and `user_agent` are modelled as strings or undefined. A value of another type reads as undefined. It is then sent as the text `undefined` in the site-verify query and left out of the enterprise body. JavaScript would instead send `null` or a number as its text, and would serialise `userIpAddress: null`. Scores and numbers are opaque in this model, so their text cannot be formed.
- AssessmentCache.CompleteStep: the assessment a `Complete` transition delivers is a label parameter, not derived from `Backend.Assess` of the evaluation's request. The request/response relation is proved separately in `Backend`. The json-mode scenarios tie the label to it with `CacheTheorems.Delivers`; the other scenarios hold for any assessment.
- AssessmentCache.HandleValue: the source does not show what the sandbox's `Object.delete` does when handed `undefined`. That happens in json mode for an assessment without `event`, such as the site-verify shape or a cached bare score. It is a host flag, `deleteThrowsOnNonObject`.
- AssessmentCache.StorageGet: the re-poll is modelled over a finite sequence of observed storage contents. Fairness of the host's scheduling (that a waiter is eventually polled) is not modelled.
- A site-verify reply without a `score` field is not modelled: the reply record always has a score.
