/**
 * backend/main.py: the order in which the suggestion endpoint applies the
 * gate, calls the model and records usage; the payment webhook; and the
 * usage statistics endpoint. Each endpoint is a function from the database
 * and the request to the database afterwards and the response.
 */
module Api {
  import opened Wrappers
  import opened Json
  import opened Calendar
  import opened Plans
  import opened BackendDb
  import opened Auth
  import opened BackendAi
  import opened Paddle

  /** An exception no handler turns into a response: FastAPI answers 500. */
  datatype Crash =
    | DigestFailed            // TypeError from `hmac.compare_digest`
    | BodyNotText             // UnicodeDecodeError from `json.loads` on the raw bytes
    | EventNotObject          // AttributeError from `event_data.get` on a non-dict
    | HandlerFailed           // AttributeError escaping a purchase handler
    | StoreFailed(storeError: DbError) // the user insert's commit raised
    | QuotaCheckMisuse        // AttributeError: the quota check was given an id instead of a user
    | AiFailed(aiError: AiError)  // `suggest_reminder` raised
    | ResponseInvalid         // `SuggestReminderResponse(...)` rejected the model's fields

  datatype Failure =
    | Refused(refusal: Refusal) // AuthError, QuotaError, or a ValueError from `PlanTier`
    | InvalidBody               // the request body failed validation: 422
    | InvalidSignature          // `{"error": "Invalid signature"}`
    | InvalidJson               // `{"error": "Invalid JSON"}`
    | Crashed(crash: Crash)

  /** The status code each failure is answered with. */
  function HttpStatus(f: Failure): (code: int)
    ensures code in {400, 401, 422, 429, 500}
    ensures code == 401 <==> f.InvalidSignature? || (f.Refused? && f.refusal.Unauthorized?)
    ensures code == 429 <==> f.Refused? && f.refusal.Limited?
    ensures code == 500 <==> f.Crashed? || (f.Refused? && f.refusal.UnknownPlanTier?)
    ensures code == 400 <==> f.InvalidJson?
    ensures code == 422 <==> f.InvalidBody?
  {
    match f
    case Refused(r) => Status(r)
    case InvalidBody => 422
    case InvalidSignature => 401
    case InvalidJson => 400
    case Crashed(_) => 500
  }

  // ---------------------------------------------------------------------
  // POST /api/v1/suggest-reminder
  // ---------------------------------------------------------------------

  /** What the endpoint cannot see for itself: the clock, the settings, and what the model answered. */
  datatype SuggestEnv = SuggestEnv(now: Instant, rate: RateSettings, completion: Completion)

  /** The caller behind a request body, if the body is valid and the token authenticates. */
  function Caller(db: Db, token: Json, text: Json, now: Instant): Option<User> {
    var req := MakeSuggestRequest(token, text);
    if req.Err? then None
    else
      var user := Authenticate(db, req.value.licenseToken, now);
      if user.Err? then None else Some(user.value)
  }

  /** The state of a request that has passed authentication and the rate check. */
  datatype Admitted = Admitted(req: SuggestRequest, user: User)

  /** Lines 134-137: validation, authentication, then the rate check with its committed reset. */
  function Gate(db: Db, token: Json, text: Json, env: SuggestEnv): (r: (Db, Result<Admitted, Failure>))
    ensures r.0.users == db.users && r.0.logs == db.logs
    ensures Caller(db, token, text, env.now).None? ==> r.0 == db && r.1.Err?
    ensures Caller(db, token, text, env.now).Some? ==>
              var uid := Caller(db, token, text, env.now).value.id;
              var check := CheckRateLimit(db.limits, uid, env.now, env.rate);
              && r.0.limits == check.limits
              && (r.1.Ok? <==> check.verdict.Ok?)
              && (r.1.Ok? ==> r.1.value.user == Caller(db, token, text, env.now).value
                              && r.1.value.req == MakeSuggestRequest(token, text).value)
              && (r.1.Err? ==> r.1.error == Refused(check.verdict.error))
    ensures r.1.Err? ==> r.1.error == InvalidBody || (r.1.error.Refused? && !r.1.error.refusal.UnknownPlanTier?)
  {
    var req := MakeSuggestRequest(token, text);
    if req.Err? then (db, Err(InvalidBody))
    else
      var auth := Authenticate(db, req.value.licenseToken, env.now);
      if auth.Err? then (db, Err(Refused(auth.error)))
      else
        var user := auth.value;
        var check := CheckRateLimit(db.limits, user.id, env.now, env.rate);
        var db1 := db.(limits := check.limits);
        if check.verdict.Err? then (db1, Err(Refused(check.verdict.error)))
        else (db1, Ok(Admitted(req.value, user)))
  }

  /** Lines 143-162: count the request, ask the model, log the usage, validate the answer. */
  function Answer(db: Db, a: Admitted, env: SuggestEnv): (r: (Db, Result<SuggestResponse, Failure>))
    ensures r.0.users == db.users
    ensures r.0.limits == IncrementRateLimit(db.limits, a.user.id)
    ensures SuggestReminder(env.completion, a.req.reminderText).Err? ==>
              && r.0.logs == db.logs
              && r.1 == Err(Crashed(AiFailed(SuggestReminder(env.completion, a.req.reminderText).error)))
    ensures SuggestReminder(env.completion, a.req.reminderText).Ok? ==>
              var s := SuggestReminder(env.completion, a.req.reminderText).value;
              && r.0.logs == db.logs + [UsageLog(a.user.id, AiFeature, env.now, s.inputTokens, s.outputTokens, s.costCents)]
              && (r.1.Ok? <==> MakeSuggestResponse(s.suggestedText, s.priority, s.dueTimeSuggestion, s.costCents).Ok?)
              && (r.1.Ok? ==> r.1.value.costCents == s.costCents && r.1.value.priority == s.priority)
              && (r.1.Err? ==> r.1.error == Crashed(ResponseInvalid))
  {
    var db2 := db.(limits := IncrementRateLimit(db.limits, a.user.id));
    match SuggestReminder(env.completion, a.req.reminderText)
    case Err(e) => (db2, Err(Crashed(AiFailed(e))))
    case Ok(s) =>
      var db3 := LogUsage(db2, a.user.id, s.inputTokens, s.outputTokens, s.costCents, env.now);
      match MakeSuggestResponse(s.suggestedText, s.priority, s.dueTimeSuggestion, s.costCents)
      case Err(_) => (db3, Err(Crashed(ResponseInvalid)))
      case Ok(resp) => (db3, Ok(resp))
  }

  /**
   * `api_suggest_reminder` as written: line 140 hands `user.id` to
   * `check_ai_quota`, whose first act is `PlanTier(user.plan_tier)`; an int
   * has no `plan_tier`, so every admitted request ends there.
   */
  function SuggestAsWritten(db: Db, token: Json, text: Json, env: SuggestEnv): (r: (Db, Result<SuggestResponse, Failure>))
    ensures r.1.Err?
    ensures r.0 == Gate(db, token, text, env).0
    ensures Gate(db, token, text, env).1.Ok? ==> r.1 == Err(Crashed(QuotaCheckMisuse))
    ensures Gate(db, token, text, env).1.Err? ==> r.1 == Err(Gate(db, token, text, env).1.error)
  {
    var (db1, gate) := Gate(db, token, text, env);
    match gate
    case Err(f) => (db1, Err(f))
    case Ok(_) => (db1, Err(Crashed(QuotaCheckMisuse)))
  }

  /** `api_suggest_reminder` with the quota check given the user record it expects. */
  function Suggest(db: Db, token: Json, text: Json, env: SuggestEnv): (r: (Db, Result<SuggestResponse, Failure>))
    ensures r.0.users == db.users
    ensures Gate(db, token, text, env).1.Err? ==> r == (Gate(db, token, text, env).0, Err(Gate(db, token, text, env).1.error))
    ensures Gate(db, token, text, env).1.Ok? ==>
              var (db1, a) := (Gate(db, token, text, env).0, Gate(db, token, text, env).1.value);
              var quota := CheckAiQuota(db1, a.user, env.now);
              && (quota.Err? ==> r == (db1, Err(Refused(quota.error))))
              && (quota.Ok? ==> r == Answer(db1, a, env))
  {
    var (db1, gate) := Gate(db, token, text, env);
    match gate
    case Err(f) => (db1, Err(f))
    case Ok(a) =>
      match CheckAiQuota(db1, a.user, env.now)
      case Err(e) => (db1, Err(Refused(e)))
      case Ok(_) => Answer(db1, a, env)
  }

  /** The rate-limit rows after the rate check of the caller's request. */
  function CheckedLimits(db: Db, user: User, env: SuggestEnv): map<nat, RateLimit> {
    CheckRateLimit(db.limits, user.id, env.now, env.rate).limits
  }

  /** A request that fails validation or authentication changes nothing. */
  lemma AuthFailureChangesNothing(db: Db, token: Json, text: Json, env: SuggestEnv)
    requires Caller(db, token, text, env.now).None?
    ensures Suggest(db, token, text, env).0 == db
    ensures HttpStatus(Suggest(db, token, text, env).1.error) in {401, 422}
  {
  }

  /** A request refused by the quota check may have reset the window, but it is not counted and not logged. */
  lemma QuotaFailureConsumesNothing(db: Db, token: Json, text: Json, env: SuggestEnv)
    requires Caller(db, token, text, env.now).Some?
    requires var r := Suggest(db, token, text, env).1;
             r.Err? && r.error.Refused? && (r.error.refusal.UnknownPlanTier? || r.error.refusal.quota.QuotaExhausted?)
    ensures var user := Caller(db, token, text, env.now).value;
            Suggest(db, token, text, env).0 == db.(limits := CheckedLimits(db, user, env))
  {
  }

  /** A successful request is counted once and logged once, with the model's token counts and cost. */
  lemma SuccessConsumesOnce(db: Db, token: Json, text: Json, env: SuggestEnv)
    requires Suggest(db, token, text, env).1.Ok?
    ensures Caller(db, token, text, env.now).Some?
    ensures var user := Caller(db, token, text, env.now).value;
            var s := SuggestReminder(env.completion, MakeSuggestRequest(token, text).value.reminderText).value;
            var after := Suggest(db, token, text, env);
            && after.0.limits == IncrementRateLimit(CheckedLimits(db, user, env), user.id)
            && after.0.limits[user.id].requestCount == CheckedLimits(db, user, env)[user.id].requestCount + 1
            && after.0.logs == db.logs + [UsageLog(user.id, AiFeature, env.now, s.inputTokens, s.outputTokens, s.costCents)]
            && after.1.value.costCents == s.costCents
  {
  }

  /** When the model call fails after the increment, the request is counted but not logged. */
  lemma AiFailureConsumesRateOnly(db: Db, token: Json, text: Json, env: SuggestEnv)
    requires var r := Suggest(db, token, text, env).1;
             r.Err? && r.error.Crashed? && r.error.crash.AiFailed?
    ensures Caller(db, token, text, env.now).Some?
    ensures var user := Caller(db, token, text, env.now).value;
            var after := Suggest(db, token, text, env).0;
            && after.logs == db.logs
            && after.limits[user.id].requestCount == CheckedLimits(db, user, env)[user.id].requestCount + 1
  {
  }

  /** A successful request leaves this month's count within the caller's quota and the window's count within the limit. */
  lemma SuccessStaysWithinLimits(db: Db, token: Json, text: Json, env: SuggestEnv)
    requires Suggest(db, token, text, env).1.Ok?
    ensures Caller(db, token, text, env.now).Some?
    ensures var user := Caller(db, token, text, env.now).value;
            var after := Suggest(db, token, text, env).0;
            && TierFromValue(user.planTier).Some?
            && MonthlyQuotaUsed(after.logs, user.id, env.now) <= MonthlyQuota(TierFromValue(user.planTier).value)
            && after.limits[user.id].requestCount <= env.rate.maxRequests
  {
    var user := Caller(db, token, text, env.now).value;
    var (db1, gate) := Gate(db, token, text, env);
    var s := SuggestReminder(env.completion, gate.value.req.reminderText).value;
    var db2 := db1.(limits := IncrementRateLimit(db1.limits, user.id));
    assert Suggest(db, token, text, env).0 == LogUsage(db2, user.id, s.inputTokens, s.outputTokens, s.costCents, env.now);
  }

  /** As written, no request ever succeeds, and an admitted one answers 500 after its window reset is committed. */
  lemma AsWrittenNeverAnswers(db: Db, token: Json, text: Json, env: SuggestEnv)
    requires Caller(db, token, text, env.now).Some?
    requires CheckRateLimit(db.limits, Caller(db, token, text, env.now).value.id, env.now, env.rate).verdict.Ok?
    ensures var user := Caller(db, token, text, env.now).value;
            var r := SuggestAsWritten(db, token, text, env);
            && r.1 == Err(Crashed(QuotaCheckMisuse)) && HttpStatus(r.1.error) == 500
            && r.0 == db.(limits := CheckedLimits(db, user, env))
  {
  }

  /** The corrected endpoint and the one as written agree on every request the gate turns away. */
  lemma AsWrittenAgreesBeforeQuota(db: Db, token: Json, text: Json, env: SuggestEnv)
    requires Gate(db, token, text, env).1.Err?
    ensures SuggestAsWritten(db, token, text, env) == Suggest(db, token, text, env)
  {
  }

  /**
   * The first request of a fresh licence holder, whose model answer is well
   * formed, is answered by the corrected endpoint; as written it is answered 500.
   */
  lemma FreshLicenceIsAnswered(u: User, text: string, now: Instant, c: Completion)
    requires u.active && u.expiresAt.None? && TierFromValue(u.planTier).Some?
    requires Trimmed(u.token) && Trimmed(text)
    requires SuggestReminder(c, text).Ok?
    requires SuggestReminder(c, text).value.suggestedText.JStr?
    requires SuggestReminder(c, text).value.dueTimeSuggestion.JNull? || SuggestReminder(c, text).value.dueTimeSuggestion.JStr?
    ensures var env := SuggestEnv(now, DefaultRateSettings, c);
            && Suggest(Db([u], [], map[]), JStr(u.token), JStr(text), env).1.Ok?
            && SuggestAsWritten(Db([u], [], map[]), JStr(u.token), JStr(text), env).1 == Err(Crashed(QuotaCheckMisuse))
  {
    var env := SuggestEnv(now, DefaultRateSettings, c);
    TrimmedRequest(u.token, text);
    var db1 := FreshLicenceAdmitted(u, text, env);
    var a := Admitted(SuggestRequest(u.token, text), u);
    assert MonthlyQuotaUsed([], u.id, now) == 0;
    assert CheckAiQuota(db1, u, now).Ok?;
    assert Answer(db1, a, env).1.Ok?;
  }

  /** The gate admits the first request of an active, unexpired licence holder. */
  lemma FreshLicenceAdmitted(u: User, text: string, env: SuggestEnv) returns (db1: Db)
    requires u.active && u.expiresAt.None?
    requires MakeSuggestRequest(JStr(u.token), JStr(text)) == Ok(SuggestRequest(u.token, text))
    requires env.rate == DefaultRateSettings
    ensures db1.logs == [] && db1.users == [u]
    ensures Gate(Db([u], [], map[]), JStr(u.token), JStr(text), env)
            == (db1, Ok(Admitted(SuggestRequest(u.token, text), u)))
  {
    var db := Db([u], [], map[]);
    assert FindByToken(db.users, u.token) == Some(u);
    assert Authenticate(db, u.token, env.now) == Ok(u);
    var check := CheckRateLimit(map[], u.id, env.now, env.rate);
    db1 := db.(limits := check.limits);
  }

  /** A body whose two strings carry no surrounding White_Space is taken as it is. */
  lemma TrimmedRequest(token: string, text: string)
    requires Trimmed(token) && Trimmed(text)
    ensures MakeSuggestRequest(JStr(token), JStr(text)) == Ok(SuggestRequest(token, text))
  {
    StripKeepsTrimmed(token);
    StripKeepsTrimmed(text);
  }

  // ---------------------------------------------------------------------
  // GET /api/v1/usage-stats
  // ---------------------------------------------------------------------

  /** `api_usage_stats`: read-only. */
  function UsageStatsEndpoint(db: Db, token: string, now: Instant, rate: RateSettings): (r: Result<UsageStats, Failure>)
    ensures Authenticate(db, token, now).Err? ==> r == Err(Refused(Authenticate(db, token, now).error))
    ensures Authenticate(db, token, now).Ok? ==>
              var user := Authenticate(db, token, now).value;
              && (r.Ok? <==> TierFromValue(user.planTier).Some?)
              && (r.Ok? ==> r.value == UsageStatsOf(db, user, now, rate).value)
              && (r.Err? ==> HttpStatus(r.error) == 500)
  {
    match Authenticate(db, token, now)
    case Err(e) => Err(Refused(e))
    case Ok(user) =>
      match UsageStatsOf(db, user, now, rate)
      case Err(e) => Err(Refused(e))
      case Ok(stats) => Ok(stats)
  }

  /** A successful suggestion shows up in the caller's statistics as one more use this month. */
  lemma StatsCountSuggestion(db: Db, token: Json, text: Json, env: SuggestEnv)
    requires Suggest(db, token, text, env).1.Ok?
    ensures var t := MakeSuggestRequest(token, text).value.licenseToken;
            var before := UsageStatsEndpoint(db, t, env.now, env.rate);
            var after := UsageStatsEndpoint(Suggest(db, token, text, env).0, t, env.now, env.rate);
            before.Ok? && after.Ok? && after.value.aiQuotaUsed == before.value.aiQuotaUsed + 1
  {
    SuccessStaysWithinLimits(db, token, text, env);
    var user := Caller(db, token, text, env.now).value;
    var (db1, gate) := Gate(db, token, text, env);
    var s := SuggestReminder(env.completion, gate.value.req.reminderText).value;
    var db2 := db1.(limits := IncrementRateLimit(db1.limits, user.id));
    assert Suggest(db, token, text, env).0 == LogUsage(db2, user.id, s.inputTokens, s.outputTokens, s.costCents, env.now);
  }

  // ---------------------------------------------------------------------
  // POST /webhooks/paddle
  // ---------------------------------------------------------------------

  /** The raw body as `json.loads` sees it: not decodable text, or text that did or did not parse. */
  datatype Payload = NotText | Text(body: Body)

  /** The webhook's configuration and the random suffix of the token it would issue. */
  datatype WebhookEnv = WebhookEnv(secret: Option<string>, hmac: Hmac, mapping: map<string, string>,
                                   suffix: string, now: Instant)

  /** `{"ok": true}`, or `{"ok": true, "token": …}` after issuing a licence. */
  datatype WebhookReply = Ignored | Issued(token: string)

  const SubscriptionCreated: string := "subscription.created"
  const TransactionCompleted: string := "transaction.completed"

  /** Lines 70-101, once the body has parsed. */
  function HandleEvent(db: Db, env: WebhookEnv, event: Json): (r: (Db, Result<WebhookReply, Failure>))
    ensures !event.JObject? ==> r == (db, Err(Crashed(EventNotObject)))
    ensures !(r.1.Ok? && r.1.value.Issued?) ==> r.0 == db
    ensures r.1.Ok? && r.1.value.Issued? ==>
              && event.JObject?
              && Get(event.fields, "event_type", JNull) in {JStr(SubscriptionCreated), JStr(TransactionCompleted)}
              && HandlePurchase(env.mapping, event.fields).Ok?
              && HandlePurchase(env.mapping, event.fields).value.Some?
              && var p := HandlePurchase(env.mapping, event.fields).value.value;
                 && r.1.value.token == CreateLicenseToken(p.tier, env.suffix)
                 && InsertUser(db, r.1.value.token, p.email, p.tier, env.now) == Ok(r.0)
  {
    if !event.JObject? then (db, Err(Crashed(EventNotObject)))
    else
      var eventType := Get(event.fields, "event_type", JNull);
      if eventType != JStr(SubscriptionCreated) && eventType != JStr(TransactionCompleted) then (db, Ok(Ignored))
      else match HandlePurchase(env.mapping, event.fields)
        case Err(_) => (db, Err(Crashed(HandlerFailed)))
        case Ok(None) => (db, Ok(Ignored))
        case Ok(Some(p)) =>
          var token := CreateLicenseToken(p.tier, env.suffix);
          match InsertUser(db, token, p.email, p.tier, env.now)
          case Err(e) => (db, Err(Crashed(StoreFailed(e))))
          case Ok(db1) => (db1, Ok(Issued(token)))
  }

  /** `paddle_webhook`; a missing signature header arrives as the empty string. */
  function Webhook(db: Db, env: WebhookEnv, raw: seq<Byte>, signature: string, payload: Payload)
    : (r: (Db, Result<WebhookReply, Failure>))
    ensures Verify(env.secret, env.hmac, raw, signature) == Ok(false) ==> r == (db, Err(InvalidSignature))
    ensures Verify(env.secret, env.hmac, raw, signature).Err? ==> r == (db, Err(Crashed(DigestFailed)))
    ensures Verify(env.secret, env.hmac, raw, signature) == Ok(true) ==>
              && (payload.NotText? ==> r == (db, Err(Crashed(BodyNotText))))
              && (payload == Text(Unparsable) ==> r == (db, Err(InvalidJson)))
              && (payload.Text? && payload.body.Parsed? ==> r == HandleEvent(db, env, payload.body.value))
    ensures r.1.Ok? && r.1.value.Issued? ==> Verify(env.secret, env.hmac, raw, signature) == Ok(true)
    ensures !(r.1.Ok? && r.1.value.Issued?) ==> r.0 == db
  {
    match Verify(env.secret, env.hmac, raw, signature)
    case Err(_) => (db, Err(Crashed(DigestFailed)))
    case Ok(false) => (db, Err(InvalidSignature))
    case Ok(true) =>
      match payload
      case NotText => (db, Err(Crashed(BodyNotText)))
      case Text(Unparsable) => (db, Err(InvalidJson))
      case Text(Parsed(event)) => HandleEvent(db, env, event)
  }

  /** A bad signature is answered 401 and creates no user (`test_webhook_invalid_signature`). */
  lemma BadSignatureCreatesNoUser(db: Db, env: WebhookEnv, raw: seq<Byte>, signature: string, payload: Payload)
    requires env.secret.Some? && env.secret.value != ""
    requires IsAscii(signature) && IsAscii(env.hmac(env.secret.value, raw))
    requires signature != env.hmac(env.secret.value, raw)
    ensures Webhook(db, env, raw, signature, payload).0 == db
    ensures HttpStatus(Webhook(db, env, raw, signature, payload).1.error) == 401
  {
  }

  /** Without a webhook secret nothing is ever accepted. */
  lemma NoSecretRejectsAll(db: Db, env: WebhookEnv, raw: seq<Byte>, signature: string, payload: Payload)
    requires env.secret.None?
    ensures Webhook(db, env, raw, signature, payload) == (db, Err(InvalidSignature))
  {
  }

  /** With the shipped product mapping, no webhook ever creates a user. */
  lemma ShippedMappingCreatesNoUser(db: Db, env: WebhookEnv, raw: seq<Byte>, signature: string, payload: Payload)
    requires env.mapping == ShippedMapping
    ensures Webhook(db, env, raw, signature, payload).0 == db
    ensures Webhook(db, env, raw, signature, payload).1.Ok? ==> Webhook(db, env, raw, signature, payload).1.value == Ignored
  {
    if payload.Text? && payload.body.Parsed? && payload.body.value.JObject? {
      ShippedMappingIssuesNothing(payload.body.value.fields);
    }
  }

  /**
   * A licence issued by the webhook is stored as exactly one new active user
   * on the purchased tier, and its token authenticates from then on.
   */
  lemma IssuedLicenceAuthenticates(db: Db, env: WebhookEnv, raw: seq<Byte>, signature: string, payload: Payload, later: Instant)
    requires ValidDb(db)
    requires Webhook(db, env, raw, signature, payload).1.Ok?
    requires Webhook(db, env, raw, signature, payload).1.value.Issued?
    ensures var (db1, r) := Webhook(db, env, raw, signature, payload);
            && ValidDb(db1)
            && |db1.users| == |db.users| + 1 && db1.logs == db.logs && db1.limits == db.limits
            && Authenticate(db1, r.value.token, later).Ok?
            && Authenticate(db1, r.value.token, later).value.active
            && Authenticate(db1, r.value.token, later).value.planTier
               == HandlePurchase(env.mapping, payload.body.value.fields).value.value.tier
  {
    var (db1, r) := Webhook(db, env, raw, signature, payload);
    assert payload.Text? && payload.body.Parsed?;
    var event := payload.body.value;
    assert (db1, r) == HandleEvent(db, env, event);
    var p := HandlePurchase(env.mapping, event.fields).value.value;
    assert InsertUser(db, r.value.token, p.email, p.tier, env.now) == Ok(db1);
    InsertThenFind(db, r.value.token, p.email, p.tier, env.now);
  }
}
