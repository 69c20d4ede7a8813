/**
 * backend/app/auth.py: the licence, rate-limit and quota gate in front of
 * the AI endpoint, and the usage statistics. Every function takes the
 * request's `now`; the two rate-limit settings are a parameter.
 */
module Auth {
  import opened Wrappers
  import opened Calendar
  import opened Plans
  import opened BackendDb

  /** `rate_limit_requests` and `rate_limit_window_seconds`. */
  datatype RateSettings = RateSettings(maxRequests: int, windowSeconds: nat)

  const DefaultRateSettings: RateSettings := RateSettings(10, 60)

  /** The detail of an `AuthError`. */
  datatype AuthError = InvalidToken | Inactive | Expired

  /** The detail of a `QuotaError`. */
  datatype QuotaError =
    | RateLimitExceeded(max: int, window: nat)
    | QuotaExhausted(used: nat, quota: nat)

  /** How the gate turns a request away. */
  datatype Refusal =
    | Unauthorized(auth: AuthError) // AuthError
    | Limited(quota: QuotaError)    // QuotaError
    | UnknownPlanTier(tier: string) // ValueError from `PlanTier(user.plan_tier)`

  /** The HTTP status each refusal ends in. */
  function Status(r: Refusal): (code: int)
    ensures code == 401 <==> r.Unauthorized?
    ensures code == 429 <==> r.Limited?
    ensures code == 500 <==> r.UnknownPlanTier?
  {
    match r
    case Unauthorized(_) => 401
    case Limited(_) => 429
    case UnknownPlanTier(_) => 500
  }

  /** Not past the expiry; an expiry equal to `now` still counts as valid, no expiry never lapses. */
  predicate Unexpired(u: User, now: Instant) {
    u.expiresAt.None? || now <= u.expiresAt.value
  }

  /** `authenticate_token`: unknown token, then inactive, then expired. */
  function Authenticate(db: Db, token: string, now: Instant): (r: Result<User, Refusal>)
    ensures r.Err? ==> r.error.Unauthorized?
    ensures r == Err(Unauthorized(InvalidToken)) <==> FindByToken(db.users, token).None?
    ensures r == Err(Unauthorized(Inactive)) <==>
              FindByToken(db.users, token).Some? && !FindByToken(db.users, token).value.active
    ensures r == Err(Unauthorized(Expired)) <==>
              && FindByToken(db.users, token).Some? && FindByToken(db.users, token).value.active
              && !Unexpired(FindByToken(db.users, token).value, now)
    ensures r.Ok? ==> r.value in db.users && r.value.token == token && r.value.active && Unexpired(r.value, now)
  {
    match FindByToken(db.users, token)
    case None => Err(Unauthorized(InvalidToken))
    case Some(user) =>
      if !user.active then Err(Unauthorized(Inactive))
      else if user.expiresAt.Some? && now > user.expiresAt.value then Err(Unauthorized(Expired))
      else Ok(user)
  }

  /**
   * With unique tokens, a token is accepted exactly when some user holds it
   * and that user is active and unexpired.
   */
  lemma AuthenticateAccepts(db: Db, token: string, now: Instant)
    requires ValidDb(db)
    ensures Authenticate(db, token, now).Ok? <==>
              exists i :: 0 <= i < |db.users| && db.users[i].token == token
                          && db.users[i].active && Unexpired(db.users[i], now)
  {
    var r := FindByToken(db.users, token);
    if r.Some? {
      forall i | 0 <= i < |db.users| && db.users[i].token == token
        ensures db.users[i] == r.value
      {
        var j :| 0 <= j < |db.users| && db.users[j] == r.value;
        if i != j {
          assert false;
        }
      }
    }
  }

  /** The window is over, or there is no row yet: `check_rate_limit` starts a new one. */
  predicate WindowOver(limits: map<nat, RateLimit>, userId: nat, now: Instant) {
    userId !in limits || now > limits[userId].resetAt
  }

  /** The rate-limit rows after the check, and the check's verdict (the remaining requests). */
  datatype RateCheck = RateCheck(limits: map<nat, RateLimit>, verdict: Result<int, Refusal>)

  /** `check_rate_limit`: the reset is committed before the comparison, so it survives a refusal. */
  function CheckRateLimit(limits: map<nat, RateLimit>, userId: nat, now: Instant, s: RateSettings): (r: RateCheck)
    ensures WindowOver(limits, userId, now) ==> r.limits == limits[userId := RateLimit(0, now + s.windowSeconds)]
    ensures !WindowOver(limits, userId, now) ==> r.limits == limits
    ensures userId in r.limits
    ensures r.verdict.Ok? <==> r.limits[userId].requestCount < s.maxRequests
    ensures r.verdict.Err? ==> r.verdict.error == Limited(RateLimitExceeded(s.maxRequests, s.windowSeconds))
    ensures r.verdict.Ok? ==> r.verdict.value >= 0 && r.verdict.value + r.limits[userId].requestCount + 1 == s.maxRequests
    ensures r.verdict.Ok? && r.limits[userId].requestCount >= 0 ==> r.verdict.value <= s.maxRequests - 1
  {
    var current := if WindowOver(limits, userId, now)
                   then limits[userId := RateLimit(0, now + s.windowSeconds)]
                   else limits;
    var count := current[userId].requestCount;
    if count >= s.maxRequests then RateCheck(current, Err(Limited(RateLimitExceeded(s.maxRequests, s.windowSeconds))))
    else RateCheck(current, Ok(s.maxRequests - count - 1))
  }

  /** `increment_rate_limit`: one more request on an existing row, nothing without one. */
  function IncrementRateLimit(limits: map<nat, RateLimit>, userId: nat): (r: map<nat, RateLimit>)
    ensures r.Keys == limits.Keys
    ensures forall k :: k in limits && k != userId ==> r[k] == limits[k]
    ensures userId in limits ==> r[userId].resetAt == limits[userId].resetAt
                                 && r[userId].requestCount == limits[userId].requestCount + 1
  {
    if userId in limits then
      limits[userId := limits[userId].(requestCount := limits[userId].requestCount + 1)]
    else limits
  }

  /** One admitted-or-refused request: the check, then the increment if the check passed. */
  function CheckThenIncrement(limits: map<nat, RateLimit>, userId: nat, now: Instant, s: RateSettings)
    : map<nat, RateLimit>
  {
    var c := CheckRateLimit(limits, userId, now, s);
    if c.verdict.Ok? then IncrementRateLimit(c.limits, userId) else c.limits
  }

  /** A run of requests at the given times. */
  function Requests(limits: map<nat, RateLimit>, userId: nat, times: seq<Instant>, s: RateSettings)
    : map<nat, RateLimit>
    decreases |times|
  {
    if |times| == 0 then limits
    else Requests(CheckThenIncrement(limits, userId, times[0], s), userId, times[1..], s)
  }

  /** Inside one window and below the limit, every request adds exactly one to the count. */
  lemma {:induction false} RequestsCount(limits: map<nat, RateLimit>, userId: nat, times: seq<Instant>, s: RateSettings)
    requires userId in limits && limits[userId].requestCount >= 0
    requires limits[userId].requestCount + |times| <= s.maxRequests
    requires forall i :: 0 <= i < |times| ==> times[i] <= limits[userId].resetAt
    ensures userId in Requests(limits, userId, times, s)
    ensures Requests(limits, userId, times, s)[userId]
            == RateLimit(limits[userId].requestCount + |times|, limits[userId].resetAt)
    decreases |times|
  {
    if |times| > 0 {
      var next := CheckThenIncrement(limits, userId, times[0], s);
      assert !WindowOver(limits, userId, times[0]);
      assert next[userId] == RateLimit(limits[userId].requestCount + 1, limits[userId].resetAt);
      RequestsCount(next, userId, times[1..], s);
    }
  }

  /**
   * `maxRequests` check-and-increment pairs, the first of which opens a new
   * window, fill that window: any further check before it ends is refused.
   */
  lemma WindowExhausts(limits: map<nat, RateLimit>, userId: nat, times: seq<Instant>, t: Instant, s: RateSettings)
    requires s.maxRequests >= 1 && |times| == s.maxRequests
    requires WindowOver(limits, userId, times[0])
    requires forall i :: 0 <= i < |times| ==> times[i] <= times[0] + s.windowSeconds
    requires t <= times[0] + s.windowSeconds
    ensures CheckRateLimit(Requests(limits, userId, times, s), userId, t, s).verdict.Err?
  {
    var first := CheckThenIncrement(limits, userId, times[0], s);
    assert first[userId] == RateLimit(1, times[0] + s.windowSeconds);
    RequestsCount(first, userId, times[1..], s);
    assert Requests(limits, userId, times, s) == Requests(first, userId, times[1..], s);
  }

  /** Ten requests at the same instant exhaust the default limit, and the eleventh is refused. */
  lemma TenRequestsExhaust(limits: map<nat, RateLimit>, userId: nat, now: Instant)
    requires userId !in limits
    ensures CheckRateLimit(Requests(limits, userId, seq(10, _ => now), DefaultRateSettings),
                           userId, now, DefaultRateSettings).verdict.Err?
  {
    WindowExhausts(limits, userId, seq(10, _ => now), now, DefaultRateSettings);
  }

  /** Once the window has passed, the next check starts afresh. */
  lemma WindowReopens(limits: map<nat, RateLimit>, userId: nat, now: Instant, s: RateSettings)
    requires userId in limits && now > limits[userId].resetAt
    requires s.maxRequests >= 1
    ensures CheckRateLimit(limits, userId, now, s).verdict == Ok(s.maxRequests - 1)
  {
  }

  const AiFeature: string := "ai_suggestion"

  /** A log that `get_monthly_quota_used` counts for this user. */
  predicate CountsTowardQuota(l: UsageLog, userId: nat, since: Instant) {
    l.userId == userId && l.feature == AiFeature && l.timestamp >= since
  }

  /** The number of logs counting toward the user's quota since `since`. */
  function QuotaLogs(logs: seq<UsageLog>, userId: nat, since: Instant): (n: nat)
    ensures n <= |logs|
    ensures n == 0 <==> forall i :: 0 <= i < |logs| ==> !CountsTowardQuota(logs[i], userId, since)
    ensures n == |logs| <==> forall i :: 0 <= i < |logs| ==> CountsTowardQuota(logs[i], userId, since)
    decreases |logs|
  {
    if |logs| == 0 then 0
    else
      var rest := logs[..|logs| - 1];
      assert forall i :: 0 <= i < |rest| ==> rest[i] == logs[i];
      QuotaLogs(rest, userId, since) + (if CountsTowardQuota(logs[|logs| - 1], userId, since) then 1 else 0)
  }

  /** `get_monthly_quota_used`: this user's AI suggestions since midnight UTC on the first of the month. */
  function MonthlyQuotaUsed(logs: seq<UsageLog>, userId: nat, now: Instant): (n: nat)
    ensures n <= |logs|
    ensures n == 0 <==> forall i :: 0 <= i < |logs| ==> !CountsTowardQuota(logs[i], userId, MonthStart(now))
  {
    QuotaLogs(logs, userId, MonthStart(now))
  }

  /** The sum of `cost_cents` over this user's logs since `since`, whatever their feature. */
  function CostSince(logs: seq<UsageLog>, userId: nat, since: Instant): int
    decreases |logs|
  {
    if |logs| == 0 then 0
    else
      var l := logs[|logs| - 1];
      CostSince(logs[..|logs| - 1], userId, since) + (if l.userId == userId && l.timestamp >= since then l.costCents else 0)
  }

  /** Appending a log adds one to the quota count when it is this user's AI log from the period, and its cost when it is this user's log from the period. */
  lemma UsageAppend(logs: seq<UsageLog>, l: UsageLog, userId: nat, since: Instant)
    ensures QuotaLogs(logs + [l], userId, since)
            == QuotaLogs(logs, userId, since) + (if CountsTowardQuota(l, userId, since) then 1 else 0)
    ensures CostSince(logs + [l], userId, since)
            == CostSince(logs, userId, since) + (if l.userId == userId && l.timestamp >= since then l.costCents else 0)
  {
    assert (logs + [l])[..|logs|] == logs;
  }

  /** With only AI logs, each costing at least a cent, the month's cost is at least the month's count. */
  lemma {:induction false} CostCoversCount(logs: seq<UsageLog>, userId: nat, since: Instant)
    requires forall i :: 0 <= i < |logs| ==> logs[i].feature == AiFeature && logs[i].costCents >= 1
    ensures CostSince(logs, userId, since) >= QuotaLogs(logs, userId, since)
    decreases |logs|
  {
    if |logs| > 0 {
      CostCoversCount(logs[..|logs| - 1], userId, since);
    }
  }

  /** A log of another feature adds to the cost but not to the quota count. */
  lemma OtherFeaturesCostButDoNotCount(userId: nat, now: Instant)
    ensures var l := UsageLog(userId, "nudge", now, 0, 0, 5);
            && QuotaLogs([l], userId, MonthStart(now)) == 0
            && CostSince([l], userId, MonthStart(now)) == 5
  {
    var l := UsageLog(userId, "nudge", now, 0, 0, 5);
    assert [l][..0] == [];
  }

  /** `check_ai_quota(db, user)`: refused once this month's count reaches the plan's quota; returns the count. */
  function CheckAiQuota(db: Db, user: User, now: Instant): (r: Result<nat, Refusal>)
    ensures r == Err(UnknownPlanTier(user.planTier)) <==> TierFromValue(user.planTier).None?
    ensures TierFromValue(user.planTier).Some? ==>
              var quota := MonthlyQuota(TierFromValue(user.planTier).value);
              var used := MonthlyQuotaUsed(db.logs, user.id, now);
              && (r.Ok? <==> used < quota)
              && (r.Ok? ==> r.value == used)
              && (r.Err? ==> r.error == Limited(QuotaExhausted(used, quota)))
  {
    match TierFromValue(user.planTier)
    case None => Err(UnknownPlanTier(user.planTier))
    case Some(tier) =>
      var used := MonthlyQuotaUsed(db.logs, user.id, now);
      if used >= MonthlyQuota(tier) then Err(Limited(QuotaExhausted(used, MonthlyQuota(tier))))
      else Ok(used)
  }

  /** `log_usage`: one more AI log, which counts toward this user's quota and no one else's. */
  function LogUsage(db: Db, userId: nat, inputTokens: int, outputTokens: int, costCents: int, now: Instant): (r: Db)
    ensures r.users == db.users && r.limits == db.limits
    ensures |r.logs| == |db.logs| + 1 && r.logs[..|db.logs|] == db.logs
    ensures r.logs[|db.logs|] == UsageLog(userId, AiFeature, now, inputTokens, outputTokens, costCents)
    ensures MonthlyQuotaUsed(r.logs, userId, now) == MonthlyQuotaUsed(db.logs, userId, now) + 1
    ensures forall other: nat, t: Instant :: other != userId ==>
              MonthlyQuotaUsed(r.logs, other, t) == MonthlyQuotaUsed(db.logs, other, t)
  {
    var l := NewLog(userId, AiFeature, now, Some(inputTokens), Some(outputTokens), costCents);
    UsageAppend(db.logs, l, userId, MonthStart(now));
    forall other: nat, t: Instant | other != userId
      ensures QuotaLogs(db.logs + [l], other, MonthStart(t)) == QuotaLogs(db.logs, other, MonthStart(t))
    {
      UsageAppend(db.logs, l, other, MonthStart(t));
    }
    assert (db.logs + [l])[..|db.logs|] == db.logs;
    db.(logs := db.logs + [l])
  }

  /** The three logs of `test_get_monthly_quota_used`, written this month, count three. */
  lemma ThreeLogsThisMonth(db: Db, userId: nat, now: Instant)
    ensures var d1 := LogUsage(db, userId, 100, 50, 1, now);
            var d2 := LogUsage(d1, userId, 100, 50, 1, now);
            var d3 := LogUsage(d2, userId, 100, 50, 1, now);
            MonthlyQuotaUsed(d3.logs, userId, now) == MonthlyQuotaUsed(db.logs, userId, now) + 3
  {
  }

  /** `get_usage_stats`. */
  function UsageStatsOf(db: Db, user: User, now: Instant, s: RateSettings): (r: Result<UsageStats, Refusal>)
    ensures r == Err(UnknownPlanTier(user.planTier)) <==> TierFromValue(user.planTier).None?
    ensures r.Ok? ==> && r.value.userId == user.id
                      && Some(r.value.planTier) == TierFromValue(user.planTier)
                      && r.value.aiQuotaUsed == MonthlyQuotaUsed(db.logs, user.id, now)
                      && r.value.aiQuotaTotal == MonthlyQuota(r.value.planTier)
                      && r.value.thisMonthCostCents == CostSince(db.logs, user.id, MonthStart(now))
    ensures r.Ok? ==> (r.value.aiQuotaRemaining > 0 <==> CheckAiQuota(db, user, now).Ok?)
    ensures r.Ok? ==> r.value.aiQuotaRemaining <= r.value.aiQuotaTotal
                      && (r.value.aiQuotaRemaining > 0 ==> r.value.aiQuotaUsed + r.value.aiQuotaRemaining == r.value.aiQuotaTotal)
    ensures r.Ok? && user.id !in db.limits ==>
              r.value.rateLimitRemaining == s.maxRequests && r.value.rateLimitResetAt == now + s.windowSeconds
    ensures r.Ok? && user.id in db.limits ==>
              && r.value.rateLimitResetAt == db.limits[user.id].resetAt
              && r.value.rateLimitRemaining >= 0
              && (r.value.rateLimitRemaining > 0 ==>
                    r.value.rateLimitRemaining + db.limits[user.id].requestCount == s.maxRequests)
              && (r.value.rateLimitRemaining == 0 <==> db.limits[user.id].requestCount >= s.maxRequests)
  {
    match TierFromValue(user.planTier)
    case None => Err(UnknownPlanTier(user.planTier))
    case Some(tier) =>
      var used := MonthlyQuotaUsed(db.logs, user.id, now);
      var total := MonthlyQuota(tier);
      var remaining: nat := if total > used then total - used else 0;
      var cost := CostSince(db.logs, user.id, MonthStart(now));
      if user.id in db.limits then
        var row := db.limits[user.id];
        var rate := if s.maxRequests - row.requestCount > 0 then s.maxRequests - row.requestCount else 0;
        Ok(UsageStats(user.id, tier, used, total, remaining, cost, rate, row.resetAt))
      else
        Ok(UsageStats(user.id, tier, used, total, remaining, cost, s.maxRequests, now + s.windowSeconds))
  }

  /**
   * While the window is open, the statistics agree with the next check: it is
   * admitted exactly when requests remain, and it reports one fewer.
   */
  lemma RateStatsMatchCheck(db: Db, user: User, now: Instant, s: RateSettings)
    requires UsageStatsOf(db, user, now, s).Ok?
    requires !WindowOver(db.limits, user.id, now)
    ensures var stats := UsageStatsOf(db, user, now, s).value;
            var check := CheckRateLimit(db.limits, user.id, now, s);
            && (check.verdict.Ok? <==> stats.rateLimitRemaining > 0)
            && (check.verdict.Ok? ==> check.verdict.value == stats.rateLimitRemaining - 1)
  {
  }

  /** Once the window has passed the statistics still show the old count: a full row reads 0 though the next check is admitted. */
  lemma StaleRateStats(db: Db, user: User, now: Instant)
    requires TierFromValue(user.planTier).Some?
    requires user.id in db.limits && db.limits[user.id] == RateLimit(10, 0) && now > 0
    ensures UsageStatsOf(db, user, now, DefaultRateSettings).value.rateLimitRemaining == 0
    ensures CheckRateLimit(db.limits, user.id, now, DefaultRateSettings).verdict == Ok(9)
  {
  }
}
