/**
 * backend/app/models.py: the plan tiers with their quota table, and the
 * request and response bodies of the suggestion endpoint. The service's
 * `PriorityLevel` is the shared `Priority` enumeration.
 */
module Plans {
  import opened Wrappers
  import opened Text
  import opened Json
  import opened Calendar
  import opened Priority

  /** `PlanTier`: exactly four plans. */
  datatype PlanTier = Free | Indie | Pro | Team

  function TierValue(t: PlanTier): string {
    match t
    case Free => "free"
    case Indie => "indie"
    case Pro => "pro"
    case Team => "team"
  }

  /** `PlanTier(s)`: the tier whose value is exactly `s`, or `None` where it raises `ValueError`. */
  function TierFromValue(s: string): (r: Option<PlanTier>)
    ensures forall t :: r == Some(t) <==> TierValue(t) == s
    ensures r.None? <==> s !in {"free", "indie", "pro", "team"}
  {
    if s == "free" then Some(Free)
    else if s == "indie" then Some(Indie)
    else if s == "pro" then Some(Pro)
    else if s == "team" then Some(Team)
    else None
  }

  /** Every tier's value reads back as that tier, and no two tiers share a value. */
  lemma TierValueRoundTrip(t: PlanTier, u: PlanTier)
    ensures TierFromValue(TierValue(t)) == Some(t)
    ensures TierValue(t) == TierValue(u) <==> t == u
  {
  }

  /** The order in which the tiers are declared. */
  function Rank(t: PlanTier): nat {
    match t
    case Free => 0
    case Indie => 1
    case Pro => 2
    case Team => 3
  }

  /** One entry of `PLAN_CONFIGS`. */
  datatype PlanConfig = PlanConfig(monthlyQuota: nat, costPerSuggestionCents: nat)

  /** `PLAN_CONFIGS[t]`. */
  function Config(t: PlanTier): (c: PlanConfig)
    ensures c.costPerSuggestionCents == 0
    ensures c.monthlyQuota >= 5
  {
    match t
    case Free => PlanConfig(5, 0)
    case Indie => PlanConfig(100, 0)
    case Pro => PlanConfig(1000, 0)
    case Team => PlanConfig(5000, 0)
  }

  function MonthlyQuota(t: PlanTier): nat {
    Config(t).monthlyQuota
  }

  /** A higher tier always has a strictly larger monthly quota. */
  lemma QuotaGrowsWithTier(a: PlanTier, b: PlanTier)
    ensures Rank(a) < Rank(b) <==> MonthlyQuota(a) < MonthlyQuota(b)
  {
  }

  /** The quota table of the free plan is the one `test_check_ai_quota_free_plan` exhausts with five logs. */
  lemma QuotaTable()
    ensures MonthlyQuota(Free) == 5 && MonthlyQuota(Indie) == 100
    ensures MonthlyQuota(Pro) == 1000 && MonthlyQuota(Team) == 5000
  {
  }

  /** `SuggestReminderRequest`: both fields already whitespace-stripped. */
  datatype SuggestRequest = SuggestRequest(licenseToken: string, reminderText: string)

  /** The body was not two strings: FastAPI answers 422. */
  datatype Unprocessable = Unprocessable

  /** No leading or trailing White_Space. */
  predicate Trimmed(s: string) {
    |s| > 0 ==> !IsWhiteSpace(s[0]) && !IsWhiteSpace(s[|s| - 1])
  }

  /** `SuggestReminderRequest(**body)` under `str_strip_whitespace`. */
  function MakeSuggestRequest(token: Json, text: Json): (r: Result<SuggestRequest, Unprocessable>)
    ensures r.Ok? <==> token.JStr? && text.JStr?
    ensures r.Ok? ==> Trimmed(r.value.licenseToken) && Trimmed(r.value.reminderText)
    ensures r.Ok? ==> Contains(token.s, r.value.licenseToken) && Contains(text.s, r.value.reminderText)
    ensures r.Ok? && Trimmed(token.s) ==> r.value.licenseToken == token.s
    ensures r.Ok? && Trimmed(text.s) ==> r.value.reminderText == text.s
    ensures r.Ok? ==> r.value.licenseToken == Trim(token.s) && r.value.reminderText == Trim(text.s)
  {
    if token.JStr? && text.JStr? then
      StripIsInside(token.s);
      StripIsInside(text.s);
      StripTrimmed(token.s);
      StripTrimmed(text.s);
      StripKeepsTrimmed(token.s);
      StripKeepsTrimmed(text.s);
      Ok(SuggestRequest(Trim(token.s), Trim(text.s)))
    else Err(Unprocessable)
  }

  /** Trimming keeps a contiguous piece of the input. */
  lemma StripIsInside(s: string)
    ensures Contains(s, Trim(s))
  {
    var i := StripStart(WhiteSpace, s);
    assert Trim(s) <= s[i..];
  }

  /** Trimming leaves no White_Space at either end. */
  lemma StripTrimmed(s: string)
    ensures Trimmed(Trim(s))
  {
  }

  /** A trimmed string is its own trim. */
  lemma StripKeepsTrimmed(s: string)
    ensures Trimmed(s) ==> Trim(s) == s
  {
    if Trimmed(s) {
      StripNoSpace(WhiteSpace, s);
    }
  }

  /** Normalising an already normalised request changes nothing. */
  lemma MakeSuggestRequestIdempotent(token: Json, text: Json)
    requires MakeSuggestRequest(token, text).Ok?
    ensures var q := MakeSuggestRequest(token, text).value;
            MakeSuggestRequest(JStr(q.licenseToken), JStr(q.reminderText)) == Ok(q)
  {
  }

  /** `SuggestReminderResponse`, with its string fields stripped. */
  datatype SuggestResponse = SuggestResponse(suggestedText: string, priority: Priority,
                                             dueTimeSuggestion: Option<string>, costCents: int)

  /** `SuggestReminderResponse(...)`: the text must be a string, the due suggestion a string or null. */
  function MakeSuggestResponse(suggested: Json, priority: Priority, due: Json, costCents: int)
    : (r: Result<SuggestResponse, Unprocessable>)
    ensures r.Ok? <==> suggested.JStr? && (due.JStr? || due.JNull?)
    ensures r.Ok? ==> r.value.priority == priority && r.value.costCents == costCents
    ensures r.Ok? ==> Trimmed(r.value.suggestedText) && Contains(suggested.s, r.value.suggestedText)
    ensures r.Ok? ==> r.value.suggestedText == Trim(suggested.s)
    ensures r.Ok? ==> (r.value.dueTimeSuggestion.None? <==> due.JNull?)
    ensures r.Ok? && due.JStr? ==> r.value.dueTimeSuggestion == Some(Trim(due.s))
  {
    if suggested.JStr? && (due.JStr? || due.JNull?) then
      StripIsInside(suggested.s);
      StripTrimmed(suggested.s);
      Ok(SuggestResponse(Trim(suggested.s), priority,
                         if due.JStr? then Some(Trim(due.s)) else None, costCents))
    else Err(Unprocessable)
  }

  /** `UsageStats`. The reset time is kept as an instant rather than its ISO text. */
  datatype UsageStats = UsageStats(userId: nat, planTier: PlanTier, aiQuotaUsed: nat, aiQuotaTotal: nat,
                                   aiQuotaRemaining: nat, thisMonthCostCents: int,
                                   rateLimitRemaining: int, rateLimitResetAt: Instant)
}
