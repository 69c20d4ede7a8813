# remind-cli, modelled in Dafny

remind-cli has two halves. The command-line client keeps reminders in a local
SQLite table and runs a background scheduler. On each pass the scheduler
notifies every due reminder once. For licensed users it then nudges again
after the configured intervals. The FastAPI backend sells licences through
Paddle webhooks. It gates the AI suggestion endpoint behind four checks, in
order: token authentication, a per-user rate-limit window, a monthly quota
per plan, and usage logging for billing.

This project models both halves as pure functions over immutable values.
Time is an integer `Instant`, counted in seconds since 0001-01-01T00:00:00
UTC. Each operation takes the current instant as an argument.

Client side:
- The reminder table is a sequence of rows with increasing ids
  (`Store`).
- The scheduler's nudge state is a map from reminder id to the instant of the
  last notification (`Scheduler`).
- The client also has configuration loading (`RemindConfig`), validated
  models (`RemindModels`), the plugin registry (`Plugins`), the backend
  client (`ClientAi`), and the `add` / `list` / `done` command rules (`Cli`).

Backend:
- The three tables are one `Db` value (`BackendDb`).
- The licence, rate-limit and quota gate is in `Auth`, and the plan table and
  request normalisation are in `Plans`.
- The post-call handling of the model's answer and the cost model are in
  `BackendAi`.
- Paddle signature checking, event extraction and the licence token format
  are in `Paddle`.
- The two endpoints and the webhook are in `Api`.

Some things the program reaches but cannot compute itself: the OpenAI reply,
the HTTP reply, the HMAC, the random token suffix, the config file read,
dateparser's result, and whether a notifier or plugin raises. Each of these
is an explicit input.

Shared building blocks:
- `Wrappers`: `Option` and `Result`.
- `Json`: a JSON value, plus a decode that can fail.
- `Text`: Python's `strip`, `split`, `join`, `int` and `str`, pydantic's White_Space trim, and ASCII
  lower-casing.
- `Calendar`: the proleptic Gregorian calendar over instants.
- `SqlLike`: SQL `LIKE` matching.
- `Priority`: the priority enum.

## Model

| member | source | states |
|---|---|---|
| Calendar.YearOf | remind/cli.py:237 | the year of a day count: the day lies within that year, at the offset returned |
| Calendar.MonthOf | remind/cli.py:237 | the month of a day within its year: the day lies within that month, at the day returned |
| Calendar.CivilFromDays | remind/cli.py:237 | the date of a day count is a valid Gregorian date with that day number |
| Calendar.DayNumberInjective | remind/cli.py:237 | two valid dates with the same day number are the same date, so comparing `.date()` values compares days |
| Calendar.DateOf | remind/cli.py:237 | `.date()` in UTC: a valid date whose day number is the instant's day |
| Calendar.SameDate | remind/cli.py:237 | two instants have the same `.date()` iff the second lies in the UTC day of the first |
| Calendar.MonthStart | backend/app/auth.py:102 | `now.replace(day=1, hour=0, ...)`: a midnight at or before the instant, dated the first of its month |
| Calendar.MonthStartSameMonth | backend/app/auth.py:102-108 | every instant from the month start up to the instant lies in the same month |
| Calendar.MonthStartPrecededByPreviousMonth | backend/app/auth.py:102 | the second before the month start is the last day of another month |
| Priority.FromValue | remind/models.py:9-14 | `PriorityLevel(s)` succeeds exactly for "high", "medium", "low", and the member returned has that value |
| Priority.ValuesDistinct | remind/models.py:9-14 | the three priorities have pairwise distinct values |
| RemindModels.MakeReminder | remind/models.py:17-34 | a reminder validates iff its text has 1 to 1000 characters; the two failures name which bound was broken; on success every field is kept |
| RemindModels.MakeAIResponse | remind/models.py:37-43 | an AI response validates iff the suggested text is a non-empty string and the due hint is a string or null |
| RemindModels.MakeLicense | remind/models.py:46-51 | a licence validates iff its token has at least 10 characters |
| RemindModels.DefaultConfigValues | remind/models.py:59-66 | `Config()` is valid and has timezone UTC, interval 1, all three switches on, and nudge intervals [5, 15, 60] |
| RemindModels.MakeConfig | remind/models.py:54-66 | a validated config always has its interval in [1, 60]; an empty table gives the defaults; each field present in the table (timezone, interval, switches, backend URL, API key, nudge intervals) is carried over, an absent one takes its default |
| RemindModels.MakeConfigAccepts | remind/models.py:54-66 | a table validates iff every field in it has the declared type (and the interval lies in [1, 60]) |
| RemindModels.SetSchedulerInterval | remind/models.py:57-60 | assignment under `validate_assignment` succeeds iff the value is in [1, 60], and changes only that field |
| Utils.TruncateText | remind/utils.py:64-77 | text no longer than the limit is returned unchanged; longer text becomes its first `max` characters plus "...", of length max + 3 (a negative limit follows Python slicing) |
| Utils.ParsePriority | remind/utils.py:80-97 | a string whose lower-case form is a priority value parses to that priority; a missing value or any other string gives the default |
| Utils.ParsePriorityCaseInsensitive | remind/utils.py:94-95 | a string and its lower-case form parse to the same priority |
| Utils.ParsePriorityAcceptsValue | remind/utils.py:94-95 | every priority, written in any case, parses to itself whatever the default |
| Utils.NextDayInMonth | remind/utils.py:124-125 | except on the last day of a month, `today.replace(day=day+1)` is the next calendar day |
| Utils.FormatDatetime | remind/utils.py:100-142 | "today" iff same UTC date; a ValueError iff another date on the last day of the month; "tomorrow" iff the next date; "overdue" and "in N days" carry the whole elapsed or remaining days; a date 7 or more days ahead is printed as a date |
| Text.StripBy | remind/config.py:93 | `x.strip()` (Python whitespace) and pydantic's `str_strip_whitespace` (Unicode White_Space) each give the slice of `x` left once that whitespace alone is cut from both ends, neither starting nor ending with it |
| Text.WhiteSpaceIsSpace | backend/app/models.py:29 | Unicode White_Space is Python's `isspace()` set less exactly U+001C to U+001F |
| Text.StripsDiffer | backend/app/models.py:29 | `"\x1cabc".strip()` is "abc", while pydantic keeps the string as it is |
| Text.StripsAgree | backend/app/models.py:29 | a string with no Python whitespace at either end is left alone by both strips |
| Text.JoinSplit | remind/config.py:93 | joining the pieces of `s.split(",")` with "," gives `s` back |
| Text.SplitJoin | remind/config.py:93 | splitting a comma-join of comma-free pieces recovers the pieces |
| Text.ParseShowInt | remind/config.py:93 | `int(str(n))` is n for every integer, negative ones included |
| RemindConfig.ApplyEnv | remind/config.py:75-87 | an environment value overrides the file only when it differs from the built-in default; booleans can only be forced to false; every other key keeps the file's value |
| RemindConfig.ParseFormatIntervals | remind/config.py:89-94 | splitting a comma-joined interval list and applying `int` to each trimmed piece gives the list back |
| RemindConfig.AllSome | remind/config.py:92-94 | the comprehension yields a list iff every piece parses, and then the list holds exactly the parsed values in order |
| RemindConfig.ParseShowAll | remind/config.py:92-94 | `int(str(n))` recovers every interval of a list |
| RemindConfig.DefaultIntervalsParse | remind/config.py:22 | the default string "5,15,60" parses to [5, 15, 60] |
| RemindConfig.EmptyIntervalStringFails | remind/config.py:91-94 | an empty interval string makes `int("")` fail |
| RemindConfig.LoadConfigOutcome | remind/config.py:53-100 | loading fails iff the file has no interval list and the environment string does not parse; otherwise the result is a valid config |
| RemindConfig.LoadDefaults | remind/config.py:57-73 | a missing or unreadable file with no environment overrides gives `Config()` |
| RemindConfig.FileIntervalsTakePrecedence | remind/config.py:89-94 | intervals in the file are used as they are, and the environment string is not parsed |
| RemindConfig.Merged | remind/config.py:53-94 | the table handed to `ConfigModel`: the file with the environment applied and, when the file lists no intervals, the intervals parsed from the environment; none iff that parse fails |
| RemindConfig.InvalidConfigFallsBack | remind/config.py:96-100 | whether the intervals came from the file or the environment, a merged table that fails validation gives the all-defaults config |
| RemindConfig.SettingsReachConfig | remind/config.py:75-93 | whenever the intervals come from the file or parse from the environment and the merged table validates: a `REMIND_TIMEZONE` or `REMIND_SCHEDULER_INTERVAL_MINUTES` differing from its default, or a non-empty API key setting, reaches the loaded config; otherwise the file's timezone and interval do, or their defaults when the file has none |
| RemindConfig.EnvTimezoneWithoutFile | remind/config.py:57-100 | with no file, a `REMIND_TIMEZONE` alone gives `Config()` in that timezone |
| RemindConfig.BooleansOnlyForcedFalse | remind/config.py:80-93 | with or without a file: an environment switch turned off forces false; one left on keeps the file's value, or the default true when the file has none |
| Plugins.GetPlugin | remind/plugins.py:39-41 | the lookup is None iff no plugin has that name; otherwise it is the registered plugin of that name |
| Plugins.Register | remind/plugins.py:35-37 | registration keeps names unique; a new name is appended; an existing name is replaced in its own position |
| Plugins.RegisterThenGet | remind/plugins.py:35-41 | after registration, the name looks up the new plugin |
| Plugins.RegisterKeepsOthers | remind/plugins.py:35-41 | registration leaves every other name's lookup unchanged |
| Plugins.NotifyDue | remind/plugins.py:43-49 | every registered plugin is called once, in order, and a plugin that raises does not stop the others |
| Plugins.NotifyDone | remind/plugins.py:51-57 | the same for `on_reminder_done`, whose default does nothing and so never raises |
| SqlLike.LiteralPrefix | remind/db.py:165-168 | a wildcard-free `q%` matches exactly the strings that start with q |
| SqlLike.LeadingPercent | remind/db.py:165-168 | a leading `%` matches iff the rest of the pattern matches some suffix |
| SqlLike.LiteralSearchIsContains | remind/db.py:165-168 | for a wildcard-free q, `LIKE '%q%'` is the substring test |
| SqlLike.ILikeLiteral | remind/db.py:165-168 | for a wildcard-free q, `ILIKE '%q%'` is the ASCII case-insensitive substring test |
| SqlLike.UnderscoreIsWildcard | remind/db.py:165-168 | the query is not escaped: "a_c" finds "abc", which does not contain it |
| Store.MaxId | remind/db.py:22 | the largest id in use: an id some row holds that bounds every row's id, and 0 for an empty table |
| Store.Find | remind/db.py:104 | the position of the row with that id, or None iff no row has it |
| Store.ToModels | remind/db.py:31-42 | converting a result set succeeds iff every row's text validates, and then returns the rows |
| Store.SortRows | remind/db.py:116 | the rows in ascending (due time, id) order, as a permutation of the input |
| Store.Query | remind/db.py:113-119 | a query returns exactly the selected rows, in due order; it fails iff some selected row does not validate |
| Store.Add | remind/db.py:75-96 | the row is committed with the next id, positive and above every existing id, and with done_at None; text that fails validation is still stored and the call fails |
| Store.Get | remind/db.py:100-107 | None exactly when the id is absent; otherwise the row with that id |
| Store.ListActive | remind/db.py:109-121 | exactly the rows with done_at None, ascending by due time; fails iff one of those rows has text that does not validate |
| Store.ListAll | remind/db.py:123-132 | all rows, one entry per row, ascending by due time |
| Store.GetDue | remind/db.py:176-189 | exactly the rows with done_at None and due_at at or before now, ascending; fails iff one of those rows has text that does not validate |
| Store.Search | remind/db.py:161-174 | exactly the rows whose text matches `ILIKE '%query%'`, ascending; fails iff one of those rows has text that does not validate |
| Store.SearchLiteral | remind/db.py:161-174 | for a wildcard-free query, search is the case-insensitive substring test |
| Store.MarkDone | remind/db.py:134-146 | an unknown id leaves the table unchanged and returns None; otherwise only that row's done_at changes, to now, and the call returns that row (Some) or fails validation |
| Store.Delete | remind/db.py:148-159 | true iff the id existed; exactly that row is removed; the table is unchanged otherwise |
| Store.AddThenGet | remind/db.py:75-107 | a reminder just added with valid text is what `get_reminder` returns for its id |
| Store.DeleteThenGet | remind/db.py:100-159 | after a delete the id is gone for `get_reminder` |
| Store.MarkDoneLeavesActive | remind/db.py:134-189 | a reminder marked done leaves both the active listing and the due query |
| Scheduler.MinInterval | remind/scheduler.py:46-52 | the smallest interval is one of the list and at most each of them |
| Scheduler.AnyIntervalIsMin | remind/scheduler.py:46-54 | "some interval k has elapsed since due and since the last nudge" iff the minimum interval has |
| Scheduler.ShouldNudgeUsesMinimum | remind/scheduler.py:42-54 | for a notified id, `should_nudge` is the test on the smallest interval |
| Scheduler.NoIntervalsNoNudge | remind/scheduler.py:37-54 | with no intervals `should_nudge` is false, whether or not the id was seen |
| Scheduler.RecordNudge | remind/scheduler.py:56-58 | sets that id's entry to now and changes no other |
| Scheduler.RecordDone | remind/scheduler.py:60-63 | removes that id only, and does nothing when it is absent |
| Scheduler.NudgeJustRecorded | remind/scheduler.py:42-58 | right after a nudge, a 5-minute interval does not fire even an hour past the due time |
| Scheduler.Decide | remind/scheduler.py:121-137 | a reminder gets a first notification iff its id is unseen; a seen one is skipped without a licence, raises when its check raises, and otherwise is nudged iff `should_nudge` holds |
| Scheduler.CheckAndNotify | remind/scheduler.py:115-140 | a failed due query changes nothing; otherwise the pass is the loop over the due reminders in order; ids are only added; a completed pass records every due id |
| Scheduler.NotifyDue | remind/scheduler.py:121-137 | the loop computes the recursive reference pass |
| Scheduler.LoopNeverQueries | remind/scheduler.py:117-140 | the loop itself never ends as a failed query |
| Scheduler.KeysGrow | remind/scheduler.py:121-137 | a pass only adds ids to the state |
| Scheduler.CompletedRecordsAll | remind/scheduler.py:117-140 | after a pass with no escaping exception, every due id is recorded |
| Scheduler.StateIgnoresDelivery | remind/scheduler.py:142-168 | notifier failures are swallowed: the state a pass leaves is the same whatever the delivery outcome |
| Scheduler.SeenLicensedNudges | remind/scheduler.py:129-137 | under a licence, a seen reminder whose check does not raise is nudged first and re-recorded at now when `should_nudge` holds, and passed over otherwise |
| Scheduler.FirstSightNotifies | remind/scheduler.py:123-128 | an unseen due reminder is notified at once, with no interval gate, and its id is recorded at now |
| Scheduler.UnlicensedSeenIsSilent | remind/scheduler.py:129-137 | without a licence, a seen reminder sends nothing and changes nothing |
| Scheduler.NudgesNeedLicence | remind/scheduler.py:129-137 | every nudge sent had a licence and a due id; with distinct due ids, the id was in the state at the start of the pass and `should_nudge` held for it against that state |
| Scheduler.AbortStopsPass | remind/scheduler.py:117-140 | an exception at the k-th reminder aborts the pass, with at most k notifications sent |
| ClientAi.NewManager | remind/ai.py:13-16 | the backend URL loses exactly its trailing slashes |
| ClientAi.NewManagerIdempotent | remind/ai.py:15 | normalising a normalised URL changes nothing |
| ClientAi.GetAIManager | remind/ai.py:69-78 | a manager exists iff both URL and token are given and non-empty |
| ClientAi.SuggestPost | remind/ai.py:31-34 | the POST goes to `/api/v1/suggest-reminder` under the normalised URL, with the token and text |
| ClientAi.CostCents | remind/ai.py:49-50 | the cost in cents is read from a number or a boolean; any other value fails |
| ClientAi.ParseSuggestion | remind/ai.py:43-57 | lenient priority (unknown means medium); the text defaults to the input; the cost is the reply's cents; the due hint is the reply's string, None when absent or null, and any other value is a bad payload |
| ClientAi.Exchange | remind/ai.py:30-62 | 401, 429 (carrying the server's detail), any other non-200, and transport errors are failures; success needs a 200 object reply |
| ClientAi.SuggestRephrasing | remind/ai.py:19-62 | without a licence PremiumRequired, unwrapped; with one, every failure surfaces as a RuntimeError |
| ClientAi.EmptyReplyDefaults | remind/ai.py:46-57 | an empty reply keeps the user's text at medium priority with no cost |
| ClientAi.UnknownPriorityIsMedium | remind/ai.py:46-47 | an unknown priority string is read as medium rather than rejected |
| Cli.DueTime | remind/cli.py:121-137 | no due text means 09:00 UTC today; an unparsable due text is an error; otherwise the parsed time |
| Cli.AcceptPriority | remind/cli.py:139-152 | an explicit priority is accepted iff it parses to non-medium or its lower-case form is medium, med or m; none means medium |
| Cli.AcceptPriorityIgnoresCase | remind/cli.py:140-146 | acceptance depends only on the lower-case form |
| Cli.AiStep | remind/cli.py:154-187 | the backend is asked only when AI is enabled and allowed, a licence exists and a backend is configured; a successful answer's priority always replaces the user's |
| Cli.Add | remind/cli.py:100-202 | a bad due time or a bad priority exits with code 1 and adds nothing; otherwise exactly one row is added after the existing rows, which are kept as they were |
| Cli.AddDefaults | remind/cli.py:128-152 | with no options and no AI, the reminder is due today at 09:00 UTC with medium priority |
| Cli.Keep | remind/cli.py:236-238 | each section holds exactly the reminders that qualify; an ascending input gives an ascending section |
| Cli.KeepAppend | remind/cli.py:236-238 | the comprehension distributes over concatenation, so kept reminders stay in the order the query returned them |
| Cli.KeepSingle | remind/cli.py:236-238 | the empty list keeps nothing and one reminder is kept iff it qualifies; with the previous row this makes `Keep` the order-preserving filter |
| Cli.Sectioned | remind/cli.py:223-269 | "No reminders found" iff nothing is selected; otherwise the overdue and today sections in full, and of the upcoming ones the first 10 in order (`upcoming[:10]`) with the count of the rest |
| Cli.SectionsOverlap | remind/cli.py:236-238 | overdue and upcoming are disjoint and one due exactly now is in neither |
| Cli.List | remind/cli.py:205-269 | `--all` picks all rows, otherwise active ones; a project keeps exact matches only |
| Cli.Done | remind/cli.py:272-285 | an unknown id exits with code 1 and changes nothing; otherwise that reminder, and no other row, is marked done at now, and the call succeeds iff its text validates |
| Plans.TierFromValue | backend/app/models.py:8-14 | `PlanTier(s)` succeeds exactly for free, indie, pro and team |
| Plans.TierValueRoundTrip | backend/app/models.py:8-14 | every tier's value reads back as that tier, and the values are distinct |
| Plans.Config | backend/app/models.py:18-23 | every plan costs 0 cents per suggestion and has a quota of at least 5 |
| Plans.QuotaGrowsWithTier | backend/app/models.py:18-23 | a higher tier has a strictly larger quota, and conversely |
| Plans.QuotaTable | backend/app/models.py:18-23 | the quotas are 5, 100, 1000 and 5000 |
| Plans.MakeSuggestRequest | backend/app/models.py:26-32 | a body validates iff both fields are strings; the stored values are the input with Unicode White_Space trimmed from both ends, as pydantic's `str_strip_whitespace` does: trimmed slices of it, and unchanged if already trimmed |
| Plans.MakeSuggestRequestIdempotent | backend/app/models.py:29 | normalising a normalised request changes nothing |
| Plans.MakeSuggestResponse | backend/app/models.py:43-51 | the response validates iff the text is a string and the due hint a string or null; both strings are the input with Unicode White_Space trimmed from both ends |
| BackendDb.FindByToken | backend/app/auth.py:36 | None iff no user has the token; otherwise a user with it |
| BackendDb.MaxUserId | backend/app/database.py:22 | the largest user id: an id some user holds that bounds every user id, and 0 for no users |
| BackendDb.InsertUser | backend/app/database.py:17-28 | a list or object email cannot be bound; a null email or a taken token violates NOT NULL or UNIQUE; otherwise one active user with no expiry and the next id is appended |
| BackendDb.InsertThenFind | backend/app/database.py:22-23 | an insert keeps ids increasing and tokens unique, and the token then finds the new user |
| BackendDb.FindLast | backend/app/database.py:23 | a token not held by earlier users finds a user appended with it |
| Auth.Status | backend/app/auth.py:11-28 | auth errors answer 401, quota errors 429, and an unknown plan tier 500 |
| Auth.Authenticate | backend/app/auth.py:31-52 | it fails in order (unknown token, then inactive, then expired strictly before now); otherwise it returns that active user |
| Auth.AuthenticateAccepts | backend/app/auth.py:31-52 | over a valid table, a token authenticates iff some active user with no expiry, or an expiry at or after now, holds it |
| Auth.CheckRateLimit | backend/app/auth.py:55-96 | the window resets iff there is no row or now is past reset_at, and the reset is kept even on refusal; refused iff count ≥ max; otherwise remaining = max − count − 1 |
| Auth.IncrementRateLimit | backend/app/auth.py:140-145 | exactly one more on an existing row; no row and every other row unchanged |
| Auth.RequestsCount | backend/app/auth.py:55-145 | within one window and below the limit, every check-and-increment adds exactly one |
| Auth.WindowExhausts | backend/app/auth.py:55-145 | max check-and-increment pairs in one window make the next check in that window fail |
| Auth.TenRequestsExhaust | backend/app/auth.py:55-145 | with the default settings, the eleventh request at one instant is refused |
| Auth.WindowReopens | backend/app/auth.py:67-96 | once the window has passed, the next check admits with max − 1 remaining |
| Auth.QuotaLogs | backend/app/auth.py:104-108 | the count is 0 iff no log counts, and is all of them iff every log counts |
| Auth.MonthlyQuotaUsed | backend/app/auth.py:99-110 | only this user's "ai_suggestion" logs since midnight UTC on the first of the month count |
| Auth.UsageAppend | backend/app/auth.py:104-108 | appending a log adds one to the count iff it is this user's AI log from the month; it adds its cost iff it is this user's log from the month |
| Auth.CostCoversCount | backend/app/auth.py:104-167 | when every log is an AI log costing at least a cent, the month's cost is at least the month's count |
| Auth.OtherFeaturesCostButDoNotCount | backend/app/auth.py:104-167 | a log of another feature adds to the cost but not to the quota count |
| Auth.CheckAiQuota | backend/app/auth.py:113-124 | an unknown tier raises; otherwise refused iff this month's count has reached the plan's quota |
| Auth.LogUsage | backend/app/auth.py:127-137 | exactly one AI log is appended; it adds one to this user's monthly count and nothing to anyone else's |
| Auth.ThreeLogsThisMonth | backend/app/auth.py:99-137 | three logs written this month count three |
| Auth.UsageStatsOf | backend/app/auth.py:148-191 | quota remaining = max(0, total − used), positive iff the quota check passes; cost sums every log of the month; rate remaining = max(0, max − count) with no reset; with no row, max and now + window |
| Auth.RateStatsMatchCheck | backend/app/auth.py:169-180 | inside a window, the remaining shown is one more than what the next check returns |
| Auth.StaleRateStats | backend/app/auth.py:169-180 | after the window has passed, a full row still shows 0 remaining, though the next check admits |
| BackendAi.CalculateCost | backend/app/ai.py:22-32 | at least one cent, and otherwise the floor of (375·in + 1500·out) / 10^8 |
| BackendAi.CostMonotone | backend/app/ai.py:22-32 | the cost never falls when either count grows |
| BackendAi.MinimumCharge | backend/app/ai.py:32 | below two cents of usage the charge is exactly one cent |
| BackendAi.CostSamples | backend/app/ai.py:22-32 | (0,0), (100,50) and (10000,5000) cost 1 cent; 400000 input tokens cost 1 and 600000 cost 2 |
| BackendAi.SuggestReminder | backend/app/ai.py:66-89 | which error each malformed reply gives, each as an iff; a suggestion is returned iff the reply is a non-empty JSON object with usage and a valid priority; missing counts become 0; the cost comes from the counts; defaults for missing fields |
| BackendAi.MissingFieldsDefault | backend/app/ai.py:82-85 | an empty object keeps the input text at medium priority with no due suggestion |
| BackendAi.SampleCompletion | backend/app/ai.py:66-89 | a complete reply is taken field by field, costing 1 cent for 50 and 20 tokens |
| BackendAi.StrictPriority | backend/app/ai.py:84 | a priority outside low, medium and high is an error, not a default |
| Paddle.Verify | backend/app/paddle.py:19-34 | false whenever the secret is unset or empty; otherwise true iff the signature equals the HMAC hex digest; a non-ASCII digest raises |
| Paddle.SignedBodyVerifies | backend/app/paddle.py:28-34 | the body's own digest verifies and every other ASCII signature does not |
| Paddle.PlanTierOf | backend/app/paddle.py:37-48 | the mapped tier of a string product id, None otherwise; a list or object id raises TypeError |
| Paddle.ShippedMappingHasNoTier | backend/app/paddle.py:12-16 | with the shipped empty mapping, no product has a tier |
| Paddle.Attributes | backend/app/paddle.py:57 | `data` and `attributes` default to `{}`; a non-object at either level raises |
| Paddle.HandlePurchase | backend/app/paddle.py:51-97 | a purchase is returned iff email and product are present and non-empty, the product is mapped and its tier is non-empty; it carries the email and tier |
| Paddle.ShippedMappingIssuesNothing | backend/app/paddle.py:12-16 | with the shipped mapping no event yields a purchase |
| Paddle.MappedProductPurchase | backend/app/paddle.py:51-71 | a well-formed event for a mapped product yields its buyer and tier |
| Paddle.CreateLicenseToken | backend/app/paddle.py:100-115 | the token is "remind_", the tier, "_" and the suffix, with the length that implies |
| Paddle.TokenRoundTrip | backend/app/paddle.py:112-113 | the tier and the 24-hex-digit suffix read back out of an issued token |
| Paddle.IssuedTokenIsALicence | backend/app/paddle.py:112-113 | an issued token meets the client's 10-character minimum |
| Api.HttpStatus | backend/main.py:55-162 | 401 for a bad signature or failed authentication, 429 for rate or quota, 400 for bad JSON, 422 for an invalid body, and 500 for everything that escapes |
| Api.Gate | backend/main.py:133-137 | an invalid body or failed authentication changes nothing; otherwise the rate check's rows are kept, and the request is admitted iff the check passes |
| Api.Answer | backend/main.py:142-162 | the count is incremented first; a failed model call logs nothing; a successful one logs its tokens and cost once |
| Api.Suggest | backend/main.py:133-162 | the pipeline with the quota check given the user record: gate, quota, then answer, stopping at the first failure |
| Api.SuggestAsWritten | backend/main.py:133-140 | as written, every request fails, and an admitted one fails at the quota call |
| Api.AuthFailureChangesNothing | backend/main.py:133-134 | a request failing validation or authentication leaves every table unchanged and answers 401 or 422 |
| Api.QuotaFailureConsumesNothing | backend/main.py:137-143 | a quota refusal keeps only the window reset: nothing counted and nothing logged |
| Api.SuccessConsumesOnce | backend/main.py:142-155 | a success increments the count exactly once and appends exactly one log with the model's tokens and cost |
| Api.AiFailureConsumesRateOnly | backend/main.py:142-155 | a failed model call consumes the rate limit but not the monthly quota |
| Api.SuccessStaysWithinLimits | backend/main.py:133-155 | after a success, the month's count is within the plan's quota and the window's count within the limit |
| Api.AsWrittenNeverAnswers | backend/main.py:140 | every authenticated request the rate check admits answers 500, and its window reset stays committed |
| Api.AsWrittenAgreesBeforeQuota | backend/main.py:133-137 | the endpoint as written and the corrected one agree on every request the gate turns away |
| Api.FreshLicenceIsAnswered | backend/main.py:133-162 | a new licence holder's first request with a well-formed model answer succeeds once corrected, and fails as written |
| Api.FreshLicenceAdmitted | backend/main.py:133-137 | the gate admits the first request of an active licence holder with no expiry |
| Api.TrimmedRequest | backend/app/models.py:29 | a body whose strings have no surrounding White_Space is taken as it is |
| Api.UsageStatsEndpoint | backend/main.py:165-194 | it is read-only: a failed authentication is refused, and otherwise it returns the statistics |
| Api.StatsCountSuggestion | backend/main.py:148-194 | a successful suggestion shows up in the caller's statistics as one more use this month |
| Api.HandleEvent | backend/main.py:70-101 | a non-object event raises; other event types, or no purchase, are ok and change nothing; otherwise the token is issued and exactly one user is inserted |
| Api.Webhook | backend/main.py:44-101 | the signature is checked first (a bad one gives 401; a digest error gives 500), then the text, then the JSON; only a verified event creates a user |
| Api.BadSignatureCreatesNoUser | backend/main.py:58-60 | a bad signature answers 401 and creates no user |
| Api.NoSecretRejectsAll | backend/main.py:58-60 | without a webhook secret every request answers 401 |
| Api.ShippedMappingCreatesNoUser | backend/main.py:70-96 | with the shipped product mapping, no webhook ever creates a user |
| Api.IssuedLicenceAuthenticates | backend/main.py:83-101 | an issued licence adds exactly one active user on the purchased tier, keeps the table valid, and authenticates afterwards |

## Left out

- Scheduler daemon loop, sleep, signal handling and launchd/systemd files (remind/scheduler.py:84-113, 170-302): these are OS process control. One pass is modelled.
- SQLAlchemy engines, sessions and commits: tables are values. Concurrent requests are not modelled, because each request's mutations are sequential.
- Naive vs aware datetimes: SQLite hands back naive due times, and `should_nudge` subtracts them from an aware now, which can raise TypeError. The model uses integer UTC instants throughout. An exception in the seen-and-licensed branch is an input (the `raising` set of `Scheduler.PassEnv`).
- Microseconds are dropped. Instants are whole seconds.
- `Utils.FormatDatetime` chooses only the bucket. The clock text (`%I:%M %p`) is not modelled.
- `BackendAi.CalculateCost` uses exact rational arithmetic. Python's floats may round differently at the boundaries.
- `ClientAi.CostCents`: the dollar float `cost_cents / 100.0` is kept as integer cents.
- Pydantic's lax coercions are not modelled, for example a numeric string accepted for an `int` field. String fields accept strings only, as pydantic 2 does when `coerce_numbers_to_str` is off, and the model rejects anything else there too.
- dateparser, the OpenAI call, httpx, notify-py, SMTP and the TOML reader are left out. Their results are inputs.
- HMAC-SHA256 and `secrets.token_hex` are abstract inputs. Only the digest comparison and the token's shape are modelled.
- `send_license_email` never raises, because it catches every exception. It is left out as I/O.
- Python's `int()` also accepts non-ASCII digits, but `Text.ParseInt` reads only ASCII digits.
- Case folding is ASCII only. This is exact for the priority words and for SQLite's `lower()` without ICU.
- Years beyond 9999 are not modelled. Python's datetime rejects them, but the calendar model has no upper bound.
- SQLite may reuse the largest rowid after it is deleted. The model reuses max+1 in the same way. Ties in `ORDER BY due_at` are broken by id, which SQLite leaves unspecified.
- Timestamps are compared as instants. SQLite compares the stored text, which gives the same order for the ISO text SQLAlchemy writes.
- Each endpoint reads `now` once. The code reads the clock separately in each helper.
- Plugin `initialize` has no behaviour to model.
- The licence file of premium.py and its global cache are left out. Whether a licence is present is a boolean input.
- `metadata_json` of usage logs always keeps its default.
- `Auth.CheckRateLimit` does not treat a negative window or limit specially. The settings come from configuration.
- The platform helpers, build tools, `upgrade`, `remove`, `doctor`, `settings` and output formatting are left out, because they are subprocess, filesystem and UI code.
- `get_usage_stats` returns `rate_limit_reset_at` as ISO text. `Plans.UsageStats` keeps the instant instead, because string formatting of dates is not modelled.
- `generate_paddle_products_config` and the server entry point are left out, because they are packaging.

## Findings

| source | as written | input that shows it | evidently intended | confidence | as-written member | corrected member |
|---|---|---|---|---|---|---|
| backend/main.py:140 | `check_ai_quota(db, user.id)` passes the integer id, and `check_ai_quota` reads `user.plan_tier` (backend/app/auth.py:113-118), raising AttributeError | any request with a valid token whose rate check passes, for example the first request of a new licence: the response is 500, and the window reset is already committed | `check_ai_quota(db, user)`, so that the quota is checked and the request is answered | not executed | Api.SuggestAsWritten (Api.AsWrittenNeverAnswers) | Api.Suggest (Api.FreshLicenceIsAnswered) |
