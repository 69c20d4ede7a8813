/**
 * The client's records and their field constraints (remind/models.py):
 * construction returns `Err` exactly where pydantic raises `ValidationError`.
 */
module RemindModels {
  import opened Wrappers
  import opened Json
  import opened Priority
  import opened Calendar

  const MaxTextLength: nat := 1000
  const MinTokenLength: nat := 10
  const MinSchedulerInterval: int := 1
  const MaxSchedulerInterval: int := 60

  datatype ValidationError =
    | TextTooShort
    | TextTooLong
    | EmptySuggestion
    | TokenTooShort
    | IntervalOutOfRange
    | SuggestionNotText
    | DueNotText
    | WrongType(field: Field)

  /** A stored reminder (`Reminder`, extending `ReminderBase`). */
  datatype Reminder = Reminder(
    id: int,
    text: string,
    dueAt: Instant,
    createdAt: Instant,
    doneAt: Option<Instant>,
    priority: Priority,
    project: Option<string>,
    aiText: Option<string>)

  /** The `text` field constraint: between 1 and 1000 characters. */
  predicate ValidText(text: string) {
    1 <= |text| <= MaxTextLength
  }

  /** `Reminder(...)`; `done_at` defaults to `None` and priority to medium at the call sites that omit them. */
  function MakeReminder(id: int, text: string, dueAt: Instant, createdAt: Instant, doneAt: Option<Instant>,
                        priority: Priority, project: Option<string>, aiText: Option<string>): (r: Result<Reminder, ValidationError>)
    ensures r.Ok? <==> ValidText(text)
    ensures r.Ok? ==> r.value == Reminder(id, text, dueAt, createdAt, doneAt, priority, project, aiText)
    ensures |text| == 0 ==> r == Err(TextTooShort)
    ensures |text| > MaxTextLength ==> r == Err(TextTooLong)
  {
    if |text| < 1 then Err(TextTooShort)
    else if |text| > MaxTextLength then Err(TextTooLong)
    else Ok(Reminder(id, text, dueAt, createdAt, doneAt, priority, project, aiText))
  }

  /** The client's view of an AI suggestion; the cost is kept in cents (`cost_estimate` is cents / 100). */
  datatype AIResponse = AIResponse(
    suggestedText: string,
    priority: Priority,
    dueSuggestion: Option<string>,
    costCents: Option<int>)

  /** `AIResponse(...)` from decoded JSON values: the text must be a non-empty string, the due hint a string or null. */
  function MakeAIResponse(suggested: Json, priority: Priority, due: Json, costCents: Option<int>): (r: Result<AIResponse, ValidationError>)
    ensures r.Ok? <==> suggested.JStr? && |suggested.s| >= 1 && (due.JNull? || due.JStr?)
    ensures r.Ok? ==> r.value.suggestedText == suggested.s && r.value.priority == priority
                      && r.value.dueSuggestion == (if due.JStr? then Some(due.s) else None)
                      && r.value.costCents == costCents
  {
    if !suggested.JStr? then Err(SuggestionNotText)
    else if |suggested.s| < 1 then Err(EmptySuggestion)
    else if !(due.JNull? || due.JStr?) then Err(DueNotText)
    else Ok(AIResponse(suggested.s, priority, if due.JStr? then Some(due.s) else None, costCents))
  }

  datatype License = License(token: string, createdAt: Instant, email: Option<string>)

  /** `License(...)`: the token has at least 10 characters. */
  function MakeLicense(token: string, createdAt: Instant, email: Option<string>): (r: Result<License, ValidationError>)
    ensures r.Ok? <==> |token| >= MinTokenLength
    ensures r.Ok? ==> r.value.token == token
  {
    if |token| < MinTokenLength then Err(TokenTooShort) else Ok(License(token, createdAt, email))
  }

  /** User configuration (`Config`). */
  datatype Config = Config(
    timezone: string,
    schedulerIntervalMinutes: int,
    notificationsEnabled: bool,
    notificationSoundEnabled: bool,
    aiRephrasingEnabled: bool,
    aiBackendUrl: Option<string>,
    openaiApiKey: Option<string>,
    nudgeIntervalsMinutes: seq<int>)

  const DefaultNudgeIntervals: seq<int> := [5, 15, 60]

  /** `Config()` with every field at its default. */
  const DefaultConfig: Config := Config("UTC", 1, true, true, true, None, None, DefaultNudgeIntervals)

  predicate ValidInterval(v: int) {
    MinSchedulerInterval <= v <= MaxSchedulerInterval
  }

  predicate ValidConfig(c: Config) {
    ValidInterval(c.schedulerIntervalMinutes)
  }

  lemma DefaultConfigValues()
    ensures ValidConfig(DefaultConfig)
    ensures DefaultConfig.timezone == "UTC" && DefaultConfig.schedulerIntervalMinutes == 1
    ensures DefaultConfig.notificationsEnabled && DefaultConfig.notificationSoundEnabled && DefaultConfig.aiRephrasingEnabled
    ensures DefaultConfig.nudgeIntervalsMinutes == [5, 15, 60]
  {
  }

  /**
   * The fields of `Config`. Keys of the TOML table that name no field are
   * ignored by validation and are therefore not represented.
   */
  datatype Field =
    | Timezone
    | SchedulerIntervalMinutes
    | NotificationsEnabled
    | NotificationSoundEnabled
    | AiRephrasingEnabled
    | AiBackendUrl
    | OpenaiApiKey
    | NudgeIntervalsMinutes

  function FieldStr(fields: map<Field, Json>, key: Field, default: string): Result<string, ValidationError> {
    if key !in fields then Ok(default)
    else if fields[key].JStr? then Ok(fields[key].s)
    else Err(WrongType(key))
  }

  function FieldOptStr(fields: map<Field, Json>, key: Field): Result<Option<string>, ValidationError> {
    if key !in fields || fields[key].JNull? then Ok(None)
    else if fields[key].JStr? then Ok(Some(fields[key].s))
    else Err(WrongType(key))
  }

  function FieldBool(fields: map<Field, Json>, key: Field): Result<bool, ValidationError> {
    if key !in fields then Ok(true)
    else if fields[key].JBool? then Ok(fields[key].b)
    else Err(WrongType(key))
  }

  predicate AllNums(items: seq<Json>) {
    forall i :: 0 <= i < |items| ==> items[i].JNum?
  }

  function Nums(items: seq<Json>): (r: seq<int>)
    requires AllNums(items)
    ensures |r| == |items| && forall i :: 0 <= i < |items| ==> r[i] == items[i].n
  {
    seq(|items|, i requires 0 <= i < |items| => items[i].n)
  }

  /** A table value `Config` accepts for field `k`: its type, and for the scheduler interval its bounds. */
  predicate Fits(k: Field, v: Json) {
    match k
    case Timezone => v.JStr?
    case SchedulerIntervalMinutes => v.JNum? && ValidInterval(v.n)
    case NotificationsEnabled => v.JBool?
    case NotificationSoundEnabled => v.JBool?
    case AiRephrasingEnabled => v.JBool?
    case AiBackendUrl => v.JStr? || v.JNull?
    case OpenaiApiKey => v.JStr? || v.JNull?
    case NudgeIntervalsMinutes => v.JArray? && AllNums(v.items)
  }

  /**
   * `Config(**fields)`: absent fields take their default, and a present field
   * must hold a value of its type within its bounds.
   */
  function MakeConfig(fields: map<Field, Json>): (r: Result<Config, ValidationError>)
    ensures r.Ok? ==> ValidConfig(r.value)
    ensures fields == map[] ==> r == Ok(DefaultConfig)
    ensures (SchedulerIntervalMinutes in fields && fields[SchedulerIntervalMinutes].JNum?
             && !ValidInterval(fields[SchedulerIntervalMinutes].n)) ==> r.Err?
    ensures r.Ok? && NudgeIntervalsMinutes in fields ==>
              && fields[NudgeIntervalsMinutes].JArray?
              && AllNums(fields[NudgeIntervalsMinutes].items)
              && r.value.nudgeIntervalsMinutes == Nums(fields[NudgeIntervalsMinutes].items)
    ensures r.Ok? && NudgeIntervalsMinutes !in fields ==> r.value.nudgeIntervalsMinutes == DefaultNudgeIntervals
    ensures r.Ok? && NotificationsEnabled in fields ==> fields[NotificationsEnabled] == JBool(r.value.notificationsEnabled)
    ensures r.Ok? && NotificationSoundEnabled in fields ==> fields[NotificationSoundEnabled] == JBool(r.value.notificationSoundEnabled)
    ensures r.Ok? && AiRephrasingEnabled in fields ==> fields[AiRephrasingEnabled] == JBool(r.value.aiRephrasingEnabled)
    ensures r.Ok? ==> (Timezone in fields ==> fields[Timezone] == JStr(r.value.timezone))
                      && (Timezone !in fields ==> r.value.timezone == "UTC")
    ensures r.Ok? ==> (SchedulerIntervalMinutes in fields ==> fields[SchedulerIntervalMinutes] == JNum(r.value.schedulerIntervalMinutes))
                      && (SchedulerIntervalMinutes !in fields ==> r.value.schedulerIntervalMinutes == 1)
    ensures r.Ok? ==> && (NotificationsEnabled !in fields ==> r.value.notificationsEnabled)
                      && (NotificationSoundEnabled !in fields ==> r.value.notificationSoundEnabled)
                      && (AiRephrasingEnabled !in fields ==> r.value.aiRephrasingEnabled)
    ensures r.Ok? ==> (r.value.aiBackendUrl.Some? <==> AiBackendUrl in fields && fields[AiBackendUrl].JStr?)
                      && (r.value.aiBackendUrl.Some? ==> fields[AiBackendUrl] == JStr(r.value.aiBackendUrl.value))
                      && (r.value.aiBackendUrl.None? && AiBackendUrl in fields ==> fields[AiBackendUrl].JNull?)
    ensures r.Ok? ==> (r.value.openaiApiKey.Some? <==> OpenaiApiKey in fields && fields[OpenaiApiKey].JStr?)
                      && (r.value.openaiApiKey.Some? ==> fields[OpenaiApiKey] == JStr(r.value.openaiApiKey.value))
                      && (r.value.openaiApiKey.None? && OpenaiApiKey in fields ==> fields[OpenaiApiKey].JNull?)
  {
    var tz :- FieldStr(fields, Timezone, "UTC");
    var interval :-
      if SchedulerIntervalMinutes !in fields then Ok(1)
      else if !fields[SchedulerIntervalMinutes].JNum? then Err(WrongType(SchedulerIntervalMinutes))
      else if !ValidInterval(fields[SchedulerIntervalMinutes].n) then Err(IntervalOutOfRange)
      else Ok(fields[SchedulerIntervalMinutes].n);
    var notifications :- FieldBool(fields, NotificationsEnabled);
    var sound :- FieldBool(fields, NotificationSoundEnabled);
    var ai :- FieldBool(fields, AiRephrasingEnabled);
    var url :- FieldOptStr(fields, AiBackendUrl);
    var key :- FieldOptStr(fields, OpenaiApiKey);
    var nudges :-
      if NudgeIntervalsMinutes !in fields then Ok(DefaultNudgeIntervals)
      else if fields[NudgeIntervalsMinutes].JArray? && AllNums(fields[NudgeIntervalsMinutes].items)
      then Ok(Nums(fields[NudgeIntervalsMinutes].items))
      else Err(WrongType(NudgeIntervalsMinutes));
    Ok(Config(tz, interval, notifications, sound, ai, url, key, nudges))
  }

  /** Validation succeeds exactly when every field present holds a value its field accepts. */
  lemma MakeConfigAccepts(fields: map<Field, Json>)
    ensures MakeConfig(fields).Ok? <==> forall k :: k in fields ==> Fits(k, fields[k])
  {
    var r := MakeConfig(fields);
    if forall k :: k in fields ==> Fits(k, fields[k]) {
      assert FieldStr(fields, Timezone, "UTC").Ok? by {
        if Timezone in fields { assert Fits(Timezone, fields[Timezone]); }
      }
      assert SchedulerIntervalMinutes in fields ==> Fits(SchedulerIntervalMinutes, fields[SchedulerIntervalMinutes]);
      assert FieldBool(fields, NotificationsEnabled).Ok? by {
        if NotificationsEnabled in fields { assert Fits(NotificationsEnabled, fields[NotificationsEnabled]); }
      }
      assert FieldBool(fields, NotificationSoundEnabled).Ok? by {
        if NotificationSoundEnabled in fields { assert Fits(NotificationSoundEnabled, fields[NotificationSoundEnabled]); }
      }
      assert FieldBool(fields, AiRephrasingEnabled).Ok? by {
        if AiRephrasingEnabled in fields { assert Fits(AiRephrasingEnabled, fields[AiRephrasingEnabled]); }
      }
      assert FieldOptStr(fields, AiBackendUrl).Ok? by {
        if AiBackendUrl in fields { assert Fits(AiBackendUrl, fields[AiBackendUrl]); }
      }
      assert FieldOptStr(fields, OpenaiApiKey).Ok? by {
        if OpenaiApiKey in fields { assert Fits(OpenaiApiKey, fields[OpenaiApiKey]); }
      }
      assert NudgeIntervalsMinutes in fields ==> Fits(NudgeIntervalsMinutes, fields[NudgeIntervalsMinutes]);
    }
    if r.Ok? {
      forall k | k in fields ensures Fits(k, fields[k]) {
        if k == SchedulerIntervalMinutes {
          assert ValidConfig(r.value);
        }
      }
    }
  }

  /** `config.scheduler_interval_minutes = v` under `validate_assignment`: rejected outside [1, 60]. */
  function SetSchedulerInterval(c: Config, v: int): (r: Result<Config, ValidationError>)
    ensures r.Ok? <==> ValidInterval(v)
    ensures r.Ok? ==> r.value == c.(schedulerIntervalMinutes := v)
  {
    if ValidInterval(v) then Ok(c.(schedulerIntervalMinutes := v)) else Err(IntervalOutOfRange)
  }
}
