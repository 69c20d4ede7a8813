/**
 * remind/config.py: `load_config` merges the `[remind]` table of the TOML
 * file with `REMIND_*` environment settings, parses the nudge-interval
 * string and validates the result.
 */
module RemindConfig {
  import opened Wrappers
  import opened Text
  import opened Json
  import opened RemindModels

  /** The environment settings (`Settings`), already typed by pydantic-settings. */
  datatype Settings = Settings(
    timezone: string,
    schedulerIntervalMinutes: int,
    notificationsEnabled: bool,
    notificationSoundEnabled: bool,
    aiRephrasingEnabled: bool,
    openaiApiKey: Option<string>,
    nudgeIntervalsMinutes: string)

  const DefaultIntervalString: string := "5,15,60"

  /** `Settings()` with no environment variables set. */
  const DefaultSettings: Settings := Settings("UTC", 1, true, true, true, None, DefaultIntervalString)

  /** The outcome of reading the config file. */
  datatype ConfigFile =
    | Missing                            // the file does not exist
    | Unreadable                         // opening or TOML parsing raised
    | Loaded(section: map<Field, Json>)  // the `[remind]` table (empty when absent)

  /** `config_data` before the environment is applied: a missing or unreadable file reads as `{}`. */
  function FileSection(f: ConfigFile): (m: map<Field, Json>)
    ensures f.Loaded? ==> m == f.section
    ensures !f.Loaded? ==> m == map[]
  {
    if f.Loaded? then f.section else map[]
  }

  /** `m` carries exactly what `file` has under `key`. */
  predicate Kept(m: map<Field, Json>, file: map<Field, Json>, key: Field) {
    (key in m <==> key in file) && (key in file ==> key in m && m[key] == file[key])
  }

  /** The fields the environment can override. */
  predicate EnvField(k: Field) {
    k.Timezone? || k.SchedulerIntervalMinutes? || k.NotificationsEnabled? || k.NotificationSoundEnabled?
    || k.AiRephrasingEnabled? || k.OpenaiApiKey?
  }

  predicate HasKey(s: Settings) {
    s.openaiApiKey.Some? && |s.openaiApiKey.value| > 0
  }

  /** The value one `if settings.…: config_data[…] = …` line writes, if its condition holds. */
  function Override(s: Settings, k: Field): Option<Json> {
    match k
    case Timezone => if s.timezone != "UTC" then Some(JStr(s.timezone)) else None
    case SchedulerIntervalMinutes =>
      if s.schedulerIntervalMinutes != 1 then Some(JNum(s.schedulerIntervalMinutes)) else None
    case NotificationsEnabled => if !s.notificationsEnabled then Some(JBool(false)) else None
    case NotificationSoundEnabled => if !s.notificationSoundEnabled then Some(JBool(false)) else None
    case AiRephrasingEnabled => if !s.aiRephrasingEnabled then Some(JBool(false)) else None
    case OpenaiApiKey => if HasKey(s) then Some(JStr(s.openaiApiKey.value)) else None
    case _ => None
  }

  const EnvFields: set<Field> :=
    {Timezone, SchedulerIntervalMinutes, NotificationsEnabled, NotificationSoundEnabled, AiRephrasingEnabled, OpenaiApiKey}

  /** Every value the environment writes over the file. */
  function Overrides(s: Settings): map<Field, Json> {
    map k | k in EnvFields && Override(s, k).Some? :: Override(s, k).value
  }

  /**
   * The environment overrides of `load_config`: a setting replaces the file's
   * value only when it differs from its built-in default, and a boolean can
   * only be forced to `false`.
   */
  function ApplyEnv(s: Settings, file: map<Field, Json>): (m: map<Field, Json>)
    ensures forall k :: !EnvField(k) ==> Kept(m, file, k)
    ensures s.timezone != "UTC" ==> Timezone in m && m[Timezone] == JStr(s.timezone)
    ensures s.timezone == "UTC" ==> Kept(m, file, Timezone)
    ensures s.schedulerIntervalMinutes != 1 ==>
              SchedulerIntervalMinutes in m && m[SchedulerIntervalMinutes] == JNum(s.schedulerIntervalMinutes)
    ensures s.schedulerIntervalMinutes == 1 ==> Kept(m, file, SchedulerIntervalMinutes)
    ensures !s.notificationsEnabled ==> NotificationsEnabled in m && m[NotificationsEnabled] == JBool(false)
    ensures s.notificationsEnabled ==> Kept(m, file, NotificationsEnabled)
    ensures !s.notificationSoundEnabled ==> NotificationSoundEnabled in m && m[NotificationSoundEnabled] == JBool(false)
    ensures s.notificationSoundEnabled ==> Kept(m, file, NotificationSoundEnabled)
    ensures !s.aiRephrasingEnabled ==> AiRephrasingEnabled in m && m[AiRephrasingEnabled] == JBool(false)
    ensures s.aiRephrasingEnabled ==> Kept(m, file, AiRephrasingEnabled)
    ensures HasKey(s) ==> OpenaiApiKey in m && m[OpenaiApiKey] == JStr(s.openaiApiKey.value)
    ensures !HasKey(s) ==> Kept(m, file, OpenaiApiKey)
  {
    file + Overrides(s)
  }

  /** The list of all values when every entry has one, `None` as soon as one is missing. */
  function AllSome(vals: seq<Option<int>>): (r: Option<seq<int>>)
    ensures r.Some? <==> forall i :: 0 <= i < |vals| ==> vals[i].Some?
    ensures r.Some? ==> |r.value| == |vals| && forall i :: 0 <= i < |vals| ==> Some(r.value[i]) == vals[i]
  {
    if |vals| == 0 then Some([])
    else
      var rest := AllSome(vals[1..]);
      if vals[0].Some? && rest.Some? then Some([vals[0].value] + rest.value) else None
  }

  /** `int(x.strip())` of each piece, `None` where it raises. */
  function ParseEach(pieces: seq<string>): (r: seq<Option<int>>)
    ensures |r| == |pieces| && forall i :: 0 <= i < |pieces| ==> r[i] == ParseInt(pieces[i])
  {
    seq(|pieces|, i requires 0 <= i < |pieces| => ParseInt(pieces[i]))
  }

  /** `[int(x.strip()) for x in s.split(",")]`; `None` where `int()` raises `ValueError`. */
  function ParseIntervals(s: string): Option<seq<int>> {
    AllSome(ParseEach(Split(s, ',')))
  }

  /** The decimal spelling of each interval. */
  function ShowAll(xs: seq<int>): (r: seq<string>)
    ensures |r| == |xs|
    ensures forall i :: 0 <= i < |xs| ==> r[i] == ShowInt(xs[i])
  {
    if |xs| == 0 then [] else [ShowInt(xs[0])] + ShowAll(xs[1..])
  }

  /** Writes intervals the way the default string is written: decimal numbers separated by commas. */
  function FormatIntervals(xs: seq<int>): string
    requires |xs| >= 1
  {
    Join(ShowAll(xs), ',')
  }

  lemma ShowIntHasNoComma(n: int)
    ensures ',' !in ShowInt(n)
  {
    var s := ShowInt(n);
    if n >= 0 {
      assert forall i :: 0 <= i < |s| ==> IsDigit(s[i]);
    } else {
      var d := ShowNat(-n);
      assert s == "-" + d;
      assert forall i :: 1 <= i < |s| ==> s[i] == d[i - 1];
    }
  }

  /** `int(str(n))` recovers each entry of a list. */
  lemma ParseEachShowAll(xs: seq<int>)
    ensures |ParseEach(ShowAll(xs))| == |xs|
    ensures forall i :: 0 <= i < |xs| ==> ParseEach(ShowAll(xs))[i] == Some(xs[i])
  {
    var ys := ShowAll(xs);
    forall i | 0 <= i < |xs|
      ensures ParseInt(ys[i]) == Some(xs[i])
    {
      assert ys[i] == ShowInt(xs[i]);
      ParseShowInt(xs[i]);
    }
  }

  /** `int(str(n))` recovers every interval of a list. */
  lemma ParseShowAll(xs: seq<int>)
    ensures AllSome(ParseEach(ShowAll(xs))) == Some(xs)
  {
    ParseEachShowAll(xs);
    AllSomeValues(ParseEach(ShowAll(xs)), xs);
  }

  /** A list of present values collects to exactly those values. */
  lemma AllSomeValues(vals: seq<Option<int>>, xs: seq<int>)
    requires |vals| == |xs| && forall i :: 0 <= i < |xs| ==> vals[i] == Some(xs[i])
    ensures AllSome(vals) == Some(xs)
  {
    var r := AllSome(vals);
    assert r.Some?;
    assert forall i :: 0 <= i < |xs| ==> r.value[i] == xs[i];
    assert r.value == xs;
  }

  /** Parsing a formatted interval list returns the list. */
  lemma ParseFormatIntervals(xs: seq<int>)
    requires |xs| >= 1
    ensures ParseIntervals(FormatIntervals(xs)) == Some(xs)
  {
    var parts := ShowAll(xs);
    forall k | 0 <= k < |parts|
      ensures ',' !in parts[k]
    {
      ShowIntHasNoComma(xs[k]);
    }
    SplitJoin(parts, ',');
    ParseShowAll(xs);
  }

  lemma ShowDefaults()
    ensures ShowAll([5, 15, 60]) == ["5", "15", "60"]
  {
    assert DigitChar(0) == '0' && DigitChar(1) == '1';
    assert DigitChar(5) == '5' && DigitChar(6) == '6';
    assert ShowNat(5) == "5";
    assert ShowNat(15) == "15";
    assert ShowNat(60) == "60";
    var r := ShowAll([5, 15, 60]);
    assert r[0] == "5" && r[1] == "15" && r[2] == "60";
  }

  lemma DefaultIntervalsFormat()
    ensures FormatIntervals([5, 15, 60]) == DefaultIntervalString
  {
    ShowDefaults();
    var parts := ["5", "15", "60"];
    assert Join(parts[2..], ',') == "60";
    assert Join(parts[1..], ',') == "15" + [','] + "60";
  }

  /** The built-in default string parses to [5, 15, 60]. */
  lemma DefaultIntervalsParse()
    ensures ParseIntervals(DefaultIntervalString) == Some([5, 15, 60])
  {
    DefaultIntervalsFormat();
    ParseFormatIntervals([5, 15, 60]);
  }

  /** An empty environment string makes `int("")` raise. */
  lemma EmptyIntervalStringFails()
    ensures ParseIntervals("") == None
  {
    assert Split("", ',') == [""];
    assert Strip("") == "";
  }

  /** `load_config` raises only this: a malformed interval string escapes the function. */
  datatype LoadError = IntervalSyntax

  /**
   * `config_data` as handed to `ConfigModel(**config_data)`: the file with
   * the environment applied, and the intervals parsed from the environment
   * when the file lists none; `None` when that parse raises.
   */
  function Merged(s: Settings, f: ConfigFile): (r: Option<map<Field, Json>>)
    ensures r.None? <==> NudgeIntervalsMinutes !in FileSection(f) && ParseIntervals(s.nudgeIntervalsMinutes).None?
    ensures r.Some? ==> forall k :: k != NudgeIntervalsMinutes ==> Kept(r.value, ApplyEnv(s, FileSection(f)), k)
    ensures r.Some? && NudgeIntervalsMinutes in FileSection(f) ==>
              NudgeIntervalsMinutes in r.value && r.value[NudgeIntervalsMinutes] == FileSection(f)[NudgeIntervalsMinutes]
    ensures r.Some? && NudgeIntervalsMinutes !in FileSection(f) ==>
              NudgeIntervalsMinutes in r.value
              && r.value[NudgeIntervalsMinutes] == JArray(JNums(ParseIntervals(s.nudgeIntervalsMinutes).value))
  {
    var data := ApplyEnv(s, FileSection(f));
    assert Kept(data, FileSection(f), NudgeIntervalsMinutes) by {
      assert !EnvField(NudgeIntervalsMinutes);
    }
    if NudgeIntervalsMinutes in data then Some(data)
    else
      match ParseIntervals(s.nudgeIntervalsMinutes)
      case None => None
      case Some(xs) => Some(data[NudgeIntervalsMinutes := JArray(JNums(xs))])
  }

  /** `load_config()` with the file read and the environment given as inputs. */
  function LoadConfig(s: Settings, f: ConfigFile): Result<Config, LoadError> {
    match Merged(s, f)
    case None => Err(IntervalSyntax)
    case Some(data) => Ok(MakeConfig(data).GetOr(DefaultConfig))
  }

  /** The intervals as TOML integers. */
  function JNums(xs: seq<int>): (r: seq<Json>)
    ensures |r| == |xs| && forall i :: 0 <= i < |xs| ==> r[i] == JNum(xs[i])
  {
    seq(|xs|, i requires 0 <= i < |xs| => JNum(xs[i]))
  }

  /**
   * Loading fails only when the file has no interval list and the
   * environment's interval string does not parse; whatever it returns is a
   * valid configuration.
   */
  lemma LoadConfigOutcome(s: Settings, f: ConfigFile)
    ensures LoadConfig(s, f).Err? <==> NudgeIntervalsMinutes !in FileSection(f) && ParseIntervals(s.nudgeIntervalsMinutes).None?
    ensures LoadConfig(s, f).Ok? ==> ValidConfig(LoadConfig(s, f).value)
  {
    if Merged(s, f).Some? {
      ValidOrDefault(Merged(s, f).value);
    }
  }

  /** Falling back to `Config()` on a validation error still leaves a valid configuration. */
  lemma ValidOrDefault(m: map<Field, Json>)
    ensures ValidConfig(MakeConfig(m).GetOr(DefaultConfig))
  {
    DefaultConfigValues();
  }

  /** A table holding only the interval list yields the defaults with that list. */
  lemma MakeConfigIntervalsOnly(items: seq<Json>)
    requires AllNums(items)
    ensures MakeConfig(map[NudgeIntervalsMinutes := JArray(items)])
            == Ok(DefaultConfig.(nudgeIntervalsMinutes := Nums(items)))
  {
  }

  /** With no file and no environment, the configuration is `Config()`. */
  lemma LoadDefaults(f: ConfigFile)
    requires !f.Loaded?
    ensures LoadConfig(DefaultSettings, f) == Ok(DefaultConfig)
  {
    var data := ApplyEnv(DefaultSettings, FileSection(f));
    assert Overrides(DefaultSettings) == map[];
    assert data == map[];
    DefaultIntervalsParse();
    var nums := JNums([5, 15, 60]);
    NumsOfJNums([5, 15, 60]);
    assert Merged(DefaultSettings, f) == Some(map[NudgeIntervalsMinutes := JArray(nums)]);
    MakeConfigIntervalsOnly(nums);
  }

  /** Intervals present in the file win: the environment string is not even parsed. */
  lemma FileIntervalsTakePrecedence(s: Settings, section: map<Field, Json>)
    requires NudgeIntervalsMinutes in section
    requires section[NudgeIntervalsMinutes].JArray? && AllNums(section[NudgeIntervalsMinutes].items)
    requires MakeConfig(ApplyEnv(s, section)).Ok?
    ensures LoadConfig(s, Loaded(section)).Ok?
    ensures LoadConfig(s, Loaded(section)).value.nudgeIntervalsMinutes == Nums(section[NudgeIntervalsMinutes].items)
  {
  }

  /**
   * A merged table that fails validation yields the all-defaults
   * configuration, whether the intervals came from the file or from the
   * environment.
   */
  lemma InvalidConfigFallsBack(s: Settings, f: ConfigFile)
    requires NudgeIntervalsMinutes in FileSection(f) || ParseIntervals(s.nudgeIntervalsMinutes).Some?
    requires MakeConfig(Merged(s, f).value).Err?
    ensures LoadConfig(s, f) == Ok(DefaultConfig)
  {
  }

  /**
   * When the merge validates, an environment boolean set to `false` forces
   * the switch off; one left at `true` leaves the file's value, or the
   * default `true` when the file has none.
   */
  lemma BooleansOnlyForcedFalse(s: Settings, f: ConfigFile)
    requires NudgeIntervalsMinutes in FileSection(f) || ParseIntervals(s.nudgeIntervalsMinutes).Some?
    requires MakeConfig(Merged(s, f).value).Ok?
    ensures var c := LoadConfig(s, f).value;
            var file := FileSection(f);
            && (!s.notificationsEnabled ==> !c.notificationsEnabled)
            && (!s.notificationSoundEnabled ==> !c.notificationSoundEnabled)
            && (!s.aiRephrasingEnabled ==> !c.aiRephrasingEnabled)
            && (s.notificationsEnabled ==>
                  if NotificationsEnabled in file then file[NotificationsEnabled] == JBool(c.notificationsEnabled)
                  else c.notificationsEnabled)
            && (s.notificationSoundEnabled ==>
                  if NotificationSoundEnabled in file then file[NotificationSoundEnabled] == JBool(c.notificationSoundEnabled)
                  else c.notificationSoundEnabled)
            && (s.aiRephrasingEnabled ==>
                  if AiRephrasingEnabled in file then file[AiRephrasingEnabled] == JBool(c.aiRephrasingEnabled)
                  else c.aiRephrasingEnabled)
  {
    var data := Merged(s, f).value;
    assert LoadConfig(s, f) == Ok(MakeConfig(data).value);
    assert Kept(data, ApplyEnv(s, FileSection(f)), NotificationsEnabled);
    assert Kept(data, ApplyEnv(s, FileSection(f)), NotificationSoundEnabled);
    assert Kept(data, ApplyEnv(s, FileSection(f)), AiRephrasingEnabled);
  }

  /**
   * When the merged table validates, what it holds is what loading returns:
   * `REMIND_TIMEZONE`, a non-default scheduler interval and an API key from
   * the environment reach the configuration, and otherwise the file's
   * timezone and interval do, or their defaults when the file has none.
   */
  lemma SettingsReachConfig(s: Settings, f: ConfigFile)
    requires NudgeIntervalsMinutes in FileSection(f) || ParseIntervals(s.nudgeIntervalsMinutes).Some?
    requires MakeConfig(Merged(s, f).value).Ok?
    ensures LoadConfig(s, f).Ok?
    ensures var c := LoadConfig(s, f).value;
            var file := FileSection(f);
            && (s.timezone != "UTC" ==> c.timezone == s.timezone)
            && (s.timezone == "UTC" && Timezone in file ==> file[Timezone] == JStr(c.timezone))
            && (s.timezone == "UTC" && Timezone !in file ==> c.timezone == "UTC")
            && (s.schedulerIntervalMinutes != 1 ==> c.schedulerIntervalMinutes == s.schedulerIntervalMinutes)
            && (s.schedulerIntervalMinutes == 1 && SchedulerIntervalMinutes in file ==>
                  file[SchedulerIntervalMinutes] == JNum(c.schedulerIntervalMinutes))
            && (s.schedulerIntervalMinutes == 1 && SchedulerIntervalMinutes !in file ==>
                  c.schedulerIntervalMinutes == 1)
            && (HasKey(s) ==> c.openaiApiKey == Some(s.openaiApiKey.value))
  {
    var data := Merged(s, f).value;
    assert LoadConfig(s, f) == Ok(MakeConfig(data).value);
    assert Kept(data, ApplyEnv(s, FileSection(f)), Timezone);
    assert Kept(data, ApplyEnv(s, FileSection(f)), SchedulerIntervalMinutes);
    assert Kept(data, ApplyEnv(s, FileSection(f)), OpenaiApiKey);
  }

  /** With no file, a `REMIND_TIMEZONE` alone gives `Config()` in that timezone. */
  lemma EnvTimezoneWithoutFile(f: ConfigFile, tz: string)
    requires !f.Loaded? && tz != "UTC"
    ensures LoadConfig(DefaultSettings.(timezone := tz), f) == Ok(DefaultConfig.(timezone := tz))
  {
    var s := DefaultSettings.(timezone := tz);
    var data := EnvTimezoneMerged(f, tz);
    var nums := JNums([5, 15, 60]);
    NumsOfJNums([5, 15, 60]);
    TimezoneAndIntervalsOnly(data, tz, nums);
    assert LoadConfig(s, f) == Ok(MakeConfig(data).value);
  }

  /** Reading back the TOML integers of a list gives the list. */
  lemma NumsOfJNums(xs: seq<int>)
    ensures AllNums(JNums(xs)) && Nums(JNums(xs)) == xs
  {
  }

  /** The table merged from a timezone setting alone and no file. */
  lemma EnvTimezoneMerged(f: ConfigFile, tz: string) returns (data: map<Field, Json>)
    requires !f.Loaded? && tz != "UTC"
    ensures Merged(DefaultSettings.(timezone := tz), f) == Some(data)
    ensures forall k :: k in data ==> k == Timezone || k == NudgeIntervalsMinutes
    ensures Timezone in data && data[Timezone] == JStr(tz)
    ensures NudgeIntervalsMinutes in data && data[NudgeIntervalsMinutes] == JArray(JNums([5, 15, 60]))
  {
    var s := DefaultSettings.(timezone := tz);
    DefaultIntervalsParse();
    EnvTimezoneOnly(f, tz);
    var env := ApplyEnv(s, FileSection(f));
    var m := Merged(s, f);
    assert NudgeIntervalsMinutes !in FileSection(f);
    assert m.Some?;
    data := m.value;
    forall k | k in data && k != NudgeIntervalsMinutes ensures k == Timezone {
      assert Kept(data, env, k);
    }
    assert Kept(data, env, Timezone);
  }

  /** A timezone setting alone, over no file, writes only the timezone. */
  lemma EnvTimezoneOnly(f: ConfigFile, tz: string)
    requires !f.Loaded? && tz != "UTC"
    ensures var env := ApplyEnv(DefaultSettings.(timezone := tz), FileSection(f));
            && (forall k :: k in env ==> k == Timezone)
            && Timezone in env && env[Timezone] == JStr(tz)
  {
    var s := DefaultSettings.(timezone := tz);
    assert FileSection(f) == map[];
    forall k | k != Timezone ensures Override(s, k).None? { }
  }

  /** A table with only a timezone and an interval list is `Config()` with those two. */
  lemma TimezoneAndIntervalsOnly(data: map<Field, Json>, tz: string, items: seq<Json>)
    requires forall k :: k in data ==> k == Timezone || k == NudgeIntervalsMinutes
    requires Timezone in data && data[Timezone] == JStr(tz)
    requires NudgeIntervalsMinutes in data && data[NudgeIntervalsMinutes] == JArray(items) && AllNums(items)
    ensures MakeConfig(data) == Ok(DefaultConfig.(timezone := tz, nudgeIntervalsMinutes := Nums(items)))
  {
    assert forall k :: k in data ==> Fits(k, data[k]);
    MakeConfigAccepts(data);
  }
}
