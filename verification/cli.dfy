/**
 * remind/cli.py: the decisions of the `add`, `list` and `done` commands.
 * Natural-language date parsing (dateparser), the licence file, the clock
 * and the backend reply are inputs; terminal output is not modelled.
 */
module Cli {
  import opened Wrappers
  import opened Text
  import opened Calendar
  import opened Priority
  import opened RemindModels
  import Utils
  import ClientAi
  import Store

  // ---------------------------------------------------------------------------
  // add

  /** Why `add` exits with status 1 before touching the database. */
  datatype AddError = UnparsableDue | InvalidPriority

  /** Nine o'clock UTC on the day of `now`. */
  function NineAm(now: Instant): (r: Instant)
    ensures DayIndex(r) == DayIndex(now)
    ensures r % SecondsPerDay == 9 * SecondsPerHour
  {
    DayStart(now) + 9 * SecondsPerHour
  }

  /**
   * The due time of `add`: an absent or empty `--due` means today at 09:00
   * UTC; otherwise `parsed` is what dateparser made of it.
   */
  function DueTime(due: Option<string>, parsed: Option<Instant>, now: Instant): (r: Result<Instant, AddError>)
    ensures (due.None? || |due.value| == 0) ==> r == Ok(NineAm(now))
    ensures due.Some? && |due.value| > 0 ==> (r.Err? <==> parsed.None?)
    ensures due.Some? && |due.value| > 0 && parsed.Some? ==> r == Ok(parsed.value)
  {
    if due.None? || |due.value| == 0 then Ok(NineAm(now))
    else if parsed.None? then Err(UnparsableDue)
    else Ok(parsed.value)
  }

  /** The spellings of medium `add` accepts besides a recognised priority. */
  predicate MediumSpelling(s: string) {
    s == "medium" || s == "med" || s == "m"
  }

  /**
   * The priority of `add`: absent or empty means medium; otherwise the
   * string must name a priority, or be a spelling of medium.
   */
  function AcceptPriority(priority: Option<string>): (r: Result<Priority, AddError>)
    ensures (priority.None? || |priority.value| == 0) ==> r == Ok(Medium)
    ensures priority.Some? && |priority.value| > 0 ==>
              (r.Ok? <==> FromValue(Lower(priority.value)).Some? || MediumSpelling(Lower(priority.value)))
    ensures priority.Some? && |priority.value| > 0 && r.Ok? ==>
              r.value == FromValue(Lower(priority.value)).GetOr(Medium)
  {
    if priority.None? || |priority.value| == 0 then Ok(Medium)
    else
      var level := Utils.ParsePriority(Some(priority.value), Medium);
      if level == Medium && !MediumSpelling(Lower(priority.value)) then Err(InvalidPriority)
      else Ok(level)
  }

  /** Upper- and lower-case spellings are accepted alike. */
  lemma AcceptPriorityIgnoresCase(p: string, q: string)
    requires Lower(p) == Lower(q)
    ensures AcceptPriority(Some(p)) == AcceptPriority(Some(q))
  {
  }

  /** What the AI step hands on to the insert. */
  datatype AiResult = AiResult(suggested: Option<string>, priority: Priority, due: Instant)

  /** The environment of one `add`. */
  datatype AddEnv = AddEnv(
    now: Instant,
    dueParsed: Option<Instant>,    // dateparser on `--due`
    license: Option<License>,      // the licence file, when it loads
    reply: ClientAi.Reply,         // the backend's answer, if asked
    hintParsed: Option<Instant>)   // dateparser on the AI's due hint

  /** Whether `add` asks the backend at all. */
  predicate AsksAi(config: Config, noAi: bool, env: AddEnv) {
    && config.aiRephrasingEnabled && !noAi && env.license.Some?
    && config.aiBackendUrl.Some? && |config.aiBackendUrl.value| > 0
    && |env.license.value.token| > 0
  }

  /**
   * The AI step of `add`. On success the suggestion's priority always
   * replaces the user's, and its due hint replaces the due time when
   * dateparser reads it; any failure leaves the user's values in place.
   */
  function AiStep(config: Config, noAi: bool, text: string, priority: Priority, due: Instant, env: AddEnv): (r: AiResult)
    ensures !AsksAi(config, noAi, env) ==> r == AiResult(None, priority, due)
    ensures AsksAi(config, noAi, env) ==>
              var answer := ClientAi.SuggestRephrasing(true, env.reply, text);
              if answer.Err? then r == AiResult(None, priority, due)
              else
                && r.suggested == Some(answer.value.suggestedText)
                && r.priority == answer.value.priority
                && r.due == (if answer.value.dueSuggestion.Some? && |answer.value.dueSuggestion.value| > 0
                                && env.hintParsed.Some?
                             then env.hintParsed.value else due)
  {
    if !AsksAi(config, noAi, env) then AiResult(None, priority, due)
    else
      var manager := ClientAi.GetAIManager(config.aiBackendUrl, Some(env.license.value.token));
      assert manager.Some?;
      match ClientAi.SuggestRephrasing(true, env.reply, text)
      case Err(_) => AiResult(None, priority, due)
      case Ok(resp) =>
        var hinted :=
          if resp.dueSuggestion.Some? && |resp.dueSuggestion.value| > 0 && env.hintParsed.Some?
          then env.hintParsed.value else due;
        AiResult(Some(resp.suggestedText), resp.priority, hinted)
  }

  /**
   * `remind add`: validate the due time, then the priority, then consult
   * the AI, then insert. A rejected option exits before anything is stored.
   */
  function Add(t: Store.Table, config: Config, text: string, due: Option<string>, priority: Option<string>,
               project: Option<string>, noAi: bool, env: AddEnv): (r: Result<(Store.Table, Result<Reminder, ValidationError>), AddError>)
    requires Store.ValidTable(t)
    ensures DueTime(due, env.dueParsed, env.now).Err? ==> r == Err(UnparsableDue)
    ensures DueTime(due, env.dueParsed, env.now).Ok? && AcceptPriority(priority).Err? ==> r == Err(InvalidPriority)
    ensures r.Ok? <==> DueTime(due, env.dueParsed, env.now).Ok? && AcceptPriority(priority).Ok?
    ensures r.Ok? ==> Store.ValidTable(r.value.0) && |r.value.0.rows| == |t.rows| + 1
    ensures r.Ok? ==> r.value.0.rows[..|t.rows|] == t.rows
    ensures r.Ok? ==>
              var ai := AiStep(config, noAi, text, AcceptPriority(priority).value, DueTime(due, env.dueParsed, env.now).value, env);
              var row := r.value.0.rows[|t.rows|];
              && row.text == text && row.dueAt == ai.due && row.priority == ai.priority
              && row.project == project && row.aiText == ai.suggested && row.doneAt.None?
  {
    var dueAt :- DueTime(due, env.dueParsed, env.now);
    var level :- AcceptPriority(priority);
    var ai := AiStep(config, noAi, text, level, dueAt, env);
    Ok(Store.Add(t, text, ai.due, ai.priority, project, ai.suggested, env.now))
  }

  /** Without `--due`, `--priority` or the AI, the reminder is due today at 09:00 UTC with medium priority. */
  lemma AddDefaults(t: Store.Table, config: Config, text: string, env: AddEnv)
    requires Store.ValidTable(t) && !config.aiRephrasingEnabled
    ensures var r := Add(t, config, text, None, None, None, false, env);
            && r.Ok?
            && r.value.0.rows[|t.rows|].dueAt == NineAm(env.now)
            && r.value.0.rows[|t.rows|].priority == Medium
            && r.value.0.rows[|t.rows|].aiText.None?
  {
  }

  // ---------------------------------------------------------------------------
  // list

  /** The project filter: a given, non-empty project keeps exact matches only. */
  function ByProject(rs: seq<Reminder>, project: Option<string>): (r: seq<Reminder>)
    ensures (project.None? || |project.value| == 0) ==> r == rs
    ensures project.Some? && |project.value| > 0 ==>
              forall y :: y in r <==> y in rs && y.project == project
  {
    if project.None? || |project.value| == 0 then rs
    else Keep(rs, Bucket.ForProject(project.value), 0)
  }

  /** The three `list` sections, and the filter used for the project. */
  datatype Bucket = Overdue | DueToday | Upcoming | ForProject(name: string)

  predicate InBucket(b: Bucket, r: Reminder, now: Instant) {
    match b
    case Overdue => r.dueAt < now
    case DueToday => DayIndex(r.dueAt) == DayIndex(now)
    case Upcoming => r.dueAt > now
    case ForProject(name) => r.project == Some(name)
  }

  /** A list comprehension with the bucket's condition: order kept, members exactly those that qualify. */
  function Keep(rs: seq<Reminder>, b: Bucket, now: Instant): (r: seq<Reminder>)
    ensures |r| <= |rs|
    ensures forall y :: y in r <==> y in rs && InBucket(b, y, now)
    ensures Store.Ascending(rs) ==> Store.Ascending(r)
  {
    if |rs| == 0 then []
    else
      var rest := Keep(rs[1..], b, now);
      assert forall y :: y in rs <==> y == rs[0] || y in rs[1..];
      if InBucket(b, rs[0], now) then
        KeepAscendingHead(rs, rest);
        [rs[0]] + rest
      else rest
  }

  /** The head of an ascending list stays in front of anything kept from its tail. */
  lemma KeepAscendingHead(rs: seq<Reminder>, rest: seq<Reminder>)
    requires |rs| > 0
    requires forall y :: y in rest ==> y in rs[1..]
    ensures Store.Ascending(rs) && Store.Ascending(rest) ==> Store.Ascending([rs[0]] + rest)
  {
    if !(Store.Ascending(rs) && Store.Ascending(rest)) {
      return;
    }
    var r := [rs[0]] + rest;
    forall i, j | 0 <= i < j < |r| ensures Store.Before(r[i], r[j]) {
      assert r[j] == rest[j - 1];
      assert r[j] in rs[1..];
      var k :| 0 <= k < |rs[1..]| && rs[1..][k] == r[j];
      assert rs[k + 1] == r[j];
      if i > 0 {
        assert r[i] == rest[i - 1];
      }
    }
  }

  /**
   * Keeping distributes over concatenation. With the one-element case this
   * pins `Keep` down as the order-preserving filter: the kept reminders
   * appear in the order the query returned them.
   */
  lemma {:induction false} KeepAppend(a: seq<Reminder>, c: seq<Reminder>, b: Bucket, now: Instant)
    ensures Keep(a + c, b, now) == Keep(a, b, now) + Keep(c, b, now)
    decreases |a|
  {
    if |a| == 0 {
      assert a + c == c;
    } else {
      var x, t := a[0], a[1..];
      SplitHead(a, c);
      KeepCons(x, t + c, b, now);
      KeepCons(x, t, b, now);
      KeepAppend(t, c, b, now);
      AppendAssoc(if InBucket(b, x, now) then [x] else [], Keep(t, b, now), Keep(c, b, now));
    }
  }

  /** A non-empty list is its head in front of its tail. */
  lemma SplitHead(a: seq<Reminder>, c: seq<Reminder>)
    requires |a| > 0
    ensures a == [a[0]] + a[1..] && a + c == [a[0]] + (a[1..] + c)
  {
  }

  /** Concatenation regroups freely. */
  lemma AppendAssoc(h: seq<Reminder>, p: seq<Reminder>, q: seq<Reminder>)
    ensures h + (p + q) == (h + p) + q
  {
  }

  /** The empty list keeps nothing, and one reminder is kept iff it qualifies. */
  lemma KeepSingle(y: Reminder, b: Bucket, now: Instant)
    ensures Keep([], b, now) == []
    ensures Keep([y], b, now) == (if InBucket(b, y, now) then [y] else [])
  {
    KeepCons(y, [], b, now);
    assert [y] + [] == [y];
  }

  /** One step of `Keep` on a reminder put in front of a list. */
  lemma KeepCons(x: Reminder, s: seq<Reminder>, b: Bucket, now: Instant)
    ensures Keep([x] + s, b, now) == (if InBucket(b, x, now) then [x] else []) + Keep(s, b, now)
  {
    assert ([x] + s)[0] == x;
    assert ([x] + s)[1..] == s;
  }

  /** What `list` prints, section by section. */
  datatype Listing =
    | NoneFound
    | Sections(total: nat, overdue: seq<Reminder>, today: seq<Reminder>, upcoming: seq<Reminder>, more: nat)

  /** At most this many upcoming reminders are printed. */
  const UpcomingShown: nat := 10

  /** The sections of `list` for the selected reminders. */
  function Sectioned(rs: seq<Reminder>, now: Instant): (l: Listing)
    ensures l.NoneFound? <==> |rs| == 0
    ensures l.Sections? ==>
              && l.total == |rs|
              && (forall y :: y in l.overdue <==> y in rs && y.dueAt < now)
              && (forall y :: y in l.today <==> y in rs && DayIndex(y.dueAt) == DayIndex(now))
              && |l.upcoming| <= UpcomingShown
              && (forall y :: y in l.upcoming ==> y in rs && y.dueAt > now)
              && |l.upcoming| + l.more == |Keep(rs, Upcoming, now)|
              && (l.more > 0 ==> |l.upcoming| == UpcomingShown)
    ensures l.Sections? ==>
              && l.overdue == Keep(rs, Overdue, now) && l.today == Keep(rs, DueToday, now)
              && l.upcoming <= Keep(rs, Upcoming, now)
  {
    if |rs| == 0 then NoneFound
    else
      var up := Keep(rs, Upcoming, now);
      var shown := if |up| > UpcomingShown then up[..UpcomingShown] else up;
      assert forall y :: y in shown ==> y in up;
      Sections(|rs|, Keep(rs, Overdue, now), Keep(rs, DueToday, now), shown,
               if |up| > UpcomingShown then |up| - UpcomingShown else 0)
  }

  /** No reminder is both overdue and upcoming, and one due exactly now is in neither. */
  lemma SectionsOverlap(rs: seq<Reminder>, now: Instant)
    requires Sectioned(rs, now).Sections?
    ensures var l := Sectioned(rs, now);
            && (forall y :: y in l.overdue ==> y !in l.upcoming)
            && (forall y :: y in rs && y.dueAt == now ==> y !in l.overdue && y !in l.upcoming)
  {
  }

  /** `remind list [--all] [--project P]`. */
  function List(t: Store.Table, all: bool, project: Option<string>, now: Instant): (r: Result<Listing, ValidationError>)
    requires Store.ValidTable(t)
    ensures r.Err? <==> (if all then Store.ListAll(t).Err? else Store.ListActive(t).Err?)
    ensures r.Ok? ==>
              var rs := (if all then Store.ListAll(t) else Store.ListActive(t)).value;
              r.value == Sectioned(ByProject(rs, project), now)
  {
    var rs :- if all then Store.ListAll(t) else Store.ListActive(t);
    Ok(Sectioned(ByProject(rs, project), now))
  }

  // ---------------------------------------------------------------------------
  // done

  datatype DoneError = NotFound | Invalid(e: ValidationError)

  /** `remind done ID`: an unknown id exits with status 1 and changes nothing. */
  function Done(t: Store.Table, id: int, now: Instant): (r: (Store.Table, Result<Reminder, DoneError>))
    requires Store.ValidTable(t)
    ensures r.1 == Err(NotFound) <==> !Store.HasId(t, id)
    ensures r.1 == Err(NotFound) ==> r.0 == t
    ensures r.1.Ok? ==> r.1.value.id == id && r.1.value.doneAt == Some(now)
    ensures Store.HasId(t, id) ==> |r.0.rows| == |t.rows|
    ensures Store.HasId(t, id) ==> forall i :: 0 <= i < |t.rows| ==>
              r.0.rows[i] == (if t.rows[i].id == id then t.rows[i].(doneAt := Some(now)) else t.rows[i])
    ensures Store.HasId(t, id) ==>
              (r.1.Ok? <==> exists i :: 0 <= i < |t.rows| && t.rows[i].id == id && ValidText(t.rows[i].text))
  {
    var (t', res) := Store.MarkDone(t, id, now);
    match res
    case Err(e) => (t', Err(Invalid(e)))
    case Ok(None) => (t', Err(NotFound))
    case Ok(Some(m)) => (t', Ok(m))
  }
}
