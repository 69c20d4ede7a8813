/** The pure helpers of remind/utils.py: truncation, lenient priority parsing, relative-date buckets. */
module Utils {
  import opened Wrappers
  import opened Text
  import opened Priority
  import opened Calendar

  const DefaultTruncateLength: int := 100
  const Ellipsis: string := "..."

  /** Python's `s[:n]`, where a negative `n` counts from the end. */
  function PyPrefix(s: string, n: int): (r: string)
    ensures r <= s
    ensures n >= 0 ==> |r| == if n <= |s| then n else |s|
    ensures n < 0 ==> |r| == if |s| + n >= 0 then |s| + n else 0
  {
    if n >= 0 then (if n <= |s| then s[..n] else s)
    else if |s| + n >= 0 then s[..|s| + n]
    else []
  }

  /** `truncate_text(text, max_length)`. */
  function TruncateText(text: string, maxLength: int): (r: string)
    ensures |text| <= maxLength ==> r == text
    ensures 0 <= maxLength < |text| ==> r == text[..maxLength] + Ellipsis && |r| == maxLength + 3
    ensures maxLength < 0 ==> |r| >= 3 && r[|r| - 3..] == Ellipsis && r[..|r| - 3] == PyPrefix(text, maxLength)
  {
    if |text| > maxLength then PyPrefix(text, maxLength) + Ellipsis else text
  }

  /**
   * `parse_priority(value, default)`. `arg` is `None` when the argument is not
   * a string (the `.lower()` call then raises `AttributeError`).
   */
  function ParsePriority(arg: Option<string>, default: Priority): (r: Priority)
    ensures forall p :: arg.Some? && Lower(arg.value) == Value(p) ==> r == p
    ensures arg.None? || FromValue(Lower(arg.value)).None? ==> r == default
  {
    if arg.None? then default
    else FromValue(Lower(arg.value)).GetOr(default)
  }

  lemma LowerIdempotent(s: string)
    ensures Lower(Lower(s)) == Lower(s)
  {
  }

  /** Parsing ignores ASCII case: a string and its lower-case form parse alike. */
  lemma ParsePriorityCaseInsensitive(s: string, default: Priority)
    ensures ParsePriority(Some(s), default) == ParsePriority(Some(Lower(s)), default)
  {
    LowerIdempotent(s);
  }

  /** Every priority, written in any case, parses to itself. */
  lemma ParsePriorityAcceptsValue(p: Priority, s: string, default: Priority)
    requires Lower(s) == Value(p)
    ensures ParsePriority(Some(s), default) == p
  {
  }

  /** The bucket `format_datetime` chooses; the clock text it appends is not modelled. */
  datatype Relative =
    | Today                 // "today at …"
    | Tomorrow              // "tomorrow at …"
    | OverdueToday          // "overdue (today)"
    | OverdueBy(days: nat)  // "overdue by N day(s)"
    | InDays(days: nat)     // "in N day(s) at …"
    | OnDate                // "<Mon DD> at …"

  /** `today.replace(day=today.day + 1)` raises `ValueError` on the last day of a month. */
  datatype FormatError = DayOutOfRange

  predicate LastDayOfMonth(t: Instant) {
    DateOf(t).day == MonthDays(DateOf(t).year, DateOf(t).month)
  }

  /** The day after `DateOf(now)` when it is not the last of its month. */
  lemma NextDayInMonth(now: Instant)
    requires !LastDayOfMonth(now)
    ensures var d := DateOf(now);
            ValidDate(Date(d.year, d.month, d.day + 1)) && DayNumber(Date(d.year, d.month, d.day + 1)) == DayIndex(now) + 1
  {
  }

  /** `format_datetime(dt)` evaluated at `now`, both as UTC instants (a naive `dt` is read as UTC). */
  function FormatDatetime(dt: Instant, now: Instant): (r: Result<Relative, FormatError>)
    ensures r == Ok(Today) <==> DayIndex(dt) == DayIndex(now)
    ensures r.Err? <==> DayIndex(dt) != DayIndex(now) && LastDayOfMonth(now)
    ensures r == Ok(Tomorrow) <==> DayIndex(dt) == DayIndex(now) + 1 && !LastDayOfMonth(now)
    ensures r == Ok(OverdueToday) ==> dt < now < dt + SecondsPerDay && DayIndex(dt) < DayIndex(now)
    ensures r.Ok? && r.value.OverdueBy? ==>
              && r.value.days >= 1 && dt < now
              && r.value.days * SecondsPerDay <= now - dt < (r.value.days + 1) * SecondsPerDay
    ensures r.Ok? && r.value.InDays? ==>
              && 2 <= r.value.days < 7 && now <= dt
              && r.value.days == DayIndex(dt) - DayIndex(now)
    ensures r == Ok(OnDate) ==> now <= dt && DayIndex(dt) >= DayIndex(now) + 7
  {
    if DayIndex(dt) == DayIndex(now) then Ok(Today)
    else if LastDayOfMonth(now) then Err(DayOutOfRange)
    else if DayIndex(dt) == DayIndex(now) + 1 then Ok(Tomorrow)
    else if dt < now then
      var daysAgo := (now - dt) / SecondsPerDay;
      if daysAgo == 0 then Ok(OverdueToday) else Ok(OverdueBy(daysAgo))
    else
      var daysAhead := DayIndex(dt) - DayIndex(now);
      if daysAhead < 7 then Ok(InDays(daysAhead)) else Ok(OnDate)
  }
}
