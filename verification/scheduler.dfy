/**
 * remind/scheduler.py: the nudge bookkeeping of `SchedulerState` and one
 * pass of `Scheduler._check_and_notify` over the due reminders of the store.
 * The clock, the licence file and the desktop notifier are inputs; which
 * calls raise is given as sets of reminder ids.
 */
module Scheduler {
  import opened Wrappers
  import opened Calendar
  import opened RemindModels
  import Store

  /** `last_nudge_times`: reminder id to the instant of its last notification. */
  type State = map<int, Instant>

  const EmptyState: State := map[]

  /** The smallest interval of a non-empty list. */
  function MinInterval(ivs: seq<int>): (m: int)
    requires |ivs| > 0
    ensures m in ivs
    ensures forall i :: 0 <= i < |ivs| ==> m <= ivs[i]
  {
    if |ivs| == 1 then ivs[0]
    else
      var rest := MinInterval(ivs[1..]);
      if ivs[0] <= rest then ivs[0] else rest
  }

  /**
   * The `for interval in nudge_intervals` loop of `should_nudge`: true as
   * soon as one interval `k` has both elapsed times above `k` minutes.
   */
  predicate AnyIntervalElapsed(ivs: seq<int>, sinceDue: int, sinceNudge: int) {
    if |ivs| == 0 then false
    else if sinceDue > 60 * ivs[0] && sinceNudge > 60 * ivs[0] then true
    else AnyIntervalElapsed(ivs[1..], sinceDue, sinceNudge)
  }

  /** Only the smallest interval matters to the loop. */
  lemma {:induction false} AnyIntervalIsMin(ivs: seq<int>, sinceDue: int, sinceNudge: int)
    ensures AnyIntervalElapsed(ivs, sinceDue, sinceNudge) <==>
            |ivs| > 0 && sinceDue > 60 * MinInterval(ivs) && sinceNudge > 60 * MinInterval(ivs)
  {
    if |ivs| > 1 {
      AnyIntervalIsMin(ivs[1..], sinceDue, sinceNudge);
    }
  }

  /**
   * `should_nudge(id, intervals, due)` at `now`. An id never notified is
   * compared with the first interval only; a notified one with each interval
   * against both the due time and its last notification.
   */
  predicate ShouldNudge(st: State, id: int, ivs: seq<int>, due: Instant, now: Instant) {
    if id !in st then |ivs| > 0 && now - due > 60 * ivs[0]
    else AnyIntervalElapsed(ivs, now - due, now - st[id])
  }

  /** For a notified id, `should_nudge` is the test on the smallest interval. */
  lemma ShouldNudgeUsesMinimum(st: State, id: int, ivs: seq<int>, due: Instant, now: Instant)
    requires id in st
    ensures ShouldNudge(st, id, ivs, due, now) <==>
            |ivs| > 0 && now - due > 60 * MinInterval(ivs) && now - st[id] > 60 * MinInterval(ivs)
  {
    AnyIntervalIsMin(ivs, now - due, now - st[id]);
  }

  /** With no intervals configured nothing is ever nudged. */
  lemma NoIntervalsNoNudge(st: State, id: int, due: Instant, now: Instant)
    ensures !ShouldNudge(st, id, [], due, now)
  {
  }

  /** `record_nudge(id)`: sets that id's entry to `now` and no other. */
  function RecordNudge(st: State, id: int, now: Instant): (st': State)
    ensures st'.Keys == st.Keys + {id}
    ensures st'[id] == now
    ensures forall j :: j in st && j != id ==> st'[j] == st[j]
  {
    st[id := now]
  }

  /** `record_done(id)`: forgets that id, if present, and no other. */
  function RecordDone(st: State, id: int): (st': State)
    ensures st'.Keys == st.Keys - {id}
    ensures forall j :: j in st' ==> st'[j] == st[j]
    ensures id !in st ==> st' == st
  {
    st - {id}
  }

  /** A nudge recorded just now holds back the next one, even an hour after the due time. */
  lemma NudgeJustRecorded(st: State, id: int, now: Instant)
    requires now >= 3600
    ensures !ShouldNudge(RecordNudge(st, id, now), id, [5], now - 3600, now)
  {
  }

  /** How a notification reached the user. */
  datatype Delivery =
    | Console    // no notifier available: the text is printed
    | Shown      // the desktop notification went out
    | Swallowed  // the notifier raised; the error is printed and dropped

  /** `_send_notification` / `_send_nudge`: a notifier failure never escapes. */
  function Deliver(notifier: bool, deliveryFails: set<int>, id: int): Delivery {
    if !notifier then Console
    else if id in deliveryFails then Swallowed
    else Shown
  }

  datatype Event = FirstNotice(id: int, how: Delivery) | Nudge(id: int, how: Delivery)

  /** The environment of one pass. */
  datatype PassEnv = PassEnv(
    now: Instant,
    intervals: seq<int>,    // config.nudge_intervals_minutes
    licensed: bool,         // license_manager.has_license()
    notifier: bool,         // NotificationManager() imported
    deliveryFails: set<int>, // ids whose notification call raises
    raising: set<int>)      // ids whose nudge check raises out of the loop

  /** What the loop body does with one due reminder. */
  datatype Decision = Notify | NudgeIt | Skip | Raise

  function Decide(st: State, r: Reminder, env: PassEnv): (d: Decision)
    ensures r.id !in st <==> d == Notify
    ensures d == NudgeIt ==> env.licensed && ShouldNudge(st, r.id, env.intervals, r.dueAt, env.now)
    ensures d == Raise ==> env.licensed && r.id in st
    ensures r.id in st && !env.licensed ==> d == Skip
    ensures r.id in st && env.licensed && r.id in env.raising ==> d == Raise
    ensures r.id in st && env.licensed && r.id !in env.raising ==>
              (d == NudgeIt <==> ShouldNudge(st, r.id, env.intervals, r.dueAt, env.now))
  {
    if r.id !in st then Notify
    else if !env.licensed then Skip
    else if r.id in env.raising then Raise
    else if ShouldNudge(st, r.id, env.intervals, r.dueAt, env.now) then NudgeIt
    else Skip
  }

  /** How a pass ended. */
  datatype Outcome =
    | Completed
    | QueryFailed          // get_due_reminders raised: nothing was looked at
    | AbortedAt(id: int)   // the loop body raised on this reminder

  /** The result of a pass: the new state, the notifications sent, and how it ended. */
  datatype PassResult = PassResult(st: State, events: seq<Event>, outcome: Outcome)

  /** The loop over `due`, from the first reminder, as a recursive reference. */
  function RunLoop(st: State, due: seq<Reminder>, env: PassEnv): PassResult
    decreases |due|
  {
    if |due| == 0 then PassResult(st, [], Completed)
    else
      var r := due[0];
      match Decide(st, r, env)
      case Raise => PassResult(st, [], AbortedAt(r.id))
      case Skip => RunLoop(st, due[1..], env)
      case Notify =>
        var rest := RunLoop(RecordNudge(st, r.id, env.now), due[1..], env);
        rest.(events := [FirstNotice(r.id, Deliver(env.notifier, env.deliveryFails, r.id))] + rest.events)
      case NudgeIt =>
        var rest := RunLoop(RecordNudge(st, r.id, env.now), due[1..], env);
        rest.(events := [Nudge(r.id, Deliver(env.notifier, env.deliveryFails, r.id))] + rest.events)
  }

  /**
   * `_check_and_notify()`: query the due reminders, then run the loop. A
   * failing query ends the pass before anything is sent; a pass that
   * completes has recorded every due reminder, and no pass forgets an id.
   */
  method CheckAndNotify(st: State, t: Store.Table, env: PassEnv) returns (res: PassResult)
    requires Store.ValidTable(t)
    ensures res.outcome == QueryFailed <==> Store.GetDue(t, env.now).Err?
    ensures res.outcome == QueryFailed ==> res.st == st && res.events == []
    ensures Store.GetDue(t, env.now).Ok? ==> res == RunLoop(st, Store.GetDue(t, env.now).value, env)
    ensures st.Keys <= res.st.Keys
    ensures res.outcome == Completed ==>
              forall r :: r in t.rows && r.doneAt.None? && r.dueAt <= env.now ==> r.id in res.st
  {
    var query := Store.GetDue(t, env.now);
    if query.Err? {
      return PassResult(st, [], QueryFailed);
    }
    res := NotifyDue(st, query.value, env);
    LoopNeverQueries(st, query.value, env);
    KeysGrow(st, query.value, env);
    if res.outcome == Completed {
      CompletedRecordsAll(st, query.value, env);
    }
  }

  /** `res` preceded by the notifications `es` sent earlier in the pass. */
  function After(es: seq<Event>, res: PassResult): PassResult {
    res.(events := es + res.events)
  }

  lemma AfterAfter(es: seq<Event>, e: Event, res: PassResult)
    ensures After(es, After([e], res)) == After(es + [e], res)
  {
    assert es + ([e] + res.events) == (es + [e]) + res.events;
  }

  /** The `for reminder in due_reminders` loop inside the `try`. */
  method NotifyDue(st: State, due: seq<Reminder>, env: PassEnv) returns (res: PassResult)
    ensures res == RunLoop(st, due, env)
  {
    var cur := st;
    var events: seq<Event> := [];
    var k := 0;
    assert due[0..] == due;
    while k < |due|
      invariant 0 <= k <= |due|
      invariant RunLoop(st, due, env) == After(events, RunLoop(cur, due[k..], env))
    {
      var r := due[k];
      assert due[k..][0] == r;
      assert due[k..][1..] == due[k + 1..];
      var d := Decide(cur, r, env);
      if d == Raise {
        assert events + [] == events;
        return PassResult(cur, events, AbortedAt(r.id));
      } else if d == Notify {
        var e := FirstNotice(r.id, Deliver(env.notifier, env.deliveryFails, r.id));
        AfterAfter(events, e, RunLoop(RecordNudge(cur, r.id, env.now), due[k + 1..], env));
        events := events + [e];
        cur := RecordNudge(cur, r.id, env.now);
      } else if d == NudgeIt {
        var e := Nudge(r.id, Deliver(env.notifier, env.deliveryFails, r.id));
        AfterAfter(events, e, RunLoop(RecordNudge(cur, r.id, env.now), due[k + 1..], env));
        events := events + [e];
        cur := RecordNudge(cur, r.id, env.now);
      }
      k := k + 1;
    }
    assert events + [] == events;
    return PassResult(cur, events, Completed);
  }

  // ---------------------------------------------------------------------------
  // Properties of a pass

  /** The loop itself never reports a failed query. */
  lemma {:induction false} LoopNeverQueries(st: State, due: seq<Reminder>, env: PassEnv)
    ensures RunLoop(st, due, env).outcome != QueryFailed
    decreases |due|
  {
    if |due| > 0 {
      LoopNeverQueries(st, due[1..], env);
      LoopNeverQueries(RecordNudge(st, due[0].id, env.now), due[1..], env);
    }
  }

  /** A pass only adds ids to the state. */
  lemma {:induction false} KeysGrow(st: State, due: seq<Reminder>, env: PassEnv)
    ensures st.Keys <= RunLoop(st, due, env).st.Keys
    decreases |due|
  {
    if |due| > 0 {
      var r := due[0];
      var next := if Decide(st, r, env) in {Notify, NudgeIt} then RecordNudge(st, r.id, env.now) else st;
      if Decide(st, r, env) != Raise {
        assert RunLoop(st, due, env).st == RunLoop(next, due[1..], env).st;
        KeysGrow(next, due[1..], env);
      }
    }
  }

  /** A completed pass leaves every due reminder's id recorded. */
  lemma {:induction false} CompletedRecordsAll(st: State, due: seq<Reminder>, env: PassEnv)
    requires RunLoop(st, due, env).outcome == Completed
    ensures forall r :: r in due ==> r.id in RunLoop(st, due, env).st
    decreases |due|
  {
    if |due| > 0 {
      var r := due[0];
      var next := if Decide(st, r, env) in {Notify, NudgeIt} then RecordNudge(st, r.id, env.now) else st;
      assert RunLoop(st, due, env).st == RunLoop(next, due[1..], env).st;
      CompletedRecordsAll(next, due[1..], env);
      KeysGrow(next, due[1..], env);
      assert forall r :: r in due ==> r == due[0] || r in due[1..];
    }
  }

  /** The state a pass leaves never depends on whether notifications could be delivered. */
  lemma {:induction false} StateIgnoresDelivery(st: State, due: seq<Reminder>, env: PassEnv,
                                                notifier: bool, deliveryFails: set<int>)
    ensures var other := env.(notifier := notifier, deliveryFails := deliveryFails);
            && RunLoop(st, due, env).st == RunLoop(st, due, other).st
            && RunLoop(st, due, env).outcome == RunLoop(st, due, other).outcome
            && |RunLoop(st, due, env).events| == |RunLoop(st, due, other).events|
    decreases |due|
  {
    var other := env.(notifier := notifier, deliveryFails := deliveryFails);
    if |due| > 0 {
      var r := due[0];
      assert Decide(st, r, env) == Decide(st, r, other);
      StateIgnoresDelivery(st, due[1..], env, notifier, deliveryFails);
      StateIgnoresDelivery(RecordNudge(st, r.id, env.now), due[1..], env, notifier, deliveryFails);
    }
  }

  /**
   * A reminder seen for the first time is notified at once, with no interval
   * check, and recorded at `now`, even when its notification was swallowed.
   */
  lemma FirstSightNotifies(st: State, due: seq<Reminder>, env: PassEnv)
    requires |due| > 0 && due[0].id !in st
    ensures var res := RunLoop(st, due, env);
            && |res.events| > 0
            && res.events[0] == FirstNotice(due[0].id, Deliver(env.notifier, env.deliveryFails, due[0].id))
            && RunLoop(st, due, env) == RunLoop(RecordNudge(st, due[0].id, env.now), due[1..], env)
                                          .(events := res.events)
  {
  }

  /**
   * Under a licence, a reminder already notified whose check does not raise
   * is nudged exactly when `should_nudge` holds: the nudge comes first and
   * its id is recorded again at `now`; otherwise it is passed over.
   */
  lemma SeenLicensedNudges(st: State, due: seq<Reminder>, env: PassEnv)
    requires |due| > 0 && due[0].id in st && env.licensed && due[0].id !in env.raising
    ensures var res := RunLoop(st, due, env);
            if ShouldNudge(st, due[0].id, env.intervals, due[0].dueAt, env.now) then
              && |res.events| > 0
              && res.events[0] == Nudge(due[0].id, Deliver(env.notifier, env.deliveryFails, due[0].id))
              && res == RunLoop(RecordNudge(st, due[0].id, env.now), due[1..], env).(events := res.events)
            else res == RunLoop(st, due[1..], env)
  {
  }

  /** Without a licence, a reminder already notified produces nothing and changes nothing. */
  lemma UnlicensedSeenIsSilent(st: State, due: seq<Reminder>, env: PassEnv)
    requires |due| > 0 && due[0].id in st && !env.licensed
    ensures RunLoop(st, due, env) == RunLoop(st, due[1..], env)
  {
  }

  /**
   * A reminder is nudged only under a licence. When the due ids are distinct,
   * as the rows of a table are, a nudged id was already in the state at the
   * start of the pass and `should_nudge` held for it against that state.
   */
  lemma {:induction false} NudgesNeedLicence(st: State, due: seq<Reminder>, env: PassEnv)
    ensures forall e :: e in RunLoop(st, due, env).events && e.Nudge? ==>
              env.licensed && exists i :: 0 <= i < |due| && due[i].id == e.id
    ensures Store.DistinctIds(due) ==>
              forall e :: e in RunLoop(st, due, env).events && e.Nudge? ==>
                && e.id in st
                && exists i :: 0 <= i < |due| && due[i].id == e.id
                                && ShouldNudge(st, e.id, env.intervals, due[i].dueAt, env.now)
    decreases |due|
  {
    if |due| > 0 {
      var r := due[0];
      NudgesNeedLicence(st, due[1..], env);
      NudgesNeedLicence(RecordNudge(st, r.id, env.now), due[1..], env);
      forall i | 0 <= i < |due[1..]| ensures due[1..][i] == due[i + 1] { }
      if Store.DistinctIds(due) {
        Store.DistinctTail(due);
        var next := if Decide(st, r, env) in {Notify, NudgeIt} then RecordNudge(st, r.id, env.now) else st;
        forall e | e in RunLoop(next, due[1..], env).events && e.Nudge?
          ensures && e.id in st
                  && exists i :: 0 <= i < |due| && due[i].id == e.id
                                  && ShouldNudge(st, e.id, env.intervals, due[i].dueAt, env.now)
        {
          var i :| 0 <= i < |due[1..]| && due[1..][i].id == e.id
                   && ShouldNudge(next, e.id, env.intervals, due[1..][i].dueAt, env.now);
          assert e.id != r.id;
          assert next[e.id] == st[e.id];
          assert due[i + 1].id == e.id;
        }
      }
    }
  }

  /**
   * An exception escaping the nudge check of an already-notified reminder
   * ends the pass there: the reminders after it get no notification.
   */
  lemma {:induction false} AbortStopsPass(st: State, due: seq<Reminder>, env: PassEnv, k: nat)
    requires k < |due|
    requires due[k].id in st && due[k].id in env.raising && env.licensed
    ensures RunLoop(st, due, env).outcome.AbortedAt?
    ensures |RunLoop(st, due, env).events| <= k
    decreases |due|
  {
    var r := due[0];
    if k > 0 {
      assert due[1..][k - 1] == due[k];
      match Decide(st, r, env)
      case Raise =>
      case Skip => AbortStopsPass(st, due[1..], env, k - 1);
      case Notify => AbortStopsPass(RecordNudge(st, r.id, env.now), due[1..], env, k - 1);
      case NudgeIt => AbortStopsPass(RecordNudge(st, r.id, env.now), due[1..], env, k - 1);
    }
  }
}
