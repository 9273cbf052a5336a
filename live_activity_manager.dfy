/**
 * LiveActivityManager: owns the one Live Activity that mirrors the agent's
 * progress on the Lock Screen.  It keeps a three-slot intent window, a step
 * counter, a latched subject and an overwritten cost, and after every change
 * sends the platform a full ContentState snapshot.
 *
 * The platform is modelled by `dispatched`, the calls the manager has made to
 * it, oldest first: a request that creates an activity, an update, or an end
 * with its dismissal date.  The clock (`Date()`), whether Live Activities are
 * enabled, and whether the request succeeds are parameters.
 */
module LiveActivity {
  import opened Optional
  import opened IntentStack
  import opened Attributes

  /** Longest task line the activity shows. */
  const MaxTaskLength: nat := 60
  /** Seconds the finished activity stays on screen. */
  const DismissalDelay: int := 8

  /** The task line: anything over 60 characters is cut to 57 and gets "...". */
  function TruncatedTask(userTask: string): (t: string)
    ensures |t| <= MaxTaskLength
    ensures |userTask| <= MaxTaskLength ==> t == userTask
    ensures |userTask| > MaxTaskLength ==>
      |t| == MaxTaskLength && t[..57] == userTask[..57] && t[57..] == "..."
  {
    if |userTask| > MaxTaskLength then userTask[..57] + "..." else userTask
  }

  /** A live activity; its id is the position of the request that created it. */
  datatype ActivityHandle = ActivityHandle(id: nat, attributes: ActivityAttributes)

  /** One platform call that took effect. */
  datatype Dispatch =
    | Request(attributes: ActivityAttributes, state: ContentState)
    | Update(activity: nat, state: ContentState)
    | End(activity: nat, state: ContentState, dismissAt: int)

  /** The activities that a log has requested and not yet ended. */
  function OpenSessions(log: seq<Dispatch>): set<nat>
  {
    if log == [] then {}
    else
      var before := OpenSessions(log[..|log| - 1]);
      match log[|log| - 1]
      case Request(_, _) => before + {|log| - 1}
      case Update(_, _) => before
      case End(a, _, _) => before - {a}
  }

  lemma OpenSessionsSnoc(log: seq<Dispatch>, d: Dispatch)
    ensures d.Request? ==> OpenSessions(log + [d]) == OpenSessions(log) + {|log|}
    ensures d.Update? ==> OpenSessions(log + [d]) == OpenSessions(log)
    ensures d.End? ==> OpenSessions(log + [d]) == OpenSessions(log) - {d.activity}
  {
    assert (log + [d])[..|log|] == log;
  }

  /**
   * The platform holds exactly one open activity, the current one, or none;
   * with none, no subject is latched.
   * While one is live, the tracked fields are those the calls since its start
   * produce, and the last snapshot sent shows them.
   */
  ghost predicate Consistent(current: Option<ActivityHandle>, log: seq<Dispatch>,
                             startedAt: int, calls: seq<Call>, fields: Stack)
  {
    && OpenSessions(log) == (if current.Some? then {current.value.id} else {})
    && (current.None? ==> fields.subject.None?)
    && (current.Some? ==>
          var a := current.value;
          && a.id < |log|
          && log[a.id].Request? && log[a.id].attributes == a.attributes
          && fields == Run(Started(startedAt), calls)
          && log[|log| - 1].state == Snapshot(fields))
  }

  /** A call on a live activity, sent as an update, keeps the invariant. */
  lemma UpdateKeepsConsistent(a: ActivityHandle, log: seq<Dispatch>, startedAt: int,
                              calls: seq<Call>, fields: Stack, c: Call)
    requires Consistent(Some(a), log, startedAt, calls, fields)
    ensures Consistent(Some(a), log + [Update(a.id, Snapshot(Apply(fields, c)))],
                       startedAt, calls + [c], Apply(fields, c))
  {
    OpenSessionsSnoc(log, Update(a.id, Snapshot(Apply(fields, c))));
    RunSnoc(Started(startedAt), calls, c);
  }

  /** Ending the live activity keeps the invariant, with no activity left. */
  lemma EndKeepsConsistent(a: ActivityHandle, log: seq<Dispatch>, startedAt: int,
                           calls: seq<Call>, fields: Stack, now: int)
    requires Consistent(Some(a), log, startedAt, calls, fields)
    ensures Consistent(None, log + [End(a.id, FinalSnapshot(fields, now), now + DismissalDelay)],
                       startedAt, calls, Cleared(fields))
  {
    OpenSessionsSnoc(log, End(a.id, FinalSnapshot(fields, now), now + DismissalDelay));
  }

  /** Requesting a new activity when none is live keeps the invariant. */
  lemma RequestKeepsConsistent(log: seq<Dispatch>, startedAt: int, calls: seq<Call>,
                               fields: Stack, attributes: ActivityAttributes, now: int)
    requires Consistent(None, log, startedAt, calls, fields)
    ensures Consistent(Some(ActivityHandle(|log|, attributes)),
                       log + [Request(attributes, Snapshot(Started(now)))], now, [], Started(now))
  {
    OpenSessionsSnoc(log, Request(attributes, Snapshot(Started(now))));
  }

  class LiveActivityManager {
    var currentActivity: Option<ActivityHandle>
    /** The intent window: current, previous and second-previous intents. */
    var currentIntent: string
    var previousIntent: Option<string>
    var secondPreviousIntent: Option<string>
    var stepNumber: int
    var intentStartDate: int
    var subject: Option<string>
    var costTotal: Option<string>
    /**
     * The platform calls that took effect, oldest first: granted requests,
     * updates and ends.  A refused request leaves no entry (see StartActivity).
     */
    var dispatched: seq<Dispatch>

    /** When the live session started, and the calls it has received since. */
    ghost var startedAt: int
    ghost var calls: seq<Call>

    /** The tracked fields as one value. */
    function Fields(): Stack
      reads this`currentIntent, this`previousIntent, this`secondPreviousIntent
      reads this`stepNumber, this`intentStartDate, this`subject, this`costTotal
    {
      Stack(currentIntent, previousIntent, secondPreviousIntent, stepNumber, intentStartDate, subject, costTotal)
    }

    /** What `endActivity` at `now` sends: its end call, or nothing when no activity is live. */
    function EndDispatches(now: int): seq<Dispatch>
      reads this
    {
      match currentActivity
      case None => []
      case Some(a) => [End(a.id, FinalSnapshot(Fields(), now), now + DismissalDelay)]
    }

    /** The manager's invariant, stated on its state as values. */
    ghost predicate Valid()
      reads this
    {
      Consistent(currentActivity, dispatched, startedAt, calls, Fields())
    }

    constructor (now: int)
      ensures Valid()
      ensures currentActivity.None? && dispatched == []
      ensures Fields() == Stack("", None, None, 0, now, None, None)
    {
      currentActivity := None;
      currentIntent := "";
      previousIntent := None;
      secondPreviousIntent := None;
      stepNumber := 0;
      intentStartDate := now;
      subject := None;
      costTotal := None;
      dispatched := [];
      startedAt, calls := now, [];
    }

    /** Resets the tracked fields for a new message. */
    method ResetTracking(now: int)
      modifies this`currentIntent, this`previousIntent, this`secondPreviousIntent,
        this`stepNumber, this`intentStartDate, this`subject, this`costTotal
      ensures Fields() == Started(now)
    {
      currentIntent := StartIntent;
      previousIntent := None;
      secondPreviousIntent := None;
      stepNumber := 1;
      intentStartDate := now;
      subject := None;
      costTotal := None;
    }

    /** Shifts the intent window, counts the step, latches the subject and takes a supplied cost. */
    method ShiftIntent(intent: string, subject: Option<string>, cost: Option<string>, now: int)
      modifies this`currentIntent, this`previousIntent, this`secondPreviousIntent,
        this`stepNumber, this`intentStartDate, this`subject, this`costTotal
      ensures Fields() == Shift(old(Fields()), intent, subject, cost, now)
    {
      secondPreviousIntent := previousIntent;
      previousIntent := Some(currentIntent);
      currentIntent := intent;
      stepNumber := stepNumber + 1;
      intentStartDate := now;

      if this.subject.None? && subject.Some? {
        this.subject := subject;
      }

      if cost.Some? {
        costTotal := cost;
      }
    }

    /** Clears the tracked fields once the activity has ended; the intent start date stays. */
    method ClearTracking()
      modifies this`currentIntent, this`previousIntent, this`secondPreviousIntent,
        this`stepNumber, this`intentStartDate, this`subject, this`costTotal
      ensures Fields() == Cleared(old(Fields()))
    {
      currentIntent := "";
      previousIntent := None;
      secondPreviousIntent := None;
      stepNumber := 0;
      subject := None;
      costTotal := None;
    }

    /** Ends the live activity, if there is one, before a new one starts. */
    method EndIfLive(now: int)
      requires Valid()
      modifies this
      ensures Valid() && currentActivity.None?
      ensures dispatched == old(dispatched) + old(EndDispatches(now))
      ensures old(currentActivity).Some? ==> Fields() == Cleared(old(Fields()))
      ensures old(currentActivity).None? ==> unchanged(this)
    {
      if currentActivity.Some? {
        EndActivity(now);
      }
    }

    /**
     * Requests an activity showing the fresh session's snapshot; only a
     * request that succeeds leaves a live activity and an entry in the log.
     */
    method RequestActivity(attributes: ActivityAttributes, requestSucceeds: bool)
      requires Valid() && currentActivity.None?
      requires calls == [] && Fields() == Started(startedAt)
      modifies this`currentActivity, this`dispatched
      ensures Valid()
      ensures requestSucceeds ==>
        && currentActivity == Some(ActivityHandle(|old(dispatched)|, attributes))
        && dispatched == old(dispatched) + [Request(attributes, Snapshot(Started(startedAt)))]
      ensures !requestSucceeds ==> currentActivity.None? && dispatched == old(dispatched)
    {
      var initialState := ContentState(None, currentIntent, None, None, None,
        intentStartDate, None, stepNumber, None);
      if requestSucceeds {
        ghost var fields := Fields();
        assert initialState == Snapshot(Started(startedAt));
        RequestKeepsConsistent(dispatched, startedAt, calls, fields, attributes, startedAt);
        currentActivity := Some(ActivityHandle(|dispatched|, attributes));
        dispatched := dispatched + [Request(attributes, initialState)];
        assert Fields() == fields;
      }
    }

    /**
     * Starts a new activity for a message: ends a live one first, resets the
     * tracked fields, and, when activities are enabled, requests an activity
     * showing the initial snapshot.  The `subject` argument is not used.
     */
    method StartActivity(agentName: string, userTask: string, subject: Option<string>,
                         now: int, enabled: bool, requestSucceeds: bool)
      requires Valid()
      modifies this
      ensures Valid()
      ensures Fields() == Started(now) && startedAt == now && calls == []
      ensures var base := old(dispatched) + old(EndDispatches(now));
        var attributes := ActivityAttributes(agentName, TruncatedTask(userTask));
        if enabled && requestSucceeds then
          && currentActivity == Some(ActivityHandle(|base|, attributes))
          && dispatched == base + [Request(attributes, Snapshot(Started(now)))]
        else
          currentActivity.None? && dispatched == base
    {
      EndIfLive(now);

      ResetTracking(now);
      startedAt, calls := now, [];

      if !enabled {
        return;
      }

      var attributes := ActivityAttributes(agentName, TruncatedTask(userTask));
      RequestActivity(attributes, requestSucceeds);
    }

    /**
     * Shifts a new intent into the window, counts the step, latches the
     * subject, takes a supplied cost, and sends the new snapshot.  Without a
     * live activity it does nothing.
     */
    method UpdateIntent(intent: string, subject: Option<string>, cost: Option<string>, now: int)
      requires Valid()
      modifies this
      ensures Valid()
      ensures old(currentActivity).None? ==> unchanged(this)
      ensures old(currentActivity).Some? ==>
        && currentActivity == old(currentActivity)
        && Fields() == Shift(old(Fields()), intent, subject, cost, now)
        && dispatched == old(dispatched) + [Update(old(currentActivity).value.id, Snapshot(Fields()))]
        && calls == old(calls) + [IntentCall(intent, subject, cost, now)]
    {
      if currentActivity.None? {
        return;
      }
      var activity := currentActivity.value;
      UpdateKeepsConsistent(activity, dispatched, startedAt, calls, Fields(), IntentCall(intent, subject, cost, now));

      ShiftIntent(intent, subject, cost, now);

      var state := ContentState(this.subject, currentIntent, None, previousIntent, secondPreviousIntent,
        intentStartDate, None, stepNumber, costTotal);
      calls := calls + [IntentCall(intent, subject, cost, now)];
      dispatched := dispatched + [Update(activity.id, state)];
    }

    /** Replaces the cost alone and sends the snapshot; without a live activity it does nothing. */
    method UpdateCost(cost: string)
      requires Valid()
      modifies this
      ensures Valid()
      ensures old(currentActivity).None? ==> unchanged(this)
      ensures old(currentActivity).Some? ==>
        && currentActivity == old(currentActivity)
        && Fields() == OverwriteCost(old(Fields()), cost)
        && dispatched == old(dispatched) + [Update(old(currentActivity).value.id, Snapshot(Fields()))]
        && calls == old(calls) + [CostCall(cost)]
    {
      if currentActivity.None? {
        return;
      }
      var activity := currentActivity.value;
      UpdateKeepsConsistent(activity, dispatched, startedAt, calls, Fields(), CostCall(cost));

      costTotal := Some(cost);

      var state := ContentState(subject, currentIntent, None, previousIntent, secondPreviousIntent,
        intentStartDate, None, stepNumber, costTotal);
      calls := calls + [CostCall(cost)];
      dispatched := dispatched + [Update(activity.id, state)];
    }

    /**
     * Ends the live activity: sends the finished snapshot with dismissal 8
     * seconds later, then clears the tracked fields (all but the intent start
     * date).  Without a live activity it does nothing.
     */
    method EndActivity(now: int)
      requires Valid()
      modifies this
      ensures Valid()
      ensures old(currentActivity).None? ==> unchanged(this)
      ensures old(currentActivity).Some? ==>
        && currentActivity.None?
        && Fields() == Cleared(old(Fields()))
        && dispatched == old(dispatched) +
             [End(old(currentActivity).value.id, FinalSnapshot(old(Fields()), now), now + DismissalDelay)]
    {
      if currentActivity.None? {
        return;
      }
      var activity := currentActivity.value;
      EndKeepsConsistent(activity, dispatched, startedAt, calls, Fields(), now);
      currentActivity := None;

      var finalState := ContentState(subject, CompleteIntent, None, previousIntent, None,
        intentStartDate, Some(now), stepNumber, costTotal);

      ClearTracking();

      dispatched := dispatched + [End(activity.id, finalState, now + DismissalDelay)];
    }

    /** The platform never holds more than one activity opened by this manager. */
    lemma AtMostOneOpenSession()
      requires Valid()
      ensures |OpenSessions(dispatched)| <= 1
      ensures currentActivity.None? <==> OpenSessions(dispatched) == {}
    {
    }

    /**
     * Without a live activity no subject is latched, so clearing the
     * manager's subject on a start changes nothing that an end left behind.
     */
    lemma IdleHasNoSubject()
      requires Valid() && currentActivity.None?
      ensures subject.None?
    {
    }

    /**
     * While live: the window shows the last three intents supplied (once
     * there are three), the step counter is one more than the intents
     * supplied, the subject is the first supplied and the cost the last.
     */
    lemma SessionHistory()
      requires Valid() && currentActivity.Some?
      ensures stepNumber == 1 + |IntentsOf(calls)|
      ensures var ints := IntentsOf(calls); var n := |ints|;
        n >= 3 ==> currentIntent == ints[n - 1] && previousIntent == Some(ints[n - 2])
                   && secondPreviousIntent == Some(ints[n - 3])
      ensures subject == FirstSome(SubjectsOf(calls))
      ensures costTotal == LastSome(CostsOf(calls))
    {
      RunWindow(Started(startedAt), calls);
      RunSubject(Started(startedAt), calls);
      RunCost(Started(startedAt), calls);
      if |IntentsOf(calls)| >= 3 {
        SessionShowsLastThree(startedAt, calls);
      }
    }
  }

  /**
   * A run: start "Book a flight", report two steps (the first with a
   * subject), then end.  Four calls reach the platform and no activity is
   * left open.
   */
  method FlightBookingRun() returns (log: seq<Dispatch>, open: set<nat>)
    ensures |log| == 4 && open == {}
    ensures log[0] == Request(ActivityAttributes("Agent", "Book a flight"),
      ContentState(None, "Thinking...", None, None, None, 0, None, 1, None))
    ensures log[1] == Update(0, ContentState(Some("Flight booking"), "Searching flights", None,
      Some("Thinking..."), None, 1, None, 2, None))
    ensures log[2] == Update(0, ContentState(Some("Flight booking"), "Found 3 options", None,
      Some("Searching flights"), Some("Thinking..."), 2, None, 3, None))
    ensures log[3] == End(0, ContentState(Some("Flight booking"), "Complete", None,
      Some("Searching flights"), None, 2, Some(3), 3, None), 11)
  {
    var m := new LiveActivityManager(0);
    m.StartActivity("Agent", "Book a flight", None, 0, true, true);
    ghost var d0 := m.dispatched[0];
    assert d0 == Request(ActivityAttributes("Agent", "Book a flight"),
      ContentState(None, "Thinking...", None, None, None, 0, None, 1, None));
    m.UpdateIntent("Searching flights", Some("Flight booking"), None, 1);
    ghost var d1 := m.dispatched[1];
    assert d1 == Update(0, ContentState(Some("Flight booking"), "Searching flights", None,
      Some("Thinking..."), None, 1, None, 2, None));
    m.UpdateIntent("Found 3 options", None, None, 2);
    ghost var d2 := m.dispatched[2];
    assert d2 == Update(0, ContentState(Some("Flight booking"), "Found 3 options", None,
      Some("Searching flights"), Some("Thinking..."), 2, None, 3, None));
    m.EndActivity(3);
    log, open := m.dispatched, OpenSessions(m.dispatched);
    assert log == [d0, d1, d2, log[3]];
  }

  /** Calls that arrive after the end reach nothing: the platform sees no further call. */
  method StaleCallsRun() returns (log: seq<Dispatch>, step: int)
    ensures |log| == 2 && log[0].Request? && log[1].End?
    ensures step == 0
  {
    var m := new LiveActivityManager(0);
    m.StartActivity("Agent", "Book a flight", None, 0, true, true);
    m.EndActivity(1);
    m.UpdateIntent("Stale step", None, Some("$9.99"), 2);
    m.UpdateCost("$9.99");
    log, step := m.dispatched, m.stepNumber;
  }

  /**
   * With activities disabled nothing reaches the platform, yet the tracked
   * fields are reset as for a live run.
   */
  method HeadlessRun() returns (log: seq<Dispatch>, current: string, step: int)
    ensures log == [] && current == "Thinking..." && step == 1
  {
    var m := new LiveActivityManager(0);
    m.StartActivity("Agent", "Book a flight", None, 0, false, true);
    m.UpdateIntent("Searching flights", Some("Flight booking"), Some("$0.10"), 1);
    m.UpdateCost("$0.20");
    log, current, step := m.dispatched, m.currentIntent, m.stepNumber;
  }

  /**
   * Starting again while an activity is live ends the old one before the new
   * request; the replacement's step counter starts again at 1.
   */
  method RestartRun() returns (log: seq<Dispatch>, open: set<nat>)
    ensures |log| == 4
    ensures log[0].Request? && log[1].Update?
    ensures log[2] == End(0, ContentState(None, "Complete", None, Some("Thinking..."), None, 1, Some(2), 2, Some("$0.05")), 10)
    ensures log[3] == Request(ActivityAttributes("Agent", "Second task"),
      ContentState(None, "Thinking...", None, None, None, 2, None, 1, None))
    ensures open == {3}
  {
    var m := new LiveActivityManager(0);
    m.StartActivity("Agent", "First task", None, 0, true, true);
    m.UpdateIntent("Reading files", None, Some("$0.05"), 1);
    m.StartActivity("Agent", "Second task", None, 2, true, true);
    log, open := m.dispatched, OpenSessions(m.dispatched);
  }
}
