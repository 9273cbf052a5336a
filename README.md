# Chowder live-activity core in Dafny

Chowder is an iOS chat client for an AI agent. While the agent works, the app
mirrors its progress on a Live Activity on the Lock Screen: a three-slot
"intent stack" (the current intent in the footer, the previous two as stacked
cards), a step counter, a subject line latched from the first summary, and a
running cost. This project models that core and proves what it does:

- `LiveActivity` (live_activity_manager.dfy): the `LiveActivityManager` class.
  It has the same tracked fields as the Swift class. Its methods
  `StartActivity`, `UpdateIntent`, `UpdateCost` and `EndActivity` update those
  fields step by step, as the Swift code does. The platform (ActivityKit) is
  modelled by `dispatched`, the list of calls the manager has made to it:
  `Request` (creates an activity), `Update` and `End` (with its dismissal
  date). Each method's contract ties the new fields to a function of the old
  ones (`Started`, `Shift`, `OverwriteCost`, `Cleared`). It also ties the new
  dispatch log to the old one plus the snapshot sent (`Snapshot`,
  `FinalSnapshot`). The invariant `Valid` says four things:
  - the platform holds exactly the current activity open, or nothing;
  - with no activity open, no subject is latched;
  - while an activity is live, the fields are the replay (`Run`) of the calls
    since its start;
  - the last snapshot sent shows those fields.

  The module also holds the task-line truncation and four concrete runs.
- `IntentStack` (intent_stack.dfy): those field changes as pure functions on a
  `Stack` value, together with the session-level lemmas. Over any sequence of
  calls:
  - the window shows the last three intents;
  - the step counter counts the intent calls;
  - the subject is the first one supplied;
  - the cost is the last one supplied.

  It also checks the preview states against one intent shift.
- `Attributes` (activity_attributes.dfy): `ActivityAttributes`, the
  `ContentState` snapshot with its derived `IsFinished`, and the preview states.
- `Activity` (agent_activity.dfy): `ActivityStep`, with its elapsed time, and
  the `AgentActivity` class. That class has `CompletedSteps` and
  `FinishCurrentSteps`, an in-place loop proved against `FinishedAll`.
- `StepRow` (activity_step_row.dfy): the row's icon name and colour, and the
  elapsed text "Ns" / "Mm Ss". A reader for that text is proved to invert it,
  so different durations never show the same text.
- `Optional` (optional.dfy): the `Option` type.

Inputs the Swift code takes from its environment become parameters:
- the clock (`Date()`) is an integer `now` in whole seconds;
- whether Live Activities are enabled is the Boolean `enabled`;
- whether `Activity.request` succeeds is the Boolean `requestSucceeds`;
- a step's UUID is a natural-number `id`.

An activity is identified by the position of its `Request` in the dispatch
log.

Details of the code that the model keeps:
- `endActivity` resets the window, the step counter, the subject and the cost,
  and leaves `intentStartDate` as it was
  (Chowder/Chowder/Services/LiveActivityManager.swift:166-171).
- The final snapshot reads "Complete", keeps the previous intent and sets the
  second-previous intent to nil (line 153).
- Start, two intent updates and an end make four platform calls, and the
  final snapshot carries step number 3 (`FlightBookingRun`).
- A request the platform refuses leaves no activity and no entry in
  `dispatched`, which records only the calls that took effect.

## Model

| member | source | states |
|---|---|---|
| Attributes.PreviewFinishFlags | Chowder/Chowder/Models/ChowderActivityAttributes.swift:50-73 | the `finished` preview is finished and reads "Complete"; the `inProgress` preview is not finished |
| Attributes.PreviewStepNumbers | Chowder/Chowder/Models/ChowderActivityAttributes.swift:77-135 | previews step1 to step5 carry step numbers 1 to 5 and none is finished |
| Attributes.PreviewOpeningSlots | Chowder/Chowder/Models/ChowderActivityAttributes.swift:77-99 | step1 has no previous or second-previous intent; step2 has no second-previous intent |
| Attributes.PreviewSubjectLatched | Chowder/Chowder/Models/ChowderActivityAttributes.swift:77-135 | the subject is "Train to Margate" in all five progressive previews |
| IntentStack.PreviewShifts | Chowder/Chowder/Models/ChowderActivityAttributes.swift:89-134 | step2, step4 and step5 are exactly one intent shift of their predecessor; step3 is not one of step2 ("Compared" against "Comparing") |
| IntentStack.ReplayShowsLastThree | Chowder/Chowder/Services/LiveActivityManager.swift:86-88 | after three or more shifts the window holds exactly the last three intents, newest first |
| IntentStack.ReplayShort | Chowder/Chowder/Services/LiveActivityManager.swift:86-88 | after zero, one or two shifts the window still holds the starting intents in the slots not yet overwritten |
| IntentStack.Latch | Chowder/Chowder/Services/LiveActivityManager.swift:93-95 | a latched subject is kept; while none is latched, the supplied one (or none) is taken |
| IntentStack.LatchAppend | Chowder/Chowder/Services/LiveActivityManager.swift:93-95 | latching one more hint after a history of hints gives the first subject ever supplied |
| IntentStack.FirstSomeStable | Chowder/Chowder/Services/LiveActivityManager.swift:93-95 | once a subject has been supplied, no later hints change it |
| IntentStack.RunWindow | Chowder/Chowder/Services/LiveActivityManager.swift:82-142 | over any calls the window is the replay of the intents supplied, with cost-only calls leaving it alone, and the step counter goes up once per intent |
| IntentStack.RunSubject | Chowder/Chowder/Services/LiveActivityManager.swift:93-95 | from a session with no subject, any calls leave the first subject supplied |
| IntentStack.RunCost | Chowder/Chowder/Services/LiveActivityManager.swift:98-124 | over any calls the cost is the last one supplied by either kind of update, or the starting cost if none was |
| IntentStack.SessionShowsLastThree | Chowder/Chowder/Services/LiveActivityManager.swift:86-90 | in a session with three or more intent updates the window shows the last three and "Thinking..." has fallen off |
| IntentStack.SubjectLatchesFirst | Chowder/Chowder/Services/LiveActivityManager.swift:93-95 | two updates with different subjects leave the first one |
| IntentStack.SessionStepNumber | Chowder/Chowder/Services/LiveActivityManager.swift:31-37 | a fresh session shows "Thinking..." with no cards behind it, no subject and no cost, and its step number is one more than the intent updates it has received |
| IntentStack.SnapshotKeepsFields | Chowder/Chowder/Services/LiveActivityManager.swift:102-111 | an update snapshot is never finished, and two snapshots are equal exactly when the tracked fields are |
| IntentStack.FinalSnapshotFromSnapshot | Chowder/Chowder/Services/LiveActivityManager.swift:149-158 | the final snapshot is the update snapshot of the same fields with "Complete" as current intent, no second-previous intent and end date `now`, and it is finished |
| IntentStack.ShiftThenCost | Chowder/Chowder/Services/LiveActivityManager.swift:82-124 | an intent update with a cost equals the same update without one followed by a cost-only update, and a cost-only update passes unchanged through later cost-less intent updates |
| IntentStack.CostLastWins | Chowder/Chowder/Services/LiveActivityManager.swift:121-124 | of two cost-only updates the last wins, and a cost-only update changes nothing but the cost |
| IntentStack.ClearedForgetsSession | Chowder/Chowder/Services/LiveActivityManager.swift:166-171 | after an end the fields depend on nothing but the intent start date, a second end changes nothing, and the cleared fields have step 0 and no subject |
| LiveActivity.TruncatedTask | Chowder/Chowder/Services/LiveActivityManager.swift:44-46 | the task line is at most 60 long; up to 60 it is unchanged; beyond, it is the first 57 characters then "..." |
| LiveActivity.RequestKeepsConsistent | Chowder/Chowder/Services/LiveActivityManager.swift:52-74 | with nothing open, a request for the initial snapshot leaves exactly the new activity open, showing the new session |
| LiveActivity.UpdateKeepsConsistent | Chowder/Chowder/Services/LiveActivityManager.swift:102-116 | an update on the live activity keeps it the only open one and the fields the replay of the calls, and its snapshot shows them |
| LiveActivity.EndKeepsConsistent | Chowder/Chowder/Services/LiveActivityManager.swift:146-174 | ending the live activity leaves no activity open |
| LiveActivity.LiveActivityManager.constructor | Chowder/Chowder/Services/LiveActivityManager.swift:9-19 | no activity, empty window, step 0, nothing sent |
| LiveActivity.LiveActivityManager.ResetTracking | Chowder/Chowder/Services/LiveActivityManager.swift:31-37 | the fields become `Started(now)` |
| LiveActivity.LiveActivityManager.ShiftIntent | Chowder/Chowder/Services/LiveActivityManager.swift:86-100 | the fields become `Shift` of the old fields |
| LiveActivity.LiveActivityManager.ClearTracking | Chowder/Chowder/Services/LiveActivityManager.swift:166-171 | the fields become `Cleared` of the old fields |
| LiveActivity.LiveActivityManager.EndIfLive | Chowder/Chowder/Services/LiveActivityManager.swift:26-28 | a live activity is ended, with its final call appended and the fields `Cleared`; without one nothing is sent and nothing changes; afterwards no activity is live |
| LiveActivity.LiveActivityManager.RequestActivity | Chowder/Chowder/Services/LiveActivityManager.swift:48-74 | a granted request records the request with the fresh session snapshot and makes it the live activity, at the next log position; a refused one changes nothing |
| LiveActivity.LiveActivityManager.StartActivity | Chowder/Chowder/Services/LiveActivityManager.swift:25-75 | a live activity is ended first; the fields are reset even when activities are disabled; when enabled and the platform grants the request, the request with the truncated task and the initial snapshot is recorded and becomes the live activity; a disabled start or a refused request records nothing further and leaves no activity live |
| LiveActivity.LiveActivityManager.UpdateIntent | Chowder/Chowder/Services/LiveActivityManager.swift:82-117 | without a live activity nothing changes; otherwise the fields become `Shift` of the old ones and one update with their snapshot is sent |
| LiveActivity.LiveActivityManager.UpdateCost | Chowder/Chowder/Services/LiveActivityManager.swift:121-142 | without a live activity nothing changes; otherwise only the cost changes and one update with the snapshot is sent |
| LiveActivity.LiveActivityManager.EndActivity | Chowder/Chowder/Services/LiveActivityManager.swift:145-177 | without a live activity nothing changes; otherwise the activity is cleared, the final snapshot is sent with dismissal at `now + 8`, and the fields are `Cleared` |
| LiveActivity.LiveActivityManager.AtMostOneOpenSession | Chowder/Chowder/Services/LiveActivityManager.swift:25-28 | the platform never holds more than one open activity, and none exactly when the manager has none |
| LiveActivity.LiveActivityManager.IdleHasNoSubject | Chowder/Chowder/Services/LiveActivityManager.swift:36 | without a live activity no subject is latched, so a start clears nothing an end left behind |
| LiveActivity.LiveActivityManager.SessionHistory | Chowder/Chowder/Services/LiveActivityManager.swift:82-142 | while live, the step is one more than the intent updates, the window shows the last three intents, the subject is the first supplied and the cost the last supplied |
| LiveActivity.FlightBookingRun | Chowder/Chowder/Services/LiveActivityManager.swift:25-177 | start, two intent updates and an end send exactly four calls with these snapshots and leave nothing open |
| LiveActivity.StaleCallsRun | Chowder/Chowder/Services/LiveActivityManager.swift:82-142 | intent and cost updates after the end send nothing, and the step counter stays 0 |
| LiveActivity.HeadlessRun | Chowder/Chowder/Services/LiveActivityManager.swift:31-42 | with activities disabled nothing is sent, yet the fields are reset to "Thinking..." and step 1, and later updates change nothing |
| LiveActivity.RestartRun | Chowder/Chowder/Services/LiveActivityManager.swift:25-37 | starting again while live ends the old activity, with its final snapshot, before requesting the new one, and the new one alone is open |
| Activity.NewStepLifecycle | Chowder/Chowder/Models/AgentActivity.swift:4-32 | a new step starts in progress with no completion date, its elapsed time runs from its creation date, and once finished at `done` it stays at `done` minus the creation date |
| Activity.ElapsedFrozenOnceCompleted | Chowder/Chowder/Models/AgentActivity.swift:27-30 | with a completion date, elapsed is completion minus start, whatever the clock |
| Activity.ElapsedGrowsWhileRunning | Chowder/Chowder/Models/AgentActivity.swift:27-32 | without one, elapsed grows second for second with the clock |
| Activity.CompletedOf | Chowder/Chowder/Models/AgentActivity.swift:48-50 | the result holds only completed steps of the list, and every completed step of the list |
| Activity.CompletedOfConcat | Chowder/Chowder/Models/AgentActivity.swift:48-50 | filtering distributes over concatenation, so the original order is kept |
| Activity.FinishedAllSpec | Chowder/Chowder/Models/AgentActivity.swift:53-58 | every in-progress step becomes completed at `now`; completed and failed steps are untouched; length, order, ids, dates, types, labels and details are kept; none is left in progress |
| Activity.FinishedAllIdempotent | Chowder/Chowder/Models/AgentActivity.swift:53-59 | a second finish, at any time, changes nothing |
| Activity.FinishFreezesElapsed | Chowder/Chowder/Models/AgentActivity.swift:55-57 | a step finished at `now` keeps the elapsed time it had at `now` |
| Activity.FinishedAllCompletedSteps | Chowder/Chowder/Models/AgentActivity.swift:48-58 | after finishing, every step that was not failed is among the completed steps |
| Activity.AgentActivity.constructor | Chowder/Chowder/Models/AgentActivity.swift:37-45 | empty label, thinking text and steps |
| Activity.AgentActivity.FinishCurrentSteps | Chowder/Chowder/Models/AgentActivity.swift:53-59 | the steps become `FinishedAll` of the old steps; label and thinking text are unchanged |
| StepRow.ThinkingIcon | Chowder/Chowder/Views/ActivityStepRow.swift:36-51 | a thinking step shows "brain.head.profile" in purple whatever its status |
| StepRow.ToolCallIcon | Chowder/Chowder/Views/ActivityStepRow.swift:40-57 | a tool call shows "checkmark.circle"/green, "xmark.circle"/red or "circle.dotted"/blue for completed, failed and in progress |
| StepRow.IconDeterminesColor | Chowder/Chowder/Views/ActivityStepRow.swift:36-59 | two rows have the same icon exactly when they have the same colour |
| StepRow.ToolCallIconRevealsStatus | Chowder/Chowder/Views/ActivityStepRow.swift:40-57 | for a tool call, the icon and the colour each determine the status |
| StepRow.NatToString | Chowder/Chowder/Views/ActivityStepRow.swift:65-69 | an interpolated count is a non-empty string of decimal digits that reads back as the count, with no leading zero except for 0 itself |
| StepRow.MinutesAndSeconds | Chowder/Chowder/Views/ActivityStepRow.swift:67-68 | from a minute on: at least one minute, fewer than 60 seconds left, and minutes times 60 plus seconds is the input |
| StepRow.FormattedElapsedRoundTrip | Chowder/Chowder/Views/ActivityStepRow.swift:62-70 | reading the row text back gives the duration, for negative, sub-minute and longer durations alike |
| StepRow.FormattedElapsedInjective | Chowder/Chowder/Views/ActivityStepRow.swift:62-70 | different durations never show the same text |
| StepRow.FormattedElapsedShape | Chowder/Chowder/Views/ActivityStepRow.swift:62-70 | the text has an "m" exactly when the duration is a minute or more; shorter durations are the interpolated number followed by "s" |
| StepRow.CompletedRowTextStable | Chowder/Chowder/Views/ActivityStepRow.swift:62-63 | a completed step's row shows the same text at any time |

## Left out

- ActivityKit is not modelled. `Activity.request`, `update` and `end` are appends to the dispatch log, and the `Task { await … }` dispatch is taken as immediate and in order. So is the cost-only task, which in the source re-reads `currentActivity` when it runs.
- `ActivityAuthorizationInfo().areActivitiesEnabled` and a failing `Activity.request` are the Boolean inputs `enabled` and `requestSucceeds`. The error text and the console messages are not modelled.
- The fields `lastState`, `lastIntentText`, `latchedSubject` and `subjectIsFromAI` are assigned in the manager but declared nowhere in it, so they are not modelled.
- The `shared` singleton and the private initializer are not modelled. Each run builds its own manager.
- `observePushToStartToken` and `observeActivityUpdates` are not part of this model: they are long-lived asynchronous streams that the shown manager does not define.
- The Lock Screen widget, the bottom sheets, the on-device summary service, avatar storage and app wiring are views, layout, file I/O and foreign model calls, so they are not part of this model.
- `Date` and `TimeInterval` are floating point; the model uses whole seconds throughout.
- StepRow.FormattedElapsed: takes the whole seconds directly; the `Int(step.elapsed)` truncation of a fractional interval is not modelled.
- LiveActivity.TruncatedTask: counts Dafny characters, whereas Swift's `count` and `prefix` count grapheme clusters. The two agree on text in which every grapheme cluster is a single Unicode scalar.
- LiveActivity.LiveActivityManager.ShiftIntent: the step counter is an unbounded integer; Swift's trap on `Int` overflow is not modelled.
- Activity.CompletedOf: its own contract states membership both ways but not order. Order is stated by CompletedOfConcat.
- `ActivityStep.id` (a fresh UUID) and `timestamp` (`Date()` at creation) are constructor arguments; `status` and `completedAt` default to in progress and none, as in the Swift initializer.
- A failed `Activity.request` is not recorded in `dispatched`: the log holds only the calls that took effect, so the model cannot tell a refused start from a disabled one.
- The manager passes `isFinished:` when it builds a `ContentState`, while the declared `ContentState` derives `isFinished` from `intentEndDate`. This is a modelling choice: the model keeps the derivation, gives the final snapshot `intentEndDate = now` and every other snapshot none, so the Boolean passed and the one derived agree.
- In `startActivity`, the bare `subject = nil` (Chowder/Chowder/Services/LiveActivityManager.swift:36) names the method's own `subject` parameter, which Swift does not let one assign. The model reads it as clearing the manager's subject, and never uses the argument. `LiveActivity.IdleHasNoSubject` shows that without a live activity the manager's subject is already nil, so both readings leave the same state whenever a start follows an end.
- `currentIntentIcon` is part of `ContentState` but the manager never sets it, so every modelled snapshot has none.
