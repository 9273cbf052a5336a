/**
 * AgentActivity: the ordered record of steps (thinking and tool calls) the
 * agent performs during one turn.  Dates are whole seconds.
 */
module Activity {
  import opened Optional

  datatype StepType = Thinking | ToolCall

  datatype Status = InProgress | Completed | Failed

  /**
   * One step of a turn; `labelText` is the short line, `detail` the long
   * text.  A step is created in progress with no completion date: those two
   * fields default, as in the memberwise initializer.
   */
  datatype ActivityStep = ActivityStep(
    id: nat,
    timestamp: int,
    kind: StepType,
    labelText: string,
    detail: string,
    status: Status := InProgress,
    completedAt: Option<int> := None)

  /** Seconds from the step's start to its completion, or to `now` while it has none. */
  function Elapsed(s: ActivityStep, now: int): int
  {
    match s.completedAt
    case Some(done) => done - s.timestamp
    case None => now - s.timestamp
  }

  /**
   * A step created at `now` is in progress with its clock running from
   * `now`; finishing it at `done` stops the clock at `done - now`.
   */
  lemma NewStepLifecycle(id: nat, now: int, kind: StepType, labelText: string, detail: string,
                         done: int, later: int)
    ensures var s := ActivityStep(id, now, kind, labelText, detail);
      && s.status == InProgress && s.completedAt.None?
      && Elapsed(s, later) == later - now
      && Finish(s, done).status == Completed
      && Elapsed(Finish(s, done), later) == done - now
  {
  }

  /** Once a completion date is set, the elapsed time no longer depends on the clock. */
  lemma ElapsedFrozenOnceCompleted(s: ActivityStep, now1: int, now2: int)
    requires s.completedAt.Some?
    ensures Elapsed(s, now1) == Elapsed(s, now2) == s.completedAt.value - s.timestamp
  {
  }

  /** Without a completion date the elapsed time grows with the clock, second for second. */
  lemma ElapsedGrowsWhileRunning(s: ActivityStep, now1: int, now2: int)
    requires s.completedAt.None? && now1 <= now2
    ensures Elapsed(s, now1) <= Elapsed(s, now2)
    ensures Elapsed(s, now2) - Elapsed(s, now1) == now2 - now1
  {
  }

  // completedSteps

  /** The steps whose status is `Completed`, in their original order. */
  function CompletedOf(steps: seq<ActivityStep>): (r: seq<ActivityStep>)
    ensures |r| <= |steps|
    ensures forall k :: 0 <= k < |r| ==> r[k].status == Completed && r[k] in steps
    ensures forall i :: 0 <= i < |steps| && steps[i].status == Completed ==> steps[i] in r
  {
    if steps == [] then []
    else (if steps[0].status == Completed then [steps[0]] else []) + CompletedOf(steps[1..])
  }

  /** Filtering distributes over concatenation, so the original order is kept. */
  lemma {:induction false} CompletedOfConcat(a: seq<ActivityStep>, b: seq<ActivityStep>)
    ensures CompletedOf(a + b) == CompletedOf(a) + CompletedOf(b)
  {
    if a == [] {
      assert a + b == b;
    } else {
      assert (a + b)[0] == a[0];
      assert (a + b)[1..] == a[1..] + b;
      CompletedOfConcat(a[1..], b);
    }
  }

  // finishCurrentSteps

  /** One step as `finishCurrentSteps` leaves it. */
  function Finish(s: ActivityStep, now: int): ActivityStep
  {
    if s.status == InProgress then s.(status := Completed, completedAt := Some(now)) else s
  }

  /** Every step as `finishCurrentSteps(now)` leaves it. */
  function FinishedAll(steps: seq<ActivityStep>, now: int): seq<ActivityStep>
  {
    seq(|steps|, i requires 0 <= i < |steps| => Finish(steps[i], now))
  }

  /** Two steps that differ at most in their status and completion date. */
  predicate SameStep(a: ActivityStep, b: ActivityStep)
  {
    a.id == b.id && a.timestamp == b.timestamp && a.kind == b.kind
    && a.labelText == b.labelText && a.detail == b.detail
  }

  /**
   * Finishing completes every in-progress step with the one date `now`,
   * leaves completed and failed steps exactly as they were, keeps the
   * length and order, and changes nothing but status and completion date.
   */
  lemma FinishedAllSpec(steps: seq<ActivityStep>, now: int)
    ensures var r := FinishedAll(steps, now);
      && |r| == |steps|
      && (forall i :: 0 <= i < |r| ==> SameStep(r[i], steps[i]) && r[i].status != InProgress)
      && (forall i :: 0 <= i < |r| && steps[i].status == InProgress ==>
            r[i].status == Completed && r[i].completedAt == Some(now))
      && (forall i :: 0 <= i < |r| && steps[i].status != InProgress ==> r[i] == steps[i])
  {
  }

  /** A second finish, at any date, changes nothing. */
  lemma FinishedAllIdempotent(steps: seq<ActivityStep>, now1: int, now2: int)
    ensures FinishedAll(FinishedAll(steps, now1), now2) == FinishedAll(steps, now1)
  {
  }

  /** Finishing an in-progress step freezes its elapsed time at the value it had at `now`. */
  lemma FinishFreezesElapsed(s: ActivityStep, now: int, later: int)
    requires s.status == InProgress && s.completedAt.None?
    ensures Elapsed(Finish(s, now), later) == Elapsed(s, now)
  {
  }

  /** After finishing, every step that was in progress or completed is among the completed steps. */
  lemma FinishedAllCompletedSteps(steps: seq<ActivityStep>, now: int)
    ensures var r := FinishedAll(steps, now);
      forall i :: 0 <= i < |r| && steps[i].status != Failed ==> r[i] in CompletedOf(r)
  {
  }

  /** All activity of one agent turn; ephemeral, never persisted. */
  class AgentActivity {
    /** The label currently shown on the shimmer line. */
    var currentLabel: string
    /** Accumulated thinking text of the turn. */
    var thinkingText: string
    /** Ordered history of all steps. */
    var steps: seq<ActivityStep>

    constructor ()
      ensures currentLabel == "" && thinkingText == "" && steps == []
    {
      currentLabel := "";
      thinkingText := "";
      steps := [];
    }

    /** The finished steps, for inline rendering in the chat. */
    function CompletedSteps(): seq<ActivityStep>
      reads this
    {
      CompletedOf(steps)
    }

    /** Marks every in-progress step completed at `now`, in place. */
    method FinishCurrentSteps(now: int)
      modifies this
      ensures steps == FinishedAll(old(steps), now)
      ensures currentLabel == old(currentLabel) && thinkingText == old(thinkingText)
    {
      var i := 0;
      while i < |steps|
        invariant 0 <= i <= |steps| == |old(steps)|
        invariant forall k :: 0 <= k < i ==> steps[k] == Finish(old(steps)[k], now)
        invariant forall k :: i <= k < |steps| ==> steps[k] == old(steps)[k]
        invariant currentLabel == old(currentLabel) && thinkingText == old(thinkingText)
      {
        if steps[i].status == InProgress {
          steps := steps[i := steps[i].(status := Completed)];
          steps := steps[i := steps[i].(completedAt := Some(now))];
        }
        i := i + 1;
      }
    }
  }
}
