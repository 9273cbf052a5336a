/**
 * The intent stack: the fields the live-activity manager tracks (a
 * three-slot window of intents, the step counter, the intent start date, a
 * latched subject and an overwritten cost) as one value, with the changes
 * the manager makes to them as functions.  The manager updates its fields
 * step by step and is proved to agree with these functions.
 */
module IntentStack {
  import opened Optional
  import opened Attributes

  /** The intent shown in the footer and the two cards stacked behind it. */
  datatype Window = Window(current: string, previous: Option<string>, secondPrevious: Option<string>)

  /** One shift: every intent moves one slot back and `intent` becomes current. */
  function Shifted(w: Window, intent: string): Window
  {
    Window(intent, Some(w.current), w.previous)
  }

  /** The window after shifting in `intents`, oldest first, starting from `w`. */
  function Replay(w: Window, intents: seq<string>): Window
  {
    if intents == [] then w else Shifted(Replay(w, intents[..|intents| - 1]), intents[|intents| - 1])
  }

  /**
   * After at least three shifts the window shows exactly the last three
   * intents shifted in: older ones have fallen off.
   */
  lemma {:induction false} ReplayShowsLastThree(w: Window, intents: seq<string>)
    requires |intents| >= 3
    ensures var n := |intents|;
      Replay(w, intents) == Window(intents[n - 1], Some(intents[n - 2]), Some(intents[n - 3]))
  {
    var n := |intents|;
    var l1, l2 := intents[..n - 1], intents[..n - 2];
    assert l1[..n - 2] == l2 && l1[n - 2] == intents[n - 2];
    assert l2[n - 3] == intents[n - 3];
    assert Replay(w, intents) == Shifted(Replay(w, l1), intents[n - 1]);
    assert Replay(w, l1) == Shifted(Replay(w, l2), intents[n - 2]);
    assert Replay(w, l2).current == intents[n - 3];
  }

  /** With fewer than three shifts, the oldest slots still hold what `w` held. */
  lemma {:induction false} ReplayShort(w: Window, intents: seq<string>)
    requires |intents| < 3
    ensures |intents| == 0 ==> Replay(w, intents) == w
    ensures |intents| == 1 ==> Replay(w, intents) == Window(intents[0], Some(w.current), w.previous)
    ensures |intents| == 2 ==> Replay(w, intents) == Window(intents[1], Some(intents[0]), Some(w.current))
  {
    if |intents| == 2 {
      assert intents[..1][..0] == [] && intents[..1][0] == intents[0];
      assert Replay(w, intents[..1]) == Shifted(w, intents[0]);
    } else if |intents| == 1 {
      assert intents[..0] == [];
    }
  }

  /** First-writer-wins: a subject is taken only while none has been latched. */
  function Latch(latched: Option<string>, hint: Option<string>): (r: Option<string>)
    ensures latched.Some? ==> r == latched
    ensures latched.None? ==> r == hint
  {
    if latched.None? && hint.Some? then hint else latched
  }

  /** The first supplied value in `hints`, oldest first. */
  function FirstSome(hints: seq<Option<string>>): Option<string>
  {
    if hints == [] then None else if hints[0].Some? then hints[0] else FirstSome(hints[1..])
  }

  /** The last supplied value in `hints`, oldest first. */
  function LastSome(hints: seq<Option<string>>): Option<string>
  {
    if hints == [] then None
    else if hints[|hints| - 1].Some? then hints[|hints| - 1]
    else LastSome(hints[..|hints| - 1])
  }

  /** Latching after a history of hints keeps the first supplied subject. */
  lemma {:induction false} LatchAppend(hints: seq<Option<string>>, hint: Option<string>)
    ensures FirstSome(hints + [hint]) == Latch(FirstSome(hints), hint)
  {
    if hints == [] {
      assert [hint][1..] == [];
    } else {
      assert (hints + [hint])[1..] == hints[1..] + [hint];
      LatchAppend(hints[1..], hint);
    }
  }

  /** Once some subject was supplied, later hints never change the first one. */
  lemma {:induction false} FirstSomeStable(hints: seq<Option<string>>, later: seq<Option<string>>)
    requires FirstSome(hints).Some?
    ensures FirstSome(hints + later) == FirstSome(hints)
  {
    assert hints != [];
    if hints[0].None? {
      assert (hints + later)[1..] == hints[1..] + later;
      FirstSomeStable(hints[1..], later);
    }
  }

  // The tracked fields and what each manager operation does to them.

  datatype Stack = Stack(
    currentIntent: string,
    previousIntent: Option<string>,
    secondPreviousIntent: Option<string>,
    stepNumber: int,
    intentStartDate: int,
    subject: Option<string>,
    costTotal: Option<string>)

  function WindowOf(s: Stack): Window {
    Window(s.currentIntent, s.previousIntent, s.secondPreviousIntent)
  }

  /** The placeholder intent a new session shows. */
  const StartIntent: string := "Thinking..."

  /** The fields after `startActivity` at `now`: one placeholder step, nothing else. */
  function Started(now: int): Stack
  {
    Stack(StartIntent, None, None, 1, now, None, None)
  }

  /**
   * `updateIntent`: the window shifts, the step is counted, the start date
   * moves to `now`, the subject latches and a supplied cost overwrites.
   */
  function Shift(s: Stack, intent: string, subject: Option<string>, cost: Option<string>, now: int): Stack
  {
    var w := Shifted(WindowOf(s), intent);
    Stack(w.current, w.previous, w.secondPrevious, s.stepNumber + 1, now,
      Latch(s.subject, subject), if cost.Some? then cost else s.costTotal)
  }

  /** `updateCost`: the cost changes; the window, step, date and subject do not. */
  function OverwriteCost(s: Stack, cost: string): Stack
  {
    s.(costTotal := Some(cost))
  }

  /** The fields after `endActivity`: empty window, step 0, no subject or cost; the date stays. */
  function Cleared(s: Stack): Stack
  {
    Stack("", None, None, 0, s.intentStartDate, None, None)
  }

  /** The snapshot an update carries: the fields as they are, not finished. */
  function Snapshot(s: Stack): ContentState
  {
    ContentState(s.subject, s.currentIntent, None, s.previousIntent, s.secondPreviousIntent,
      s.intentStartDate, None, s.stepNumber, s.costTotal)
  }

  /** The current intent of the final snapshot. */
  const CompleteIntent: string := "Complete"

  /**
   * The snapshot `endActivity` sends at `now`: finished, "Complete", the
   * previous intent kept and the second-previous one dropped.
   */
  function FinalSnapshot(s: Stack, now: int): ContentState
  {
    ContentState(s.subject, CompleteIntent, None, s.previousIntent, None,
      s.intentStartDate, Some(now), s.stepNumber, s.costTotal)
  }

  /**
   * An update snapshot carries every tracked field and is never finished, so
   * two different field sets never send the same update.
   */
  lemma SnapshotKeepsFields(s: Stack, t: Stack)
    ensures !Snapshot(s).IsFinished()
    ensures Snapshot(s) == Snapshot(t) <==> s == t
  {
  }

  /**
   * The final snapshot is the update snapshot of the same fields with three
   * changes: the current intent reads "Complete", the second-previous card
   * is dropped and the end date is set; it is the only finished one.
   */
  lemma FinalSnapshotFromSnapshot(s: Stack, now: int)
    ensures FinalSnapshot(s, now) ==
      Snapshot(s).(currentIntent := CompleteIntent, secondPreviousIntent := None, intentEndDate := Some(now))
    ensures FinalSnapshot(s, now).IsFinished() && FinalSnapshot(s, now).intentEndDate == Some(now)
  {
  }

  /**
   * An intent update that carries a cost is the same intent update without
   * it followed by a cost-only update; a cost-only update is then carried
   * unchanged through intent updates that supply no cost.
   */
  lemma ShiftThenCost(s: Stack, intent: string, subject: Option<string>, cost: string, now: int)
    ensures Shift(s, intent, subject, Some(cost), now) == OverwriteCost(Shift(s, intent, subject, None, now), cost)
    ensures Shift(OverwriteCost(s, cost), intent, subject, None, now) == OverwriteCost(Shift(s, intent, subject, None, now), cost)
  {
  }

  /** Cost-only updates: the last one wins and only the cost changes. */
  lemma CostLastWins(s: Stack, a: string, b: string)
    ensures OverwriteCost(OverwriteCost(s, a), b) == OverwriteCost(s, b)
    ensures OverwriteCost(s, a).(costTotal := s.costTotal) == s
  {
  }

  /**
   * Ending forgets the session: what is left depends only on the intent
   * start date, and ending again changes nothing.
   */
  lemma ClearedForgetsSession(s: Stack, t: Stack)
    requires s.intentStartDate == t.intentStartDate
    ensures Cleared(s) == Cleared(t)
    ensures Cleared(Cleared(s)) == Cleared(s)
    ensures Snapshot(Cleared(s)).stepNumber == 0 && Snapshot(Cleared(s)).subject.None?
  {
  }

  // Sequences of calls within one session.

  /** A call a session receives: an intent update or a cost-only update. */
  datatype Call =
    | IntentCall(intent: string, subject: Option<string>, cost: Option<string>, now: int)
    | CostCall(newCost: string)

  function Apply(s: Stack, c: Call): Stack {
    match c
    case IntentCall(intent, subject, cost, now) => Shift(s, intent, subject, cost, now)
    case CostCall(cost) => OverwriteCost(s, cost)
  }

  /** The fields after `calls`, oldest first. */
  function Run(s: Stack, calls: seq<Call>): Stack {
    if calls == [] then s else Apply(Run(s, calls[..|calls| - 1]), calls[|calls| - 1])
  }

  lemma RunSnoc(s: Stack, calls: seq<Call>, c: Call)
    ensures Run(s, calls + [c]) == Apply(Run(s, calls), c)
  {
    assert (calls + [c])[..|calls|] == calls;
  }

  /** The intents the intent calls supplied, oldest first. */
  function IntentsOf(calls: seq<Call>): seq<string> {
    if calls == [] then []
    else IntentsOf(calls[..|calls| - 1]) + (if calls[|calls| - 1].IntentCall? then [calls[|calls| - 1].intent] else [])
  }

  /** The subject arguments of the intent calls, oldest first. */
  function SubjectsOf(calls: seq<Call>): seq<Option<string>> {
    if calls == [] then []
    else SubjectsOf(calls[..|calls| - 1]) + (if calls[|calls| - 1].IntentCall? then [calls[|calls| - 1].subject] else [])
  }

  /** The cost arguments of all calls, oldest first. */
  function CostsOf(calls: seq<Call>): seq<Option<string>> {
    if calls == [] then []
    else CostsOf(calls[..|calls| - 1]) + [match calls[|calls| - 1] case IntentCall(_, _, c, _) => c case CostCall(c) => Some(c)]
  }

  /**
   * Over any sequence of calls the window is the replay of the intents
   * supplied (cost-only calls leave it alone) and the step counter counts them.
   */
  lemma {:induction false} RunWindow(s: Stack, calls: seq<Call>)
    ensures WindowOf(Run(s, calls)) == Replay(WindowOf(s), IntentsOf(calls))
    ensures Run(s, calls).stepNumber == s.stepNumber + |IntentsOf(calls)|
  {
    if calls != [] {
      var init := calls[..|calls| - 1];
      RunWindow(s, init);
      if calls[|calls| - 1].IntentCall? {
        assert IntentsOf(calls) == IntentsOf(init) + [calls[|calls| - 1].intent];
        assert (IntentsOf(init) + [calls[|calls| - 1].intent])[..|IntentsOf(init)|] == IntentsOf(init);
      } else {
        assert IntentsOf(calls) == IntentsOf(init);
      }
    }
  }

  /** Over any sequence of calls the subject is the first one ever supplied. */
  lemma {:induction false} RunSubject(s: Stack, calls: seq<Call>)
    requires s.subject.None?
    ensures Run(s, calls).subject == FirstSome(SubjectsOf(calls))
  {
    if calls != [] {
      var init := calls[..|calls| - 1];
      RunSubject(s, init);
      if calls[|calls| - 1].IntentCall? {
        assert SubjectsOf(calls) == SubjectsOf(init) + [calls[|calls| - 1].subject];
        LatchAppend(SubjectsOf(init), calls[|calls| - 1].subject);
      } else {
        assert SubjectsOf(calls) == SubjectsOf(init);
      }
    }
  }

  /** Over any sequence of calls the cost is the last one supplied, if any. */
  lemma {:induction false} RunCost(s: Stack, calls: seq<Call>)
    ensures Run(s, calls).costTotal ==
      if LastSome(CostsOf(calls)).Some? then LastSome(CostsOf(calls)) else s.costTotal
  {
    if calls != [] {
      var init := calls[..|calls| - 1];
      RunCost(s, init);
      var c := match calls[|calls| - 1] case IntentCall(_, _, x, _) => x case CostCall(x) => Some(x);
      assert CostsOf(calls) == CostsOf(init) + [c];
      assert (CostsOf(init) + [c])[..|CostsOf(init)|] == CostsOf(init);
    }
  }

  /**
   * In a session with at least three intent updates, the window shows the
   * last three intents supplied; the placeholder has fallen off.
   */
  lemma SessionShowsLastThree(now: int, calls: seq<Call>)
    requires |IntentsOf(calls)| >= 3
    ensures var ints := IntentsOf(calls); var n := |ints|;
      WindowOf(Run(Started(now), calls)) == Window(ints[n - 1], Some(ints[n - 2]), Some(ints[n - 3]))
  {
    RunWindow(Started(now), calls);
    ReplayShowsLastThree(WindowOf(Started(now)), IntentsOf(calls));
  }

  /**
   * A fresh session starts at step 1 with the placeholder intent, no cards
   * behind it and no subject or cost; each intent update counts one step,
   * cost-only updates count none.
   */
  lemma {:induction false} SessionStepNumber(now: int, calls: seq<Call>)
    ensures WindowOf(Started(now)) == Window(StartIntent, None, None)
    ensures Started(now).subject.None? && Started(now).costTotal.None?
    ensures Run(Started(now), calls).stepNumber == 1 + |IntentsOf(calls)|
  {
    RunWindow(Started(now), calls);
  }

  /** Two subjects in a row: the first one stays. */
  lemma SubjectLatchesFirst(now: int, a: string, b: string, i1: string, i2: string)
    ensures Run(Started(now), [IntentCall(i1, Some(a), None, now), IntentCall(i2, Some(b), None, now)]).subject == Some(a)
  {
    var calls := [IntentCall(i1, Some(a), None, now), IntentCall(i2, Some(b), None, now)];
    assert calls[..1] == [calls[0]] && [calls[0]][..0] == [];
    var first := Shift(Started(now), i1, Some(a), None, now);
    assert Run(Started(now), calls[..1]) == first;
    assert Run(Started(now), calls) == Shift(first, i2, Some(b), None, now);
  }

  // The progressive previews against the shift.

  function WindowOfState(c: ContentState): Window {
    Window(c.currentIntent, c.previousIntent, c.secondPreviousIntent)
  }

  /**
   * step2, step4 and step5 are each one intent shift of their predecessor.
   * step3 is not: its previous card reads "Compared ..." where step2 showed
   * "Comparing ...".
   */
  lemma PreviewShifts(now: int)
    ensures WindowOfState(Step2(now)) == Shifted(WindowOfState(Step1(now)), Step2(now).currentIntent)
    ensures WindowOfState(Step4(now)) == Shifted(WindowOfState(Step3(now)), Step4(now).currentIntent)
    ensures WindowOfState(Step5(now)) == Shifted(WindowOfState(Step4(now)), Step5(now).currentIntent)
    ensures WindowOfState(Step3(now)) != Shifted(WindowOfState(Step2(now)), Step3(now).currentIntent)
  {
  }
}
