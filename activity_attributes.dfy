/**
 * ChowderActivityAttributes: the static context of a Live Activity and the
 * ContentState snapshot that every update carries in full.  Dates are whole
 * seconds on one clock.
 */
module Attributes {
  import opened Optional

  /** Static context set when the activity starts; it never changes. */
  datatype ActivityAttributes = ActivityAttributes(agentName: string, userTask: string)

  /** The dynamic state shown on the Lock Screen; each update replaces it whole. */
  datatype ContentState = ContentState(
    subject: Option<string>,
    currentIntent: string,
    currentIntentIcon: Option<string>,
    previousIntent: Option<string>,
    secondPreviousIntent: Option<string>,
    intentStartDate: int,
    intentEndDate: Option<int>,
    stepNumber: int,
    costTotal: Option<string>)
  {
    /** Finished exactly when an end date has been recorded. */
    predicate IsFinished() {
      intentEndDate.Some?
    }
  }

  // Preview data. `now` stands for the `Date()` each preview reads.

  const Preview: ActivityAttributes := ActivityAttributes("Larry", "I’ll go skiing next weekend.")

  function InProgress(now: int): ContentState {
    ContentState(Some("Train to Margate"), "Searching available trains", None,
      Some("Reading project files"), Some("Identifying dependencies"), now, None, 3, Some("$0.49"))
  }

  function Finished(now: int): ContentState {
    ContentState(Some("Your train to Margate has been booked"), "Complete", None,
      None, None, now, Some(now + 360), 5, Some("$1.23"))
  }

  function Step1(now: int): ContentState {
    ContentState(Some("Train to Margate"), "Searched trains from London to Margate on June 15", None,
      None, None, now, None, 1, None)
  }

  function Step2(now: int): ContentState {
    ContentState(Some("Train to Margate"), "Comparing departure times and prices", None,
      Some("Searched trains from London to Margate on June 15"), None, now, None, 2, Some("$0.12"))
  }

  function Step3(now: int): ContentState {
    ContentState(Some("Train to Margate"), "Found the 10:15 departure—best price!", None,
      Some("Compared departure times and prices"),
      Some("Searched trains from London to Margate on June 15"), now, None, 3, Some("$0.34"))
  }

  function Step4(now: int): ContentState {
    ContentState(Some("Train to Margate"), "Entering passenger details", None,
      Some("Found the 10:15 departure—best price!"),
      Some("Compared departure times and prices"), now, None, 4, Some("$0.56"))
  }

  function Step5(now: int): ContentState {
    ContentState(Some("Train to Margate"), "Confirming booking", None,
      Some("Entering passenger details"),
      Some("Found the 10:15 departure—best price!"), now, None, 5, Some("$0.78"))
  }

  /** The finished preview is finished and says "Complete"; the in-progress one is not finished. */
  lemma PreviewFinishFlags(now: int)
    ensures Finished(now).IsFinished() && Finished(now).currentIntent == "Complete"
    ensures !InProgress(now).IsFinished()
  {
  }

  /** The progressive previews are numbered 1 to 5, none of them finished. */
  lemma PreviewStepNumbers(now: int)
    ensures Step1(now).stepNumber == 1 && Step2(now).stepNumber == 2 && Step3(now).stepNumber == 3
    ensures Step4(now).stepNumber == 4 && Step5(now).stepNumber == 5
    ensures !Step1(now).IsFinished() && !Step2(now).IsFinished() && !Step3(now).IsFinished()
    ensures !Step4(now).IsFinished() && !Step5(now).IsFinished()
  {
  }

  /** The first preview has no cards behind it; the second has only one. */
  lemma PreviewOpeningSlots(now: int)
    ensures Step1(now).previousIntent.None? && Step1(now).secondPreviousIntent.None?
    ensures Step2(now).secondPreviousIntent.None?
  {
  }

  /** The subject stays the same across step1 to step5, as a latched subject would. */
  lemma PreviewSubjectLatched(now: int)
    ensures Step1(now).subject == Some("Train to Margate")
    ensures Step2(now).subject == Step1(now).subject && Step3(now).subject == Step1(now).subject
    ensures Step4(now).subject == Step1(now).subject && Step5(now).subject == Step1(now).subject
  {
  }
}
