/** The wizard's Previous button: the same path lookup as the Next button,
    going back one step unless disabled or on the first or an unknown step. */
module PreviousButton {
  import opened Common
  import NextButton

  /** The Previous button's own copy of the step table. */
  const Steps: seq<string> := [
    "/create-blog",
    "/create-blog/title",
    "/create-blog/intro",
    "/create-blog/outline",
    "/create-blog/image",
    "/create-blog/review"
  ]

  /** Both buttons list the same steps in the same order. */
  lemma SameStepTable()
    ensures Steps == NextButton.Steps
  {
  }

  /** `canGoPrev`. */
  predicate CanGoPrev(index: int) {
    index > 0
  }

  /** `handlePrev`: where the click navigates, if anywhere. */
  function HandlePrev(disabled: bool, pathname: string): (r: Option<string>)
    ensures r.Some? <==> !disabled && CanGoPrev(IndexOf(Steps, NextButton.CleanPath(pathname)))
    ensures r.Some? ==> r.value == Steps[IndexOf(Steps, NextButton.CleanPath(pathname)) - 1]
  {
    var index := IndexOf(Steps, NextButton.CleanPath(pathname));
    if disabled || !CanGoPrev(index) then None else Some(Steps[index - 1])
  }

  /** The first step and paths outside the wizard never go back. */
  lemma PrevNeverLeavesTheWizard(pathname: string)
    ensures NextButton.CleanPath(pathname) !in Steps ==> HandlePrev(false, pathname).None?
    ensures HandlePrev(false, Steps[0]).None?
  {
    NextButton.StepIndex(0);
  }

  /** Previous undoes Next: from any step but the last, going forward and
      then back returns to that step. */
  lemma PrevAfterNext(i: nat)
    requires i + 1 < |Steps|
    ensures NextButton.HandleNext(false, Steps[i]) == Some(Steps[i + 1])
    ensures HandlePrev(false, Steps[i + 1]) == Some(Steps[i])
  {
    SameStepTable();
    NextButton.StepIndex(i);
    NextButton.StepIndex(i + 1);
  }

  /** Next undoes Previous: from any step but the first, going back and
      then forward returns to that step. */
  lemma NextAfterPrev(i: nat)
    requires 0 < i < |Steps|
    ensures HandlePrev(false, Steps[i]) == Some(Steps[i - 1])
    ensures NextButton.HandleNext(false, Steps[i - 1]) == Some(Steps[i])
  {
    SameStepTable();
    NextButton.StepIndex(i);
    NextButton.StepIndex(i - 1);
  }
}
