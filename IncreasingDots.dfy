/** The wizard's progress dots: which step the current path shows, how far
    the stored draft allows the user to go, the redirect that sends a user
    back from a step the draft has not unlocked, and the locked and done
    flags of each dot. */
module IncreasingDots {
  import opened Common
  import NextButton

  datatype Step = Step(caption: string, path: string)

  const Steps: seq<Step> := [
    Step("Details of Blog", "/create-blog"),
    Step("Blog Title", "/create-blog/title"),
    Step("Introduction", "/create-blog/intro"),
    Step("Outlined", "/create-blog/outline"),
    Step("Image", "/create-blog/image"),
    Step("Verify Content", "/create-blog/review")
  ]

  function Paths(): seq<string> {
    seq(|Steps|, i requires 0 <= i < |Steps| => Steps[i].path)
  }

  /** The dots and the Next and Previous buttons list the same step paths. */
  lemma SameStepsAsButtons()
    ensures Paths() == NextButton.Steps
  {
  }

  const GeneratedPrefix := "/create-blog/generated"

  /** `selectedIndex`: the generated page counts as the last step, a step
      path as its own index, anything else as the first step. */
  function SelectedIndex(pathname: string): (r: nat)
    ensures r < |Steps|
    ensures StartsWith(NextButton.CleanPath(pathname), GeneratedPrefix) ==> r == |Steps| - 1
    ensures !StartsWith(NextButton.CleanPath(pathname), GeneratedPrefix) ==>
              (NextButton.CleanPath(pathname) in Paths() ==> Paths()[r] == NextButton.CleanPath(pathname))
              && (NextButton.CleanPath(pathname) !in Paths() ==> r == 0)
  {
    var clean := NextButton.CleanPath(pathname);
    if StartsWith(clean, GeneratedPrefix) then |Steps| - 1
    else
      var idx := IndexOf(Paths(), clean);
      if idx >= 0 then idx else 0
  }

  // ------------------------------------------------ how far the draft reaches

  function Fields(draft: Json): map<string, Json> {
    if draft.JObj? then draft.fields else map[]
  }

  /** Whether the draft has finished step `k` (0 to 4). */
  predicate StepDone(draft: Json, k: nat)
    requires k < 5
  {
    var d := Fields(draft);
    if k == 0 then JsTrim(TextOr(d, "selected_idea", "focus_or_niche")) != ""
    else if k == 1 then JsTrim(TextAt(d, "title")) != ""
    else if k == 2 then JsTrim(TextAt(d, "intro_md")) != ""
    else if k == 3 then "outline" in d && d["outline"].JArr? && |d["outline"].items| > 0
    else JsTrim(TextAt(d, "cover_image_url")) != ""
  }

  /** `maxIndex`. */
  function MaxIndex(draft: Json): (r: nat)
    ensures r <= 5
  {
    if !StepDone(draft, 0) then 0
    else if !StepDone(draft, 1) then 1
    else if !StepDone(draft, 2) then 2
    else if !StepDone(draft, 3) then 3
    else if !StepDone(draft, 4) then 4
    else 5
  }

  /** The reachable index is the first unfinished step, or the last step
      when all five are finished; an unfinished step bounds it whatever the
      later steps hold. */
  lemma MaxIndexIsFirstUnfinished(draft: Json, k: nat)
    requires k < 5
    ensures forall j :: 0 <= j < MaxIndex(draft) ==> StepDone(draft, j)
    ensures MaxIndex(draft) < 5 ==> !StepDone(draft, MaxIndex(draft))
    ensures !StepDone(draft, k) ==> MaxIndex(draft) <= k
  {
    var m := MaxIndex(draft);
    forall j | 0 <= j < m
      ensures StepDone(draft, j)
    {
      if j == 0 {
      } else if j == 1 {
        assert StepDone(draft, 0);
      } else if j == 2 {
        assert StepDone(draft, 0) && StepDone(draft, 1);
      } else if j == 3 {
        assert StepDone(draft, 0) && StepDone(draft, 1) && StepDone(draft, 2);
      } else {
        assert StepDone(draft, 0) && StepDone(draft, 1) && StepDone(draft, 2) && StepDone(draft, 3);
      }
    }
  }

  /** Where the page sends the user on arrival, if anywhere. */
  function Redirect(pathname: string, draft: Json): (r: Option<string>)
    ensures r.Some? <==> !StartsWith(pathname, GeneratedPrefix) && SelectedIndex(pathname) > MaxIndex(draft)
  {
    if StartsWith(pathname, GeneratedPrefix) then None
    else if SelectedIndex(pathname) > MaxIndex(draft) then Some(Steps[MaxIndex(draft)].path)
    else None
  }

  /** Each step's own path selects that step and is not the generated page. */
  lemma StepSelected(i: nat)
    requires i < |Steps|
    ensures SelectedIndex(Steps[i].path) == i
    ensures !StartsWith(Steps[i].path, GeneratedPrefix)
  {
    SameStepsAsButtons();
    NextButton.StepIndex(i);
    assert Steps[i].path == NextButton.Steps[i];
  }

  /** A redirect lands on the furthest step the draft allows, and arriving
      there redirects no further. */
  lemma RedirectSettles(pathname: string, draft: Json)
    requires Redirect(pathname, draft).Some?
    ensures var target := Redirect(pathname, draft).value;
            SelectedIndex(target) == MaxIndex(draft) && Redirect(target, draft).None?
  {
    StepSelected(MaxIndex(draft));
  }

  /** A dot the draft has not reached. */
  predicate Locked(idx: nat, draft: Json) {
    idx > MaxIndex(draft)
  }

  /** A dot at or before the current step. */
  predicate Done(idx: nat, pathname: string) {
    idx <= SelectedIndex(pathname)
  }

  /** A click on dot `idx`: locked dots do nothing. */
  function ClickDot(idx: nat, draft: Json): (r: Option<string>)
    requires idx < |Steps|
    ensures r.Some? <==> !Locked(idx, draft)
    ensures r.Some? ==> r.value == Paths()[idx]
  {
    if Locked(idx, draft) then None else Some(Steps[idx].path)
  }

  /** Clicking a dot never lands on a page that redirects. */
  lemma ClickNeverRedirects(idx: nat, draft: Json)
    requires idx < |Steps| && ClickDot(idx, draft).Some?
    ensures Redirect(ClickDot(idx, draft).value, draft).None?
  {
    StepSelected(idx);
  }
}
