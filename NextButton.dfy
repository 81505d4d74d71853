/** The wizard's Next button: the current path, without trailing slashes,
    is looked up in the table of step paths, and the button advances to the
    following step unless it is disabled or the path is the last or an
    unknown step. */
module NextButton {
  import opened Common

  /** The wizard's step paths in order. */
  const Steps: seq<string> := [
    "/create-blog",
    "/create-blog/title",
    "/create-blog/intro",
    "/create-blog/outline",
    "/create-blog/image",
    "/create-blog/review"
  ]

  /** `pathname.replace(/\/+$/, "") || "/"`. */
  function CleanPath(pathname: string): (r: string)
    ensures r != [] && (r == "/" || r[|r| - 1] != '/')
    ensures r == "/" || StartsWith(pathname, r)
  {
    var t := TrimEndBy(pathname, IsSlash);
    if t == "" then "/" else t
  }

  /** Trailing slashes do not change the cleaned path. */
  lemma CleanPathIgnoresTrailingSlash(pathname: string)
    ensures CleanPath(pathname + "/") == CleanPath(pathname)
  {
    assert (pathname + "/")[..|pathname|] == pathname;
  }

  /** No path appears twice in the table and none ends in a slash, so
      every step's path finds that step. */
  lemma StepIndex(i: nat)
    requires i < |Steps|
    ensures IndexOf(Steps, Steps[i]) == i
    ensures CleanPath(Steps[i]) == Steps[i]
    ensures IndexOf(Steps, CleanPath(Steps[i])) == i
  {
    var j := IndexOf(Steps, Steps[i]);
    if j < i {
      StepsDistinct(j, i);
    }
    var s := Steps[i];
    assert s[|s| - 1] != '/';
    TrimEndByNoop(s, IsSlash);
  }

  /** The six step paths are pairwise different: by length, or else by
      the letters after `/create-blog/`. */
  lemma StepsDistinct(a: nat, b: nat)
    requires a < b < |Steps|
    ensures Steps[a] != Steps[b]
  {
    if |Steps[a]| == |Steps[b]| {
      assert Steps[a][13] != Steps[b][13] || Steps[a][14] != Steps[b][14];
    }
  }

  /** `canGoNext`. */
  predicate CanGoNext(index: int) {
    index >= 0 && index < |Steps| - 1
  }

  /** `handleNext`: where the click navigates, if anywhere. */
  function HandleNext(disabled: bool, pathname: string): (r: Option<string>)
    ensures r.Some? <==> !disabled && CanGoNext(IndexOf(Steps, CleanPath(pathname)))
    ensures r.Some? ==> r.value == Steps[IndexOf(Steps, CleanPath(pathname)) + 1]
  {
    var index := IndexOf(Steps, CleanPath(pathname));
    if disabled || !CanGoNext(index) then None else Some(Steps[index + 1])
  }

  /** The last step and paths outside the wizard never advance; any other
      step advances to the next one. */
  lemma NextNeverLeavesTheWizard(pathname: string, i: nat)
    requires i < |Steps|
    ensures CleanPath(pathname) !in Steps ==> HandleNext(false, pathname).None?
    ensures HandleNext(false, Steps[|Steps| - 1]).None?
    ensures i + 1 < |Steps| ==> HandleNext(false, Steps[i]) == Some(Steps[i + 1])
    ensures HandleNext(true, Steps[i]).None?
  {
    StepIndex(i);
    StepIndex(|Steps| - 1);
  }
}
