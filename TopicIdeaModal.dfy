/** The blog topic idea generator dialog: a focus and a number of ideas are
    asked for, the generator's answer replaces the listed ideas, one idea
    is picked, and "Done" hands the picked idea back and closes. */
module TopicIdeaModal {
  import opened Common

  const UnavailableMessage := "Idea generator is not available."
  const NoIdeasMessage := "No ideas returned from AI."
  const FailedMessage := "Failed to generate ideas."

  /** The count options the select offers besides the empty placeholder. */
  const CountOptions: seq<string> := ["3", "5", "10"]

  predicate AllDigits(s: string) {
    forall i :: 0 <= i < |s| ==> '0' <= s[i] <= '9'
  }

  /** `Number(count) || 5`: a decimal count other than zero, else 5. */
  function RequestedCount(count: string): (r: nat)
    ensures r >= 1
    ensures count != "" && AllDigits(count) && DecimalValue(count) != 0 ==> r == DecimalValue(count)
    ensures count == "" || !AllDigits(count) || DecimalValue(count) == 0 ==> r == 5
  {
    if count != "" && AllDigits(count) && DecimalValue(count) != 0 then DecimalValue(count) else 5
  }

  /** Each count the select offers asks for that many ideas. */
  lemma OfferedCounts()
    ensures RequestedCount("3") == 3 && RequestedCount("5") == 5 && RequestedCount("10") == 10
    ensures RequestedCount("") == 5
  {
    assert DecimalValue("1") == 1;
    assert "10"[..1] == "1";
    assert DecimalValue("10") == 10;
  }

  /** `ideas[selectedIdx] ?? ""`. */
  function Picked(ideas: seq<Json>, idx: nat): (r: Json)
    ensures idx < |ideas| && ideas[idx] != JNull ==> r == ideas[idx]
    ensures idx >= |ideas| || ideas[idx] == JNull ==> r == JStr("")
  {
    if idx < |ideas| && ideas[idx] != JNull then ideas[idx] else JStr("")
  }

  /** The request `handleGenerate` sends: the trimmed focus and the count,
      when there is a generator to send it to. */
  function RequestFor(focus: string, count: string, generator: Option<Result<Json, string>>): (r: Option<(string, nat)>)
    ensures r.Some? <==> generator.Some?
    ensures r.Some? ==> r.value.0 == JsTrim(focus) && r.value.1 == RequestedCount(count) && r.value.1 >= 1
  {
    if generator.Some? then Some((JsTrim(focus), RequestedCount(count))) else None
  }

  /** The ideas, selection and error after an allowed generation: a
      non-empty list of ideas replaces the old ones and selects the first;
      a missing generator, a failure or an empty or non-list answer keeps
      them and explains why. */
  function Outcome(ideas: seq<Json>, idx: nat, generator: Option<Result<Json, string>>): (r: (seq<Json>, nat, string))
    ensures r.2 == "" <==> generator.Some? && generator.value.Ok? && generator.value.value.JArr? && generator.value.value.items != []
    ensures r.2 == "" ==> r.0 == generator.value.value.items && r.1 == 0 && r.0 != []
    ensures r.2 != "" ==> r.0 == ideas && r.1 == idx
    ensures generator.None? ==> r.2 == UnavailableMessage
    ensures generator.Some? && generator.value.Err? ==> r.2 == MessageOr(generator.value.error, FailedMessage)
    ensures generator.Some? && generator.value.Ok? && r.2 != "" ==> r.2 == NoIdeasMessage
  {
    match generator
    case None => (ideas, idx, UnavailableMessage)
    case Some(Err(message)) => (ideas, idx, MessageOr(message, FailedMessage))
    case Some(Ok(generated)) =>
      if generated.JArr? && generated.items != [] then (generated.items, 0, "") else (ideas, idx, NoIdeasMessage)
  }

  /** After a successful generation, "Done" hands back the first new idea. */
  lemma DoneAfterGenerate(ideas: seq<Json>, idx: nat, generated: seq<Json>)
    requires generated != [] && generated[0] != JNull
    ensures var r := Outcome(ideas, idx, Some(Ok(JArr(generated))));
            Picked(r.0, r.1) == generated[0]
  {
  }

  /** The dialog's state (`open` is the parent's prop). */
  class Modal {
    var open: bool
    var focus: string
    var count: string
    var ideas: seq<Json>
    var selectedIdx: nat
    var loading: bool
    var error: string

    constructor()
      ensures !open && focus == "" && count == "" && ideas == [] && selectedIdx == 0 && !loading && error == ""
    {
      open := false;
      focus := "";
      count := "";
      ideas := [];
      selectedIdx := 0;
      loading := false;
      error := "";
    }

    /** The selection points into the list whenever there is one. */
    predicate Valid()
      reads this
    {
      ideas == [] || selectedIdx < |ideas|
    }

    /** `canGenerate`. */
    predicate CanGenerate()
      reads this
    {
      !JsBlank(focus) && !JsBlank(count) && !loading
    }

    /** The parent opening the dialog: a fresh open clears the list, the
        selection, the busy flag and the error, and keeps what was typed. */
    method Open()
      requires Valid()
      modifies this
      ensures open && Valid()
      ensures focus == old(focus) && count == old(count)
      ensures !old(open) ==> ideas == [] && selectedIdx == 0 && !loading && error == ""
      ensures old(open) ==> ideas == old(ideas) && selectedIdx == old(selectedIdx)
                            && loading == old(loading) && error == old(error)
    {
      if !open {
        ideas := [];
        selectedIdx := 0;
        loading := false;
        error := "";
      }
      open := true;
    }

    /** `onClose`. */
    method Close()
      modifies this
      ensures !open && focus == old(focus) && count == old(count) && ideas == old(ideas)
      ensures selectedIdx == old(selectedIdx) && loading == old(loading) && error == old(error)
    {
      open := false;
    }

    method SetFocus(text: string)
      modifies this
      ensures focus == text && count == old(count) && ideas == old(ideas) && selectedIdx == old(selectedIdx)
      ensures open == old(open) && loading == old(loading) && error == old(error)
    {
      focus := text;
    }

    method SetCount(text: string)
      modifies this
      ensures count == text && focus == old(focus) && ideas == old(ideas) && selectedIdx == old(selectedIdx)
      ensures open == old(open) && loading == old(loading) && error == old(error)
    {
      count := text;
    }

    /** A click on a listed idea. */
    method Select(idx: nat)
      requires open && idx < |ideas|
      modifies this
      ensures Valid() && selectedIdx == idx && Picked(ideas, selectedIdx) == Picked(old(ideas), idx)
      ensures ideas == old(ideas) && focus == old(focus) && count == old(count)
      ensures open == old(open) && loading == old(loading) && error == old(error)
    {
      selectedIdx := idx;
    }

    /** `handleGenerate` (and "Regenerate"): `generator` is the parent's
        callback, absent when it is not a function, and its answer. Returns
        the request sent. Nothing happens unless generation is allowed. */
    method Generate(generator: Option<Result<Json, string>>) returns (request: Option<(string, nat)>)
      requires open && Valid()
      modifies this
      ensures Valid() && open && focus == old(focus) && count == old(count)
      ensures !old(CanGenerate()) ==> request.None? && ideas == old(ideas) && selectedIdx == old(selectedIdx)
                                      && loading == old(loading) && error == old(error)
      ensures old(CanGenerate()) ==> !loading && request == RequestFor(old(focus), old(count), generator)
      ensures old(CanGenerate()) ==> (ideas, selectedIdx, error) == Outcome(old(ideas), old(selectedIdx), generator)
    {
      if !CanGenerate() {
        request := None;
        return;
      }
      request := RunGeneration(generator);
    }

    /** The body of `handleGenerate` past its guard. */
    method RunGeneration(generator: Option<Result<Json, string>>) returns (request: Option<(string, nat)>)
      requires Valid()
      modifies this
      ensures Valid() && !loading && open == old(open) && focus == old(focus) && count == old(count)
      ensures request == RequestFor(focus, count, generator)
      ensures (ideas, selectedIdx, error) == Outcome(old(ideas), old(selectedIdx), generator)
    {
      loading := true;
      error := "";
      request := None;
      if generator.None? {
        error := UnavailableMessage;
        loading := false;
        return;
      }
      request := Some((JsTrim(focus), RequestedCount(count)));
      match generator.value {
        case Err(message) =>
          error := MessageOr(message, FailedMessage);
        case Ok(generated) =>
          if generated.JArr? && generated.items != [] {
            ideas := generated.items;
            selectedIdx := 0;
          } else {
            error := NoIdeasMessage;
          }
      }
      loading := false;
    }

    /** `handleDone`: hands back the picked idea, or "" when there is none,
        and closes. */
    method Done() returns (picked: Json)
      requires open
      modifies this
      ensures picked == Picked(ideas, selectedIdx)
      ensures !open && ideas == old(ideas) && selectedIdx == old(selectedIdx)
      ensures focus == old(focus) && count == old(count) && loading == old(loading) && error == old(error)
    {
      picked := Picked(ideas, selectedIdx);
      open := false;
    }
  }
}
