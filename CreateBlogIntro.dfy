/** The wizard's introduction step: an introduction is either picked from
    the options the AI endpoint returns or written by hand, and the chosen
    text is saved to the draft as `intro_md` together with the mode. */
module CreateBlogIntro {
  import opened Common
  import DraftStorage

  // ------------------------------------------------ the generation request

  /** The request body both generation steps send, built from the draft with
      its defaults: tone "Formal", creativity "Regular", the idea and the
      niche standing in for each other, every other field "". */
  function IntroRequest(d: map<string, Json>): (r: map<string, string>)
    ensures r.Keys == {"tone", "creativity", "focus_or_niche", "targeted_keyword", "targeted_audience",
                       "reference_links", "selected_idea", "title"}
  {
    map["tone" := TextOrDefault(d, "tone", "Formal"),
        "creativity" := TextOrDefault(d, "creativity", "Regular"),
        "focus_or_niche" := TextOr(d, "focus_or_niche", "selected_idea"),
        "targeted_keyword" := TextAt(d, "targeted_keyword"),
        "targeted_audience" := TextAt(d, "targeted_audience"),
        "reference_links" := TextAt(d, "reference_links"),
        "selected_idea" := TextOr(d, "selected_idea", "focus_or_niche"),
        "title" := TextAt(d, "title")]
  }

  /** An empty draft asks for a formal, regular introduction of nothing; a
      draft with only a niche sends it as the idea too. */
  lemma RequestDefaults(d: map<string, Json>)
    ensures IntroRequest(map[])["tone"] == "Formal" && IntroRequest(map[])["creativity"] == "Regular"
    ensures IntroRequest(map[])["selected_idea"] == "" && IntroRequest(map[])["title"] == ""
    ensures TextAt(d, "selected_idea") == "" ==> IntroRequest(d)["selected_idea"] == IntroRequest(d)["focus_or_niche"]
    ensures TextAt(d, "focus_or_niche") == "" ==> IntroRequest(d)["selected_idea"] == IntroRequest(d)["focus_or_niche"]
  {
  }

  /** The guard of `handleGenerate`: an idea (or niche) and a title. */
  predicate ReadyToGenerate(d: map<string, Json>) {
    IntroRequest(d)["selected_idea"] != "" && IntroRequest(d)["title"] != ""
  }

  const NotReadyMessage := "Please complete blog details and title first."
  const GenerateFailedMessage := "Failed to generate introductions."

  /** `data?.options || []`, each option read as text. */
  function IntroOptions(data: Json): (r: seq<string>)
    ensures data.JObj? && "options" in data.fields && data.fields["options"].JArr?
            ==> |r| == |data.fields["options"].items|
  {
    if data.JObj? && "options" in data.fields then ItemTexts(data.fields["options"]) else []
  }

  // ------------------------------------------------ selection and persistence

  /** `draft.intro_mode || "ai"`. */
  function InitialMode(d: map<string, Json>): (r: string)
    ensures r != ""
  {
    TextOrDefault(d, "intro_mode", "ai")
  }

  /** `draft.intro_md || ""`. */
  function InitialManual(d: map<string, Json>): string {
    TextAt(d, "intro_md")
  }

  /** `selectedIntro`: the manual text on the manual tab, else the selected
      option or "". */
  function SelectedIntro(mode: string, manual: string, intros: seq<string>, idx: nat): (r: string)
    ensures mode == "manual" ==> r == manual
    ensures mode != "manual" ==> (r == "" || (idx < |intros| && r == intros[idx]))
    ensures mode != "manual" && idx < |intros| ==> r == intros[idx]
  {
    if mode == "manual" then manual
    else if idx < |intros| then intros[idx]
    else ""
  }

  /** The save effect's patch. */
  function IntroPatch(mode: string, selected: string): DraftStorage.Draft {
    map["intro_md" := JStr(selected), "intro_mode" := JStr(mode)]
  }

  /** `canNext`. */
  predicate CanNext(selected: string) {
    !JsBlank(selected)
  }

  // ------------------------------------------------ reopening the step

  /** The options the page opens with as written: none. */
  function InitialIntrosAsWritten(d: map<string, Json>): (r: seq<string>)
    ensures r == []
  {
    []
  }

  /** Reopening the step on the AI tab, as written, shows no introduction,
      and its save effect overwrites the stored introduction with "". */
  lemma ReopenErasesIntro()
    ensures var d := map["intro_mode" := JStr("ai"), "intro_md" := JStr("Hello")];
            var shown := SelectedIntro(InitialMode(d), InitialManual(d), InitialIntrosAsWritten(d), 0);
            TextAt(d, "intro_md") == "Hello" && shown == ""
            && DraftStorage.Merge(d, Some(IntroPatch(InitialMode(d), shown)))["intro_md"] == JStr("")
  {
    var d := map["intro_mode" := JStr("ai"), "intro_md" := JStr("Hello")];
    assert InitialMode(d) == "ai";
  }

  /** The options the page opens with: on the AI tab the stored
      introduction, when there is one, as the only option. */
  function InitialIntros(d: map<string, Json>): seq<string> {
    if InitialMode(d) != "manual" && InitialManual(d) != "" then [InitialManual(d)] else []
  }

  /** Reopening the step shows the stored introduction on either tab, so the
      first save leaves the draft as it was. */
  lemma ReopenKeepsIntro(d: map<string, Json>)
    requires "intro_mode" in d && d["intro_mode"].JStr? && d["intro_mode"].s != ""
    ensures var shown := SelectedIntro(InitialMode(d), InitialManual(d), InitialIntros(d), 0);
            shown == InitialManual(d)
            && ("intro_md" in d && d["intro_md"].JStr? ==> DraftStorage.Merge(d, Some(IntroPatch(InitialMode(d), shown))) == d)
  {
    var shown := SelectedIntro(InitialMode(d), InitialManual(d), InitialIntros(d), 0);
    if "intro_md" in d && d["intro_md"].JStr? {
      var m := DraftStorage.Merge(d, Some(IntroPatch(InitialMode(d), shown)));
      assert m.Keys == d.Keys;
      assert m["intro_md"] == d["intro_md"];
      assert m["intro_mode"] == d["intro_mode"];
    }
  }

  /** Reopening the step on the draft a save left shows the same
      introduction and the same tab. */
  lemma ReloadRestoresIntro(d: map<string, Json>, mode: string, manual: string, intros: seq<string>, idx: nat)
    requires mode != ""
    ensures var s := DraftStorage.Merge(d, Some(IntroPatch(mode, SelectedIntro(mode, manual, intros, idx))));
            InitialMode(s) == mode
            && SelectedIntro(InitialMode(s), InitialManual(s), InitialIntros(s), 0) == SelectedIntro(mode, manual, intros, idx)
  {
    var sel := SelectedIntro(mode, manual, intros, idx);
    var s := DraftStorage.Merge(d, Some(IntroPatch(mode, sel)));
    assert s["intro_md"] == JStr(sel) && s["intro_mode"] == JStr(mode);
    assert InitialMode(s) == mode && InitialManual(s) == sel;
  }

  // ------------------------------------------------ the page

  /** The page's state. */
  class IntroPage {
    var mode: string
    var aiIntros: seq<string>
    var selectedAiIndex: nat
    var manualIntro: string
    var loading: bool
    var error: string

    predicate Valid()
      reads this
    {
      mode != "" && (aiIntros == [] || selectedAiIndex < |aiIntros|)
    }

    /** The page opening on the stored draft, as written: no options, so on
        the AI tab nothing is selected and the mount save writes "". */
    constructor(draft: Json)
      ensures Valid()
      ensures var d := DraftStorage.Spread(draft);
              mode == InitialMode(d) && aiIntros == InitialIntrosAsWritten(d)
              && selectedAiIndex == 0 && manualIntro == InitialManual(d)
      ensures !loading && error == ""
      ensures mode != "manual" ==> Selected() == ""
    {
      var d := DraftStorage.Spread(draft);
      mode := InitialMode(d);
      aiIntros := InitialIntrosAsWritten(d);
      selectedAiIndex := 0;
      manualIntro := InitialManual(d);
      loading := false;
      error := "";
    }

    /** The corrected opening: the stored introduction is offered as the
        only AI option, so reopening keeps it. */
    constructor Corrected(draft: Json)
      ensures Valid()
      ensures var d := DraftStorage.Spread(draft);
              mode == InitialMode(d) && aiIntros == InitialIntros(d)
              && selectedAiIndex == 0 && manualIntro == InitialManual(d)
      ensures !loading && error == ""
      ensures Selected() == InitialManual(DraftStorage.Spread(draft))
    {
      var d := DraftStorage.Spread(draft);
      mode := InitialMode(d);
      aiIntros := InitialIntros(d);
      selectedAiIndex := 0;
      manualIntro := InitialManual(d);
      loading := false;
      error := "";
    }

    function Selected(): string
      reads this
    {
      SelectedIntro(mode, manualIntro, aiIntros, selectedAiIndex)
    }

    /** The draft after the save effect. */
    function Saved(d: map<string, Json>): DraftStorage.Draft
      reads this
    {
      DraftStorage.Merge(d, Some(IntroPatch(mode, Selected())))
    }

    /** A click on one of the listed options. */
    method SelectOption(idx: nat)
      requires Valid() && idx < |aiIntros|
      modifies this
      ensures Valid() && selectedAiIndex == idx
      ensures mode == old(mode) && aiIntros == old(aiIntros) && manualIntro == old(manualIntro)
      ensures loading == old(loading) && error == old(error)
      ensures mode != "manual" ==> Selected() == aiIntros[idx]
    {
      selectedAiIndex := idx;
    }

    /** Typing in the manual editor. */
    method SetManual(text: string)
      requires Valid()
      modifies this
      ensures Valid() && manualIntro == text
      ensures mode == "manual" ==> Selected() == text
      ensures mode == old(mode) && aiIntros == old(aiIntros) && selectedAiIndex == old(selectedAiIndex)
      ensures loading == old(loading) && error == old(error)
    {
      manualIntro := text;
    }

    /** Switching tabs. */
    method SelectMode(k: string)
      requires Valid() && (k == "ai" || k == "manual")
      modifies this
      ensures Valid() && mode == k
      ensures manualIntro == old(manualIntro) && aiIntros == old(aiIntros) && selectedAiIndex == old(selectedAiIndex)
      ensures loading == old(loading) && error == old(error)
    {
      mode := k;
    }

    /** `handleGenerate` with the endpoint's answer (`Err` carries the
        error's message, possibly empty). */
    method Generate(draft: Json, response: Result<Json, string>)
      requires Valid() && !loading
      modifies this
      ensures Valid() && !loading
      ensures mode == old(mode) && manualIntro == old(manualIntro)
      ensures !ReadyToGenerate(DraftStorage.Spread(draft)) ==>
                error == NotReadyMessage && aiIntros == old(aiIntros) && selectedAiIndex == old(selectedAiIndex)
      ensures ReadyToGenerate(DraftStorage.Spread(draft)) && response.Ok? ==>
                aiIntros == IntroOptions(response.value) && selectedAiIndex == 0 && error == ""
      ensures ReadyToGenerate(DraftStorage.Spread(draft)) && response.Err? ==>
                aiIntros == old(aiIntros) && selectedAiIndex == old(selectedAiIndex)
                && error == MessageOr(response.error, GenerateFailedMessage)
    {
      if !ReadyToGenerate(DraftStorage.Spread(draft)) {
        error := NotReadyMessage;
        return;
      }
      loading := true;
      error := "";
      match response {
        case Ok(data) =>
          aiIntros := IntroOptions(data);
          selectedAiIndex := 0;
        case Err(message) =>
          error := MessageOr(message, GenerateFailedMessage);
      }
      loading := false;
    }
  }
}
