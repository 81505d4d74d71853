/** The wizard's outline step: outlines either come from the AI endpoint (a
    list of options, one of them selected and editable) or are written by
    hand, one heading per line with list markers stripped. The page restores
    its options and selection from the stored draft and saves the selected
    outline, the mode and the options back to it. */
module CreateBlogOutline {
  import opened Common
  import DraftStorage
  import CreateBlogIntro

  // ------------------------------------------------ parseOutline

  /** The characters of the leading run `^[\-\*\d\.\)\s]+` that a line loses. */
  predicate IsMarker(c: char) {
    c == '-' || c == '*' || ('0' <= c <= '9') || c == '.' || c == ')' || IsJsWhitespace(c)
  }

  /** One line of `parseOutline`: leading list markers removed, then trimmed. */
  function CleanItem(line: string): (r: string)
    ensures r == [] || (!IsMarker(r[0]) && !IsJsWhitespace(r[|r| - 1]))
    ensures '\n' in r ==> '\n' in line
  {
    var t := TrimStartBy(line, IsMarker);
    var r := TrimEndBy(t, IsJsWhitespace);
    assert r == [] || r[0] == t[0];
    TrimStartByKeeps(line, IsMarker, '\n');
    TrimEndByKeeps(t, IsJsWhitespace, '\n');
    r
  }

  /** A cleaned line is left as it is by a second cleaning. */
  lemma CleanItemIdempotent(line: string)
    ensures CleanItem(CleanItem(line)) == CleanItem(line)
  {
    var r := CleanItem(line);
    if r != [] {
      CleanIsFixed(r);
    }
  }

  /** The cleaned lines that are not empty, in order. */
  function CleanAll(lines: seq<string>): (r: seq<string>)
    ensures |r| <= |lines|
    ensures forall i :: 0 <= i < |r| ==> r[i] != [] && !IsMarker(r[i][0]) && !IsJsWhitespace(r[i][|r[i]| - 1])
  {
    if lines == [] then []
    else
      var c := CleanItem(lines[0]);
      if c == [] then CleanAll(lines[1..]) else [c] + CleanAll(lines[1..])
  }

  /** Cleaning introduces no line break. */
  lemma {:induction false} CleanAllNoBreaks(lines: seq<string>)
    requires forall i :: 0 <= i < |lines| ==> '\n' !in lines[i]
    ensures forall i :: 0 <= i < |CleanAll(lines)| ==> '\n' !in CleanAll(lines)[i]
  {
    if lines != [] {
      assert '\n' !in lines[0];
      CleanAllNoBreaks(lines[1..]);
    }
  }

  /** `parseOutline(text)`: one heading per non-empty line. */
  function ParseOutline(text: string): (r: seq<string>)
    ensures |r| <= |SplitLines(text)|
    ensures forall i :: 0 <= i < |r| ==> r[i] != [] && !IsMarker(r[i][0]) && !IsJsWhitespace(r[i][|r[i]| - 1])
    ensures forall i :: 0 <= i < |r| ==> '\n' !in r[i]
  {
    var lines := SplitLines(text);
    assert forall i :: 0 <= i < |lines| ==> '\n' !in lines[i] by {
      var parts := Split(text, '\n');
      forall i | 0 <= i < |lines|
        ensures '\n' !in lines[i]
      {
        assert '\n' !in parts[i];
        if i < |parts| - 1 && |parts[i]| > 0 && parts[i][|parts[i]| - 1] == '\r' {
          assert lines[i] == parts[i][..|parts[i]| - 1];
          assert forall c :: c in lines[i] ==> c in parts[i];
        }
      }
    }
    CleanAllNoBreaks(lines);
    CleanAll(lines)
  }

  /** Already-clean, non-empty headings pass through unchanged. */
  lemma {:induction false} CleanAllKeeps(items: seq<string>)
    requires forall i :: 0 <= i < |items| ==> items[i] != [] && CleanItem(items[i]) == items[i]
    ensures CleanAll(items) == items
  {
    if items != [] {
      CleanAllKeeps(items[1..]);
    }
  }

  /** Splitting into lines a join of headings without line breaks or
      trailing whitespace gives the headings back. */
  lemma SplitLinesJoin(items: seq<string>)
    requires items != []
    requires forall i :: 0 <= i < |items| ==> '\n' !in items[i] && (items[i] == [] || !IsJsWhitespace(items[i][|items[i]| - 1]))
    ensures SplitLines(Join(items, "\n")) == items
  {
    SplitJoin(items, '\n');
    var parts := Split(Join(items, "\n"), '\n');
    assert parts == items;
    forall i | 0 <= i < |items|
      ensures DropCarriageReturn(items[i]) == items[i]
    {
    }
  }

  /** Joining parsed headings with line breaks, as the mode switch and the
      AI editor do, and parsing again gives the same headings. */
  lemma ParseJoinParse(text: string)
    ensures ParseOutline(Join(ParseOutline(text), "\n")) == ParseOutline(text)
  {
    var xs := ParseOutline(text);
    if xs == [] {
      assert Join(xs, "\n") == "";
      assert Split("", '\n') == [""];
      assert SplitLines("") == [""];
    } else {
      forall i | 0 <= i < |xs|
        ensures CleanItem(xs[i]) == xs[i]
      {
        CleanIsFixed(xs[i]);
      }
      SplitLinesJoin(xs);
      CleanAllKeeps(xs);
    }
  }

  /** A non-empty heading that starts with no marker and ends with no
      whitespace is its own cleaning. */
  lemma CleanIsFixed(s: string)
    requires s != [] && !IsMarker(s[0]) && !IsJsWhitespace(s[|s| - 1])
    ensures CleanItem(s) == s
  {
    assert TrimStartBy(s, IsMarker) == s;
    assert TrimStartBy(s, IsJsWhitespace) == s;
    assert TrimEndBy(s, IsJsWhitespace) == s;
  }

  // ------------------------------------------------ outlines as stored values

  /** A list of headings as the page stores it: a JSON array of strings. */
  function Headings(xs: seq<string>): (r: Json)
    ensures r.JArr? && |r.items| == |xs|
    ensures forall i :: 0 <= i < |xs| ==> r.items[i] == JStr(xs[i])
  {
    JArr(seq(|xs|, i requires 0 <= i < |xs| => JStr(xs[i])))
  }

  /** Stored headings read back as the same texts. */
  lemma ItemTextsOfHeadings(xs: seq<string>)
    ensures ItemTexts(Headings(xs)) == xs
  {
  }

  /** `selectedOutline.length`: an array's length, a string's length, and
      `undefined` (compared as never positive) for anything else. */
  function OutlineLength(j: Json): nat {
    match j
    case JArr(items) => |items|
    case JStr(s) => |s|
    case _ => 0
  }

  // ------------------------------------------------ restoring from the draft

  predicate NonEmptyArray(d: map<string, Json>, k: string) {
    k in d && d[k].JArr? && |d[k].items| > 0
  }

  /** `draft.outline_mode || "ai"`. */
  function InitialMode(d: map<string, Json>): (r: string)
    ensures r != ""
  {
    TextOrDefault(d, "outline_mode", "ai")
  }

  /** `initialAiOutlines`: the stored options, else the stored outline as
      the only option when the page opens on the AI tab, else none. */
  function InitialOptions(d: map<string, Json>): seq<Json> {
    if NonEmptyArray(d, "outline_options") then d["outline_options"].items
    else if InitialMode(d) == "ai" && NonEmptyArray(d, "outline") then [d["outline"]]
    else []
  }

  /** The stored index is a number naming a truthy option. */
  predicate StoredIndexValid(d: map<string, Json>, opts: seq<Json>) {
    "outline_selected_idx" in d && d["outline_selected_idx"].JNum?
    && 0 <= d["outline_selected_idx"].n < |opts| && Truthy(opts[d["outline_selected_idx"].n])
  }

  /** `initialSelectedIndex`: the stored index when it names an option,
      else the first option equal to the stored outline, else 0. */
  function InitialIndex(d: map<string, Json>, opts: seq<Json>): (r: nat)
    ensures r == 0 || (r < |opts| && Truthy(opts[r]))
    ensures StoredIndexValid(d, opts) ==> r == d["outline_selected_idx"].n
  {
    if StoredIndexValid(d, opts) then d["outline_selected_idx"].n
    else if NonEmptyArray(d, "outline") && IndexOf(opts, d["outline"]) >= 0 then IndexOf(opts, d["outline"])
    else 0
  }

  /** The initial manual text: a stored outline array joined by line breaks. */
  function InitialManual(d: map<string, Json>): string {
    if "outline" in d && d["outline"].JArr? then Join(ItemTexts(d["outline"]), "\n") else ""
  }

  /** `selectedOutline`: the parsed manual text on the manual tab, else the
      selected option, or an empty list when it is missing or falsy. */
  function SelectedOutline(mode: string, manual: string, opts: seq<Json>, idx: nat): (r: Json)
    ensures mode == "manual" ==> r == Headings(ParseOutline(manual))
    ensures mode != "manual" && idx < |opts| && Truthy(opts[idx]) ==> r == opts[idx]
    ensures mode != "manual" && !(idx < |opts| && Truthy(opts[idx])) ==> r == JArr([])
  {
    if mode == "manual" then Headings(ParseOutline(manual))
    else if idx < |opts| && Truthy(opts[idx]) then opts[idx]
    else JArr([])
  }

  /** The first save effect's patch. */
  function OutlinePatch(mode: string, selected: Json): DraftStorage.Draft {
    map["outline" := selected, "outline_mode" := JStr(mode)]
  }

  /** The second save effect's patch, which is skipped without options. */
  function OptionsPatch(opts: seq<Json>, idx: nat): Option<DraftStorage.Draft> {
    if opts == [] then None
    else Some(map["outline_options" := JArr(opts), "outline_selected_idx" := JNum(idx)])
  }

  /** What the draft holds after both save effects ran on `d`. */
  function SavedDraft(d: map<string, Json>, mode: string, manual: string, opts: seq<Json>, idx: nat): DraftStorage.Draft {
    DraftStorage.Merge(DraftStorage.Merge(d, Some(OutlinePatch(mode, SelectedOutline(mode, manual, opts, idx)))),
                       OptionsPatch(opts, idx))
  }

  /** The entries both save effects write. */
  lemma SavedEntries(d: map<string, Json>, mode: string, manual: string, opts: seq<Json>, idx: nat)
    ensures var s := SavedDraft(d, mode, manual, opts, idx);
            "outline" in s && s["outline"] == SelectedOutline(mode, manual, opts, idx)
            && "outline_mode" in s && s["outline_mode"] == JStr(mode)
            && (opts != [] ==> "outline_options" in s && s["outline_options"] == JArr(opts)
                               && "outline_selected_idx" in s && s["outline_selected_idx"] == JNum(idx))
  {
    PatchedEntries(d, mode, SelectedOutline(mode, manual, opts, idx), opts, idx);
  }

  lemma PatchedEntries(d: map<string, Json>, mode: string, selected: Json, opts: seq<Json>, idx: nat)
    ensures var s := DraftStorage.Merge(DraftStorage.Merge(d, Some(OutlinePatch(mode, selected))), OptionsPatch(opts, idx));
            "outline" in s && s["outline"] == selected
            && "outline_mode" in s && s["outline_mode"] == JStr(mode)
            && (opts != [] ==> "outline_options" in s && s["outline_options"] == JArr(opts)
                               && "outline_selected_idx" in s && s["outline_selected_idx"] == JNum(idx))
  {
    var p := OutlinePatch(mode, selected);
    assert "outline" in p && "outline_mode" in p;
    if opts != [] {
      var q := OptionsPatch(opts, idx).value;
      assert "outline" !in q && "outline_mode" !in q;
      assert "outline_options" in q && "outline_selected_idx" in q;
    }
  }

  /** Reopening the page on the saved draft restores the mode and the AI
      options with their selection. */
  lemma ReloadRestoresOptions(d: map<string, Json>, mode: string, manual: string, opts: seq<Json>, idx: nat)
    requires mode != "" && opts != [] && idx < |opts| && Truthy(opts[idx])
    ensures var s := SavedDraft(d, mode, manual, opts, idx);
            InitialMode(s) == mode && InitialOptions(s) == opts && InitialIndex(s, opts) == idx
  {
    SavedEntries(d, mode, manual, opts, idx);
  }

  /** Reopening the page on the saved draft shows the same outline: on the
      manual tab the saved headings are parsed again into the same list, on
      the AI tab the selected option is found again. */
  lemma ReloadRestoresSelection(d: map<string, Json>, mode: string, manual: string, opts: seq<Json>, idx: nat)
    requires mode != ""
    requires mode == "manual" || (opts != [] && idx < |opts| && Truthy(opts[idx]))
    ensures var s := SavedDraft(d, mode, manual, opts, idx);
            var opts' := InitialOptions(s);
            SelectedOutline(InitialMode(s), InitialManual(s), opts', InitialIndex(s, opts'))
              == SelectedOutline(mode, manual, opts, idx)
  {
    var s := SavedDraft(d, mode, manual, opts, idx);
    SavedEntries(d, mode, manual, opts, idx);
    if mode == "manual" {
      ManualReload(s, manual);
    } else {
      ReloadRestoresOptions(d, mode, manual, opts, idx);
    }
  }

  lemma ManualReload(s: map<string, Json>, manual: string)
    requires "outline" in s && s["outline"] == Headings(ParseOutline(manual))
    requires "outline_mode" in s && s["outline_mode"] == JStr("manual")
    ensures forall opts, idx :: SelectedOutline(InitialMode(s), InitialManual(s), opts, idx) == Headings(ParseOutline(manual))
  {
    var xs := ParseOutline(manual);
    ItemTextsOfHeadings(xs);
    assert InitialManual(s) == Join(xs, "\n");
    ParseJoinParse(manual);
    assert InitialMode(s) == "manual";
  }

  // ------------------------------------------------ page actions

  /** `(data?.options || []).map((o) => o.outline || [])`. */
  function OptionsOf(data: Json): (r: seq<Json>)
    ensures forall i :: 0 <= i < |r| ==> Truthy(r[i])
    ensures data.JObj? && "options" in data.fields && data.fields["options"].JArr?
            ==> |r| == |data.fields["options"].items|
  {
    var options := if data.JObj? && "options" in data.fields && data.fields["options"].JArr?
                   then data.fields["options"].items else [];
    seq(|options|, i requires 0 <= i < |options| =>
      if options[i].JObj? && TruthyAt(options[i].fields, "outline") then options[i].fields["outline"] else JArr([]))
  }

  /** `handleEditAiOutline`'s update of the options. */
  function EditOptions(opts: seq<Json>, idx: nat, value: string): (r: seq<Json>)
    requires opts == [] || idx < |opts|
    ensures |r| == |opts|
    ensures opts != [] ==> r[idx] == Headings(ParseOutline(value))
    ensures forall i :: 0 <= i < |opts| && i != idx ==> r[i] == opts[i]
  {
    if opts == [] then opts else opts[idx := Headings(ParseOutline(value))]
  }

  /** After an edit the editor shows, and the page selects, headings that
      parse to what was typed. */
  lemma EditShowsParsed(opts: seq<Json>, idx: nat, value: string)
    requires opts != [] && idx < |opts|
    ensures var r := EditOptions(opts, idx, value);
            ParseOutline(Join(ItemTexts(r[idx]), "\n")) == ParseOutline(value)
            && SelectedOutline("ai", "", r, idx) == Headings(ParseOutline(value))
  {
    ItemTextsOfHeadings(ParseOutline(value));
    ParseJoinParse(value);
  }

  /** The outline request: the introduction step's request plus the
      stored introduction. */
  function OutlineRequest(d: map<string, Json>): (r: map<string, string>)
    ensures r.Keys == CreateBlogIntro.IntroRequest(d).Keys + {"intro_md"}
    ensures forall k :: k in CreateBlogIntro.IntroRequest(d) ==> r[k] == CreateBlogIntro.IntroRequest(d)[k]
  {
    CreateBlogIntro.IntroRequest(d)["intro_md" := TextAt(d, "intro_md")]
  }

  /** The guard of `handleGenerate`: an idea (or niche), a title and an
      introduction. */
  predicate ReadyToGenerate(d: map<string, Json>) {
    OutlineRequest(d)["selected_idea"] != "" && OutlineRequest(d)["title"] != "" && OutlineRequest(d)["intro_md"] != ""
  }

  /** The outline step asks for strictly more than the introduction step:
      whenever it may generate, so may the introduction step. */
  lemma OutlineGuardStricter(d: map<string, Json>)
    ensures ReadyToGenerate(d) ==> CreateBlogIntro.ReadyToGenerate(d)
    ensures ReadyToGenerate(d) <==> CreateBlogIntro.ReadyToGenerate(d) && TextAt(d, "intro_md") != ""
  {
  }

  const NotReadyMessage := "Please complete blog details, title, and intro first."
  const GenerateFailedMessage := "Failed to generate outlines."

  /** The page's state. */
  class OutlinePage {
    var mode: string
    var aiOutlines: seq<Json>
    var selectedAiIndex: nat
    var manualOutline: string
    var loading: bool
    var error: string

    /** The mode is named and the selection names an option, unless there are none. */
    predicate Valid()
      reads this
    {
      mode != "" && (aiOutlines == [] || selectedAiIndex < |aiOutlines|)
    }

    /** The page opening on the stored draft. */
    constructor(draft: Json)
      ensures Valid()
      ensures var d := DraftStorage.Spread(draft);
              mode == InitialMode(d) && aiOutlines == InitialOptions(d)
              && selectedAiIndex == InitialIndex(d, aiOutlines) && manualOutline == InitialManual(d)
      ensures !loading && error == ""
    {
      var d := DraftStorage.Spread(draft);
      mode := InitialMode(d);
      aiOutlines := InitialOptions(d);
      selectedAiIndex := InitialIndex(d, InitialOptions(d));
      manualOutline := InitialManual(d);
      loading := false;
      error := "";
    }

    function Selected(): Json
      reads this
    {
      SelectedOutline(mode, manualOutline, aiOutlines, selectedAiIndex)
    }

    /** `canNext`. */
    predicate CanNext()
      reads this
    {
      OutlineLength(Selected()) > 0
    }

    /** The draft after the page's save effects. */
    function Saved(d: map<string, Json>): DraftStorage.Draft
      reads this
    {
      SavedDraft(d, mode, manualOutline, aiOutlines, selectedAiIndex)
    }

    /** A click on one of the listed options. */
    method SelectOption(idx: nat)
      requires Valid() && idx < |aiOutlines|
      modifies this
      ensures Valid() && selectedAiIndex == idx
      ensures mode == old(mode) && aiOutlines == old(aiOutlines) && manualOutline == old(manualOutline)
      ensures loading == old(loading) && error == old(error)
    {
      selectedAiIndex := idx;
    }

    /** Typing in the manual editor. */
    method SetManual(text: string)
      requires Valid()
      modifies this
      ensures Valid() && manualOutline == text
      ensures mode == old(mode) && aiOutlines == old(aiOutlines) && selectedAiIndex == old(selectedAiIndex)
      ensures loading == old(loading) && error == old(error)
    {
      manualOutline := text;
    }

    /** `handleEditAiOutline`: the selected option becomes the parsed text;
        without options nothing changes. */
    method EditAiOutline(value: string)
      requires Valid()
      modifies this
      ensures Valid() && aiOutlines == EditOptions(old(aiOutlines), old(selectedAiIndex), value)
      ensures mode == old(mode) && selectedAiIndex == old(selectedAiIndex) && manualOutline == old(manualOutline)
      ensures loading == old(loading) && error == old(error)
    {
      if aiOutlines != [] {
        aiOutlines := aiOutlines[selectedAiIndex := Headings(ParseOutline(value))];
      }
    }

    /** Switching tabs; moving to the manual tab with a blank editor copies
        the outline shown so far into it. */
    method SelectMode(k: string)
      requires Valid() && (k == "ai" || k == "manual")
      modifies this
      ensures Valid() && mode == k
      ensures k == "manual" && JsBlank(old(manualOutline)) && OutlineLength(old(Selected())) > 0
              ==> manualOutline == Join(ItemTexts(old(Selected())), "\n")
      ensures !(k == "manual" && JsBlank(old(manualOutline)) && OutlineLength(old(Selected())) > 0)
              ==> manualOutline == old(manualOutline)
      ensures aiOutlines == old(aiOutlines) && selectedAiIndex == old(selectedAiIndex)
      ensures loading == old(loading) && error == old(error)
    {
      var shown := Selected();
      mode := k;
      if k == "manual" && JsBlank(manualOutline) && OutlineLength(shown) > 0 {
        manualOutline := Join(ItemTexts(shown), "\n");
      }
    }

    /** `handleGenerate` with the endpoint's answer (`Err` carries the
        error's message, possibly empty). Without an idea, a title and an
        intro nothing is requested; a failure keeps the options. */
    method Generate(draft: Json, response: Result<Json, string>)
      requires Valid() && !loading
      modifies this
      ensures Valid() && !loading
      ensures mode == old(mode) && manualOutline == old(manualOutline)
      ensures !ReadyToGenerate(DraftStorage.Spread(draft)) ==>
                error == NotReadyMessage && aiOutlines == old(aiOutlines)
                && selectedAiIndex == old(selectedAiIndex) && loading == old(loading)
      ensures ReadyToGenerate(DraftStorage.Spread(draft)) && response.Ok? ==>
                aiOutlines == OptionsOf(response.value) && selectedAiIndex == 0 && error == ""
      ensures ReadyToGenerate(DraftStorage.Spread(draft)) && response.Err? ==>
                aiOutlines == old(aiOutlines) && selectedAiIndex == old(selectedAiIndex)
                && error == MessageOr(response.error, GenerateFailedMessage)
    {
      var ready := ReadyToGenerate(DraftStorage.Spread(draft));
      Answer(ready, response);
    }

    /** What `handleGenerate` does once its guard is evaluated to `ready`. */
    method Answer(ready: bool, response: Result<Json, string>)
      requires Valid() && !loading
      modifies this
      ensures Valid() && !loading
      ensures mode == old(mode) && manualOutline == old(manualOutline)
      ensures !ready ==> error == NotReadyMessage && aiOutlines == old(aiOutlines)
                         && selectedAiIndex == old(selectedAiIndex)
      ensures ready && response.Ok? ==>
                aiOutlines == OptionsOf(response.value) && selectedAiIndex == 0 && error == ""
      ensures ready && response.Err? ==>
                aiOutlines == old(aiOutlines) && selectedAiIndex == old(selectedAiIndex)
                && error == MessageOr(response.error, GenerateFailedMessage)
    {
      if !ready {
        error := NotReadyMessage;
        return;
      }
      loading := true;
      error := "";
      match response {
        case Ok(data) =>
          aiOutlines := OptionsOf(data);
          selectedAiIndex := 0;
        case Err(message) =>
          error := MessageOr(message, GenerateFailedMessage);
      }
      loading := false;
    }
  }
}
