/** The wizard's details form: language, tone and creativity with their
    defaults, what the blog is about, and the optional keyword, audience
    and reference links, all restored from the draft and saved back to it
    on every change; plus the idea request the topic dialog sends. */
module BlogDetails {
  import opened Common
  import DraftStorage

  /** The form's values. */
  datatype Details = Details(language: string, tone: string, creativity: string, about: string,
                             keyword: string, audience: string, reference: string)

  /** The fields the form edits. */
  datatype Field = Language | Tone | Creativity | About | Keyword | Audience | Reference

  /** The values the form opens with: "English", "Formal" and "Regular" by
      default, the idea or else the niche as the subject, "" elsewhere. */
  function InitialDetails(d: map<string, Json>): (r: Details)
    ensures r.language != "" && r.tone != "" && r.creativity != ""
    ensures d == map[] ==> r == Details("English", "Formal", "Regular", "", "", "", "")
    ensures r.about == (if TextAt(d, "selected_idea") != "" then TextAt(d, "selected_idea") else TextAt(d, "focus_or_niche"))
  {
    Details(TextOrDefault(d, "language", "English"), TextOrDefault(d, "tone", "Formal"),
            TextOrDefault(d, "creativity", "Regular"), TextOr(d, "selected_idea", "focus_or_niche"),
            TextAt(d, "targeted_keyword"), TextAt(d, "targeted_audience"), TextAt(d, "reference_links"))
  }

  /** The patch the save effect writes: the subject goes to both the niche
      and the idea. */
  function DetailsPatch(f: Details): (r: DraftStorage.Draft)
    ensures r.Keys == {"language", "tone", "creativity", "focus_or_niche", "selected_idea",
                       "targeted_keyword", "targeted_audience", "reference_links"}
    ensures r["focus_or_niche"] == r["selected_idea"] == JStr(f.about)
  {
    map["language" := JStr(f.language), "tone" := JStr(f.tone), "creativity" := JStr(f.creativity),
        "focus_or_niche" := JStr(f.about), "selected_idea" := JStr(f.about),
        "targeted_keyword" := JStr(f.keyword), "targeted_audience" := JStr(f.audience),
        "reference_links" := JStr(f.reference)]
  }

  /** Reopening the form on the draft a save left shows the same values
      (the three choices are never empty on the form). */
  lemma ReloadRestoresDetails(d: map<string, Json>, f: Details)
    requires f.language != "" && f.tone != "" && f.creativity != ""
    ensures InitialDetails(DraftStorage.Merge(d, Some(DetailsPatch(f)))) == f
  {
    var s := DraftStorage.Merge(d, Some(DetailsPatch(f)));
    assert s["selected_idea"] == JStr(f.about) && s["focus_or_niche"] == JStr(f.about);
    assert s["language"] == JStr(f.language) && s["tone"] == JStr(f.tone) && s["creativity"] == JStr(f.creativity);
    assert s["targeted_keyword"] == JStr(f.keyword) && s["targeted_audience"] == JStr(f.audience);
    assert s["reference_links"] == JStr(f.reference);
  }

  /** One field changed. */
  function With(f: Details, field: Field, value: string): Details {
    match field
    case Language => f.(language := value)
    case Tone => f.(tone := value)
    case Creativity => f.(creativity := value)
    case About => f.(about := value)
    case Keyword => f.(keyword := value)
    case Audience => f.(audience := value)
    case Reference => f.(reference := value)
  }

  // ------------------------------------------------ the idea request

  /** The body `handleGenerateIdeas` posts: the dialog's focus and count
      with the form's keyword, audience, links, tone and creativity. */
  function IdeasPayload(f: Details, focus: string, count: nat): (r: map<string, Json>)
    ensures r.Keys == {"focus_or_niche", "targeted_keyword", "targeted_audience", "reference_links",
                       "tone", "creativity", "count"}
    ensures r["focus_or_niche"] == JStr(focus) && r["count"] == JNum(count)
  {
    map["focus_or_niche" := JStr(focus), "targeted_keyword" := JStr(f.keyword),
        "targeted_audience" := JStr(f.audience), "reference_links" := JStr(f.reference),
        "tone" := JStr(f.tone), "creativity" := JStr(f.creativity), "count" := JNum(count)]
  }

  /** `data?.options || []`. */
  function Options(data: Json): seq<Json> {
    if data.JObj? && "options" in data.fields && data.fields["options"].JArr? then data.fields["options"].items else []
  }

  /** `count ? options.slice(0, count) : options`. */
  function TruncateIdeas(data: Json, count: nat): (r: seq<Json>)
    ensures count == 0 ==> r == Options(data)
    ensures count > 0 ==> |r| == Min(count, |Options(data)|)
  {
    var options := Options(data);
    if count == 0 then options else options[..Min(count, |options|)]
  }

  /** The returned ideas are the first of the options, at most `count` of
      them when a count is given, all of them otherwise. */
  lemma TruncateIsPrefix(data: Json, count: nat)
    ensures |TruncateIdeas(data, count)| <= |Options(data)|
    ensures TruncateIdeas(data, count) == Options(data)[..|TruncateIdeas(data, count)|]
    ensures count > 0 ==> |TruncateIdeas(data, count)| <= count
    ensures count >= |Options(data)| ==> TruncateIdeas(data, count) == Options(data)
  {
  }

  // ------------------------------------------------ the form

  /** The form's state. */
  class Form {
    var language: string
    var tone: string
    var creativity: string
    var about: string
    var keyword: string
    var audience: string
    var reference: string
    var openIdeas: bool

    function Current(): Details
      reads this
    {
      Details(language, tone, creativity, about, keyword, audience, reference)
    }

    /** The form opening on the stored draft. */
    constructor(store: DraftStorage.Store)
      ensures Current() == InitialDetails(DraftStorage.Spread(store.Load())) && !openIdeas
    {
      var f := InitialDetails(DraftStorage.Spread(store.Load()));
      language := f.language;
      tone := f.tone;
      creativity := f.creativity;
      about := f.about;
      keyword := f.keyword;
      audience := f.audience;
      reference := f.reference;
      openIdeas := false;
    }

    /** The save effect (on opening and after every change). */
    method Save(store: DraftStorage.Store)
      modifies store
      ensures store.Load() == JObj(DraftStorage.Merge(DraftStorage.Spread(old(store.Load())), Some(DetailsPatch(Current()))))
    {
      var _ := store.SaveDraft(Some(DetailsPatch(Current())));
    }

    /** Typing in or choosing one field, then the save effect. */
    method Edit(field: Field, value: string, store: DraftStorage.Store)
      modifies this, store
      ensures Current() == With(old(Current()), field, value) && openIdeas == old(openIdeas)
      ensures store.Load() == JObj(DraftStorage.Merge(DraftStorage.Spread(old(store.Load())), Some(DetailsPatch(Current()))))
    {
      Set(field, value);
      Save(store);
    }

    /** The field's setter. */
    method Set(field: Field, value: string)
      modifies this
      ensures Current() == With(old(Current()), field, value) && openIdeas == old(openIdeas)
    {
      match field {
        case Language => language := value;
        case Tone => tone := value;
        case Creativity => creativity := value;
        case About => about := value;
        case Keyword => keyword := value;
        case Audience => audience := value;
        case Reference => reference := value;
      }
    }

    /** The dialog's "Done": the picked idea becomes the subject. */
    method PickIdea(picked: Json, store: DraftStorage.Store)
      modifies this, store
      ensures Current() == old(Current()).(about := ItemText(picked)) && !openIdeas
      ensures store.Load() == JObj(DraftStorage.Merge(DraftStorage.Spread(old(store.Load())), Some(DetailsPatch(Current()))))
    {
      Edit(About, ItemText(picked), store);
      openIdeas := false;
    }

    /** "Suggest Blog Topics ideas by AI" and the dialog's close. */
    method SetIdeasOpen(b: bool)
      modifies this
      ensures openIdeas == b && Current() == old(Current())
    {
      openIdeas := b;
    }

    /** `handleGenerateIdeas({ focus, count })` with the endpoint's answer:
        the request body and the ideas handed to the dialog. */
    method GenerateIdeas(focus: string, count: nat, response: Json) returns (payload: map<string, Json>, ideas: seq<Json>)
      ensures payload == IdeasPayload(Current(), focus, count)
      ensures payload["tone"] == JStr(tone) && payload["creativity"] == JStr(creativity)
      ensures ideas == TruncateIdeas(response, count)
    {
      payload := IdeasPayload(Current(), focus, count);
      ideas := TruncateIdeas(response, count);
    }
  }
}
