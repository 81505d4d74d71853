/** The AI routes: every generation call that fails is turned into an HTTP
    error by an ordered classification of the error message; the final blog
    comes with a structured render built from the request; a generated cover
    image is stored in the caller's gallery.

    The language-model calls, the markdown conversion and the image
    generation itself are parameters: their outcome is given as a `Result`
    whose error is the text of the exception raised. */
module AiRouter {
  import opened Common
  import opened Values
  import opened FirestoreDb
  import opened Collection
  import opened Schemas
  import opened ImagesRouter
  import BlogsRouter

  // ------------------------------------------------ error classification

  const QuotaDetail: string := "AI quota exhausted. Add billing to your Gemini project."
  const NetworkDetail: string := "Unable to reach the Gemini API (DNS/network). Check internet, VPN, or firewall."
  const ModalityDetail: string :=
    "Image generation is not supported for this Gemini model/API key. Enable a supported image model or billing."
  const ModelDetail: string := "AI model not found. Check GEMINI_TEXT_MODEL or GEMINI_IMAGE_MODEL."
  const KeyDetail: string := "AI API key missing. Set GEMINI_API_KEY in backend/.env."

  predicate QuotaExhausted(msg: string) {
    Contains(msg, "resource_exhausted") || Contains(Lower(msg), "quota")
  }

  predicate NetworkFailure(msg: string) {
    Contains(Lower(msg), "getaddrinfo failed") || Contains(Lower(msg), "name resolution")
  }

  predicate ImageUnsupported(msg: string) {
    Contains(Lower(msg), "response modalities") && Contains(Lower(msg), "image")
  }

  predicate ModelMissing(msg: string) {
    Contains(Lower(msg), "not found") && Contains(Lower(msg), "models/")
  }

  predicate KeyMissing(msg: string) {
    Contains(Lower(msg), "api_key") || Contains(Lower(msg), "missing key inputs")
  }

  /** `_raise_ai_error`: the HTTP error raised for a failure with message `msg`. */
  function RaiseAiError(msg: string): (e: HttpError)
    ensures e.status in {400, 429, 503}
  {
    if QuotaExhausted(msg) then HttpError(429, QuotaDetail)
    else if NetworkFailure(msg) then HttpError(503, NetworkDetail)
    else if ImageUnsupported(msg) then HttpError(400, ModalityDetail)
    else if ModelMissing(msg) then HttpError(400, ModelDetail)
    else if KeyMissing(msg) then HttpError(503, KeyDetail)
    else HttpError(400, msg)
  }

  /** The classification as a table of rules, tried in order. */
  datatype Rule = Quota | Network | Modality | Model | Key

  const Rules: seq<Rule> := [Quota, Network, Modality, Model, Key]

  predicate Fires(r: Rule, msg: string) {
    match r
    case Quota => QuotaExhausted(msg)
    case Network => NetworkFailure(msg)
    case Modality => ImageUnsupported(msg)
    case Model => ModelMissing(msg)
    case Key => KeyMissing(msg)
  }

  function RuleError(r: Rule): HttpError {
    match r
    case Quota => HttpError(429, QuotaDetail)
    case Network => HttpError(503, NetworkDetail)
    case Modality => HttpError(400, ModalityDetail)
    case Model => HttpError(400, ModelDetail)
    case Key => HttpError(503, KeyDetail)
  }

  /** The first rule of `rules` that fires on `msg`. */
  function FirstFiring(rules: seq<Rule>, msg: string): (r: Option<Rule>)
    ensures r.Some? ==> r.value in rules && Fires(r.value, msg)
    ensures r.None? <==> forall x :: x in rules ==> !Fires(x, msg)
  {
    if rules == [] then None
    else if Fires(rules[0], msg) then Some(rules[0])
    else FirstFiring(rules[1..], msg)
  }

  lemma FirstFiringCons(r: Rule, rest: seq<Rule>, msg: string)
    ensures FirstFiring([r] + rest, msg) == if Fires(r, msg) then Some(r) else FirstFiring(rest, msg)
  {
    assert ([r] + rest)[1..] == rest;
  }

  /** The first rule that fires decides the error; a message no rule matches
      becomes a 400 whose detail is the message itself. */
  lemma RaiseAiErrorFollowsRules(msg: string)
    ensures RaiseAiError(msg)
         == match FirstFiring(Rules, msg)
            case Some(r) => RuleError(r)
            case None => HttpError(400, msg)
  {
    FirstFiringCons(Quota, [Network, Modality, Model, Key], msg);
    FirstFiringCons(Network, [Modality, Model, Key], msg);
    FirstFiringCons(Modality, [Model, Key], msg);
    FirstFiringCons(Model, [Key], msg);
    FirstFiringCons(Key, [], msg);
  }

  /** The status of the raised error, rule by rule: quota trumps every other
      rule, network failures every rule after it, and so on. */
  lemma RaiseAiErrorStatus(msg: string)
    ensures RaiseAiError(msg).status == 429 <==> QuotaExhausted(msg)
    ensures RaiseAiError(msg).status == 503
        <==> !QuotaExhausted(msg)
             && (NetworkFailure(msg) || (!ImageUnsupported(msg) && !ModelMissing(msg) && KeyMissing(msg)))
    ensures !QuotaExhausted(msg) && !NetworkFailure(msg) && !ImageUnsupported(msg)
            && !ModelMissing(msg) && !KeyMissing(msg)
            ==> RaiseAiError(msg) == HttpError(400, msg)
  {
  }

  /** A generation endpoint: the options it produced, or the classified error. */
  function Generated<T>(outcome: Result<T, string>): (r: Result<T, HttpError>)
    ensures r.Ok? <==> outcome.Ok?
    ensures r.Ok? ==> r.value == outcome.value
    ensures r.Err? ==> r.error == RaiseAiError(outcome.error)
  {
    match outcome
    case Ok(v) => Ok(v)
    case Err(msg) => Err(RaiseAiError(msg))
  }

  // ------------------------------------------------ blog_generate

  /** The comma-split, stripped, non-empty pieces of `pieces`, in order. */
  function Cleaned(pieces: seq<string>): (r: seq<string>)
    ensures |r| <= |pieces|
    ensures forall i :: 0 <= i < |r| ==> r[i] != ""
  {
    if pieces == [] then []
    else (if PyStrip(pieces[0]) != "" then [PyStrip(pieces[0])] else []) + Cleaned(pieces[1..])
  }

  /** The references of the render, taken from reference_links. */
  function References(links: string): (refs: seq<string>)
    ensures forall i :: 0 <= i < |refs| ==> refs[i] != "" && ',' !in refs[i]
  {
    var pieces := Split(links, ',');
    CleanedNoComma(pieces);
    Cleaned(pieces)
  }

  lemma {:induction false} CleanedNoComma(pieces: seq<string>)
    requires forall i :: 0 <= i < |pieces| ==> ',' !in pieces[i]
    ensures forall i :: 0 <= i < |Cleaned(pieces)| ==> ',' !in Cleaned(pieces)[i]
  {
    if pieces != [] {
      CleanedNoComma(pieces[1..]);
      var p := PyStrip(pieces[0]);
      assert p == pieces[0][|pieces[0]| - |TrimStartBy(pieces[0], IsPyWhitespace)|..][..|p|];
      assert forall c :: c in p ==> c in pieces[0];
    }
  }

  /** A string is stripped when neither end is whitespace. */
  predicate Stripped(s: string) {
    s != [] && !IsPyWhitespace(s[0]) && !IsPyWhitespace(s[|s| - 1])
  }

  lemma StrippedFixed(s: string)
    requires Stripped(s)
    ensures PyStrip(s) == s
  {
  }

  /** The pieces of `Join(items, ",")` are the items. */
  lemma {:induction false} CleanedKeeps(items: seq<string>)
    requires forall i :: 0 <= i < |items| ==> Stripped(items[i])
    ensures Cleaned(items) == items
  {
    if items != [] {
      StrippedFixed(items[0]);
      CleanedKeeps(items[1..]);
    }
  }

  /** Links written as a comma-separated list come back as that list. */
  lemma ReferencesRoundTrip(items: seq<string>)
    requires items != []
    requires forall i :: 0 <= i < |items| ==> Stripped(items[i]) && ',' !in items[i]
    ensures References(Join(items, ",")) == items
  {
    SplitJoin(items, ',');
    CleanedKeeps(items);
  }

  /** An empty reference_links gives no references. */
  lemma NoLinksNoReferences()
    ensures References("") == []
  {
  }

  /** The render of blog_generate: the request's title, cover and intro, one
      section per outline heading with an empty body, no conclusion. */
  function RenderOf(req: GenerateBlogIn): (r: BlogRender)
    ensures r.title == req.title && r.coverImageUrl == req.coverImageUrl && r.introMd == req.introMd
    ensures r.conclusionMd == "" && r.references == References(req.referenceLinks)
  {
    BlogRender(req.title, req.coverImageUrl, req.introMd,
               seq(|req.outline|, i requires 0 <= i < |req.outline| => BlogSection(req.outline[i], "", [])),
               "", References(req.referenceLinks))
  }

  function Headings(sections: seq<BlogSection>): (r: seq<string>)
    ensures |r| == |sections| && forall i :: 0 <= i < |sections| ==> r[i] == sections[i].heading
  {
    seq(|sections|, i requires 0 <= i < |sections| => sections[i].heading)
  }

  /** The outline reads back from the render's section headings, and every
      section starts empty. */
  lemma RenderSections(req: GenerateBlogIn)
    ensures Headings(RenderOf(req).sections) == req.outline
    ensures forall s :: s in RenderOf(req).sections ==> s.bodyMd == "" && s.bullets == []
  {
  }

  /** blog_generate: the normalised markdown and its HTML come from the
      generator and the converter; a failure is classified. */
  function BlogGenerate(req: GenerateBlogIn, outcome: Result<(string, string), string>): (r: Result<FinalBlog, HttpError>)
    ensures r.Ok? <==> outcome.Ok?
    ensures r.Ok? ==> r.value.render == RenderOf(req) && r.value.markdown == outcome.value.0
    ensures r.Err? ==> r.error == RaiseAiError(outcome.error)
  {
    match outcome
    case Ok((markdown, html)) => Ok(FinalBlog(RenderOf(req), markdown, html))
    case Err(msg) => Err(RaiseAiError(msg))
  }

  // ------------------------------------------------ image_generate

  /** `payload.model_dump()`: the request's own fields and nothing else. */
  function Dump(req: ImageGenerateIn): Data {
    map[
      "tone" := VStr(req.tone), "creativity" := VStr(req.creativity),
      "focus_or_niche" := VStr(req.focusOrNiche), "targeted_keyword" := VStr(req.targetedKeyword),
      "selected_idea" := VStr(req.selectedIdea), "title" := VStr(req.title), "prompt" := VStr(req.prompt),
      "aspect_ratio" := VStr(AspectName(req.aspectRatio)), "quality" := VStr(QualityName(req.quality)),
      "primary_color" := VStr(req.primaryColor)]
  }

  /** `data.pop("save_to_gallery", True)`. */
  predicate SaveToGallery(data: Data) {
    if "save_to_gallery" in data then BlogsRouter.PyTruthy(data["save_to_gallery"]) else true
  }

  /** `data.get("source", "nano")`. */
  function GallerySource(data: Data): Value {
    if "source" in data then data["source"] else VStr("nano")
  }

  /** The gallery record of a generated image; `result` is what the
      generator returned. */
  function GeneratedRecord(id: string, user: CurrentUser, data: Data, result: Data, now: nat): Doc {
    Doc(id, map[
      "owner_id" := VStr(user.id),
      "owner_name" := VStr(user.name),
      "image_url" := if "image_url" in result then result["image_url"] else VStr(""),
      "meta" := if "meta" in result then result["meta"] else VMap(map[]),
      "source" := GallerySource(data),
      "created_at" := VTime(now)])
  }

  /** The dumped request has neither a save_to_gallery nor a source entry. */
  lemma DumpOmitsGalleryKeys(req: ImageGenerateIn)
    ensures "save_to_gallery" !in Dump(req) && "source" !in Dump(req)
  {
    var keys := Dump(req).Keys;
    assert keys == {"tone", "creativity", "focus_or_niche", "targeted_keyword", "selected_idea",
                    "title", "prompt", "aspect_ratio", "quality", "primary_color"};
    forall k | k in keys
      ensures |k| != |"save_to_gallery"| && (|k| == 6 ==> k[0] == 'p')
    {
    }
  }

  /** A gallery record is owned by the caller and carries the request's
      source, "nano" when the request has none. */
  lemma RecordOwnerAndSource(id: string, user: CurrentUser, data: Data, result: Data, now: nat)
    ensures var rec := GeneratedRecord(id, user, data, result, now);
            "owner_id" in rec.data && rec.data["owner_id"] == VStr(user.id)
            && "source" in rec.data && rec.data["source"] == GallerySource(data)
  {
  }

  /** The request carries neither save_to_gallery nor source, so every
      generated image is stored, owned by the caller, with source "nano": it
      shows in the "ai" and "nano" gallery filters and counts as a generated
      image in the blog stats. */
  lemma GalleryDefaults(req: ImageGenerateIn, id: string, user: CurrentUser, result: Data, now: nat)
    ensures SaveToGallery(Dump(req))
    ensures var rec := GeneratedRecord(id, user, Dump(req), result, now);
            rec.data["source"] == VStr("nano") && OwnedBy(user.id, rec.data)
            && MongoMatches(rec.data, ListFilter(user.id, Some("ai")))
            && MongoMatches(rec.data, ListFilter(user.id, Some("nano")))
            && MongoMatches(rec.data, BlogsRouter.GeneratedImagesFilter(user.id))
  {
    DumpOmitsGalleryKeys(req);
    var rec := GeneratedRecord(id, user, Dump(req), result, now);
    RecordOwnerAndSource(id, user, Dump(req), result, now);
    ListFilterMeaning(user.id, Some("ai"), rec.data);
    ListFilterMeaning(user.id, Some("nano"), rec.data);
    BlogsRouter.GeneratedImagesAreNanoListing(user.id, rec.data);
  }

  /** ai.py image_generate: on success the generator's answer is returned and
      the image inserted into the gallery (without the duplicate check of
      save_image); a failure is classified and stores nothing. */
  method ImageGenerate(gallery: ImageCollection, user: CurrentUser, req: ImageGenerateIn,
                       outcome: Result<Data, string>, id: string, now: nat)
    returns (r: Result<Data, HttpError>)
    modifies gallery
    ensures outcome.Err? ==> r == Err(RaiseAiError(outcome.error)) && gallery.docs == old(gallery.docs)
    ensures outcome.Ok? ==> r == Ok(outcome.value)
                            && gallery.docs == old(gallery.docs) + [GeneratedRecord(id, user, Dump(req), outcome.value, now)]
  {
    var data := Dump(req);
    var saveToGallery := SaveToGallery(data);
    if outcome.Err? {
      r := Err(RaiseAiError(outcome.error));
      return;
    }
    var result := outcome.value;
    if saveToGallery {
      gallery.docs := gallery.docs + [GeneratedRecord(id, user, data, result, now)];
    }
    r := Ok(result);
  }
}
