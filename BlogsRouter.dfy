/** The blog routes of the backend: saving a finished blog, listing and
    counting the caller's blogs, reading, updating and deleting one blog
    under the owner-or-admin guard, and asking for publication.

    The blogs collection is a class whose `docs` field the write routes
    replace; `$set` updates go through `ApplySet`, so dotted paths such as
    "admin_review.feedback" write inside the embedded review record. Each id
    the store assigns is a parameter, and so is the clock: a route that reads
    it more than once is given one instant `now` for all its reads. */
module BlogsRouter {
  import opened Common
  import opened Values
  import opened FirestoreDb
  import opened Collection
  import opened Schemas
  import ImagesRouter

  // ------------------------------------------------ stored form

  function Strings(items: seq<string>): (r: seq<Value>)
    ensures |r| == |items| && forall i :: 0 <= i < |items| ==> r[i] == VStr(items[i])
  {
    seq(|items|, i requires 0 <= i < |items| => VStr(items[i]))
  }

  /** `BlogMeta.model_dump()`. */
  function MetaValue(m: BlogMeta): Value {
    VMap(map[
      "language" := VStr(m.language), "tone" := VStr(m.tone), "creativity" := VStr(m.creativity),
      "focus_or_niche" := VStr(m.focusOrNiche), "targeted_keyword" := VStr(m.targetedKeyword),
      "targeted_audience" := VStr(m.targetedAudience), "reference_links" := VStr(m.referenceLinks),
      "selected_idea" := VStr(m.selectedIdea), "title" := VStr(m.title), "intro_md" := VStr(m.introMd),
      "outline" := VList(Strings(m.outline)), "image_prompt" := VStr(m.imagePrompt),
      "cover_image_url" := VStr(m.coverImageUrl)])
  }

  function SectionValue(s: BlogSection): Value {
    VMap(map["heading" := VStr(s.heading), "body_md" := VStr(s.bodyMd), "bullets" := VList(Strings(s.bullets))])
  }

  function RenderValue(r: BlogRender): Value {
    VMap(map[
      "title" := VStr(r.title), "cover_image_url" := VStr(r.coverImageUrl), "intro_md" := VStr(r.introMd),
      "sections" := VList(seq(|r.sections|, i requires 0 <= i < |r.sections| => SectionValue(r.sections[i]))),
      "conclusion_md" := VStr(r.conclusionMd), "references" := VList(Strings(r.references))])
  }

  /** `FinalBlog.model_dump()`. */
  function FinalBlogValue(f: FinalBlog): Value {
    VMap(map["render" := RenderValue(f.render), "markdown" := VStr(f.markdown), "html" := VStr(f.html)])
  }

  function OptTime(t: Option<nat>): Value {
    if t.Some? then VTime(t.value) else VNull
  }

  function OptText(s: Option<string>): Value {
    if s.Some? then VStr(s.value) else VNull
  }

  /** The stored form of the admin-review record. */
  function ReviewValue(r: AdminReview): Value {
    VMap(map[
      "requested_at" := OptTime(r.requestedAt), "reviewed_at" := OptTime(r.reviewedAt),
      "reviewed_by" := OptText(r.reviewedBy), "reviewed_by_name" := OptText(r.reviewedByName),
      "feedback" := VStr(r.feedback)])
  }

  /** `m.get(k)`. */
  function Sub(m: map<string, Value>, k: string): Option<Value> {
    if k in m then Some(m[k]) else None
  }

  function TimeOf(v: Option<Value>): Option<Option<nat>> {
    if v.None? || v.value == VNull then Some(None)
    else if v.value.VTime? then Some(Some(v.value.t))
    else None
  }

  function TextOf(v: Option<Value>): Option<Option<string>> {
    if v.None? || v.value == VNull then Some(None)
    else if v.value.VStr? then Some(Some(v.value.s))
    else None
  }

  /** Reads a stored admin-review record back as the AdminReview model does:
      missing entries take their defaults, a wrongly typed entry fails. */
  function ReviewOf(v: Value): Option<AdminReview> {
    if !v.VMap? then None
    else
      var m := v.fields;
      var requested := TimeOf(Sub(m, "requested_at"));
      var reviewed := TimeOf(Sub(m, "reviewed_at"));
      var byId := TextOf(Sub(m, "reviewed_by"));
      var byName := TextOf(Sub(m, "reviewed_by_name"));
      var feedback := if "feedback" !in m then Some("") else if m["feedback"].VStr? then Some(m["feedback"].s) else None;
      if requested.None? || reviewed.None? || byId.None? || byName.None? || feedback.None? then None
      else Some(AdminReview(requested.value, reviewed.value, byId.value, byName.value, feedback.value))
  }

  /** The stored review record reads back as the record stored. */
  lemma ReviewRoundTrip(r: AdminReview)
    ensures ReviewOf(ReviewValue(r)) == Some(r)
  {
  }

  /** The review record of a stored blog, when it reads back. */
  function StoredReview(data: Data): Option<AdminReview> {
    if "admin_review" in data then ReviewOf(data["admin_review"]) else None
  }

  /** The status text of a stored blog (`b.get("status")`). */
  function StatusText(data: Data): Option<Value> {
    Sub(data, "status")
  }

  // ------------------------------------------------ save_blog

  /** The document save_blog inserts. */
  function NewBlogRecord(id: string, user: CurrentUser, meta: BlogMeta, finalBlog: FinalBlog, now: nat): Doc {
    Doc(id, map[
      "owner_id" := VStr(user.id),
      "owner_name" := VStr(user.name),
      "status" := VStr(StatusName(Saved)),
      "meta" := MetaValue(meta),
      "final_blog" := FinalBlogValue(finalBlog),
      "admin_review" := ReviewValue(NoReview),
      "created_at" := VTime(now),
      "updated_at" := VTime(now),
      "published_at" := VNull])
  }

  /** A new blog starts saved, unreviewed with empty feedback, unpublished,
      and with equal creation and update times. */
  lemma NewBlogInitialState(id: string, user: CurrentUser, meta: BlogMeta, finalBlog: FinalBlog, now: nat)
    ensures var data := NewBlogRecord(id, user, meta, finalBlog, now).data;
            StatusText(data) == Some(VStr("saved"))
            && StoredReview(data) == Some(AdminReview(None, None, None, None, ""))
            && data["published_at"] == VNull
            && data["created_at"] == data["updated_at"] == VTime(now)
            && OwnerIs(data, user.id)
  {
    ReviewRoundTrip(NoReview);
  }

  // ------------------------------------------------ guards

  predicate IsHexDigit(c: char) {
    '0' <= c <= '9' || 'a' <= c <= 'f' || 'A' <= c <= 'F'
  }

  /** What `ObjectId(s)` accepts: 24 hexadecimal digits. */
  predicate IsObjectId(s: string) {
    |s| == 24 && forall i :: 0 <= i < |s| ==> IsHexDigit(s[i])
  }

  predicate OwnerIs(data: Data, uid: string) {
    "owner_id" in data && data["owner_id"] == VStr(uid)
  }

  /** Reads, updates and deletes are allowed to the owner and to admins. */
  predicate MayAccess(user: CurrentUser, data: Data) {
    OwnerIs(data, user.id) || user.role == "admin"
  }

  /** The stored id an accepted `blog_id` names: `str(ObjectId(s))` spells
      the hexadecimal digits in lower case, so `ObjectId` reads upper- and
      lower-case digits alike. */
  function Oid(s: string): (r: string)
    ensures |r| == |s|
    ensures forall i :: 0 <= i < |s| ==> r[i] == LowerChar(s[i])
  {
    Lower(s)
  }

  /** `oid(blog_id)` then `find_one`: 400 for a malformed id, 404 for a missing blog. */
  function Lookup(docs: seq<Doc>, blogId: string): (r: Result<Doc, HttpError>)
    ensures r.Ok? ==> r.value in docs && r.value.id == Oid(blogId)
    ensures r.Err? ==> r.error.status == 400 || r.error.status == 404
  {
    if !IsObjectId(blogId) then Err(HttpError(400, "Invalid id"))
    else
      match FindById(docs, Oid(blogId))
      case None => Err(HttpError(404, "Blog not found"))
      case Some(b) => Ok(b)
  }

  /** The guard of get_blog, update_blog and delete_blog. */
  function Authorize(docs: seq<Doc>, blogId: string, user: CurrentUser): Result<Doc, HttpError> {
    match Lookup(docs, blogId)
    case Err(e) => Err(e)
    case Ok(b) => if !OwnerIs(b.data, user.id) && user.role != "admin" then Err(HttpError(403, "Not allowed")) else Ok(b)
  }

  /** With a well-formed id, the guard answers 404 exactly when the blog is
      missing, 403 exactly when it exists and the caller is neither its owner
      nor an admin, and lets everyone else through. */
  lemma AuthorizeOutcomes(docs: seq<Doc>, blogId: string, user: CurrentUser)
    requires IsObjectId(blogId)
    ensures Authorize(docs, blogId, user).Err? && Authorize(docs, blogId, user).error.status == 404
        <==> (forall d :: d in docs ==> d.id != Oid(blogId))
    ensures Authorize(docs, blogId, user).Err? && Authorize(docs, blogId, user).error.status == 403
        <==> FindById(docs, Oid(blogId)).Some? && !MayAccess(user, FindById(docs, Oid(blogId)).value.data)
    ensures Authorize(docs, blogId, user).Ok?
        <==> FindById(docs, Oid(blogId)).Some? && MayAccess(user, FindById(docs, Oid(blogId)).value.data)
  {
    if FindById(docs, Oid(blogId)).None? {
      assert forall d :: d in docs ==> d.id != Oid(blogId);
    } else {
      assert FindById(docs, Oid(blogId)).value in docs;
    }
  }

  /** `ObjectId` reads hex digits in either case, so two spellings of an id
      that differ only in case find the same blog, pass the same guards and
      fail the same way. */
  lemma LookupIgnoresCase(docs: seq<Doc>, a: string, b: string, user: CurrentUser)
    requires Lower(a) == Lower(b)
    ensures Lookup(docs, a) == Lookup(docs, b)
    ensures Authorize(docs, a, user) == Authorize(docs, b, user)
    ensures AuthorizeOwner(docs, a, user) == AuthorizeOwner(docs, b, user)
  {
    assert |a| == |Lower(a)| == |b|;
    forall i | 0 <= i < |a|
      ensures IsHexDigit(a[i]) <==> IsHexDigit(b[i])
    {
      assert Lower(a)[i] == Lower(b)[i];
      HexDigitLower(a[i]);
      HexDigitLower(b[i]);
    }
  }

  /** Lower-casing a character keeps it a hex digit, or not one. */
  lemma HexDigitLower(c: char)
    ensures IsHexDigit(c) <==> IsHexDigit(LowerChar(c))
  {
  }

  /** An upper-case spelling of a stored id finds that blog. */
  lemma UpperCaseIdFindsBlog(docs: seq<Doc>, a: string)
    requires IsObjectId(a) && FindById(docs, Lower(a)).Some?
    ensures Lookup(docs, a).Ok? && Lookup(docs, a).value.id == Lower(a)
  {
  }

  /** The guard of request_publish: only the owner, with no admin exemption. */
  function AuthorizeOwner(docs: seq<Doc>, blogId: string, user: CurrentUser): Result<Doc, HttpError> {
    match Lookup(docs, blogId)
    case Err(e) => Err(e)
    case Ok(b) => if !OwnerIs(b.data, user.id) then Err(HttpError(403, "Not allowed")) else Ok(b)
  }

  // ------------------------------------------------ writes

  const Review: string := "admin_review"

  /** The `$set` of request_publish. */
  function PublishRequestSet(now: nat): seq<(string, Value)> {
    [("status", VStr(StatusName(Pending))), ("updated_at", VTime(now)),
     (Dotted(Review, "requested_at"), VTime(now)), (Dotted(Review, "feedback"), VStr(""))]
  }

  /** The `$set` of update_blog. */
  function ContentSet(meta: BlogMeta, finalBlog: FinalBlog, now: nat): seq<(string, Value)> {
    [("meta", MetaValue(meta)), ("final_blog", FinalBlogValue(finalBlog)), ("updated_at", VTime(now))]
  }

  /** The outcome of request_publish and the collection after it. */
  function RequestPublishResult(docs: seq<Doc>, blogId: string, user: CurrentUser, now: nat)
    : (Result<Data, HttpError>, seq<Doc>)
  {
    match AuthorizeOwner(docs, blogId, user)
    case Err(e) => (Err(e), docs)
    case Ok(b) =>
      if StatusText(b.data) == Some(VStr("published")) then (Err(HttpError(400, "Already published")), docs)
      else (Ok(map["ok" := VBool(true), "status" := VStr("pending")]),
            UpdateById(docs, Oid(blogId), PublishRequestSet(now)))
  }

  /** The embedded review record's entries, `{}` when it is missing or not a map. */
  function ReviewFields(data: Data): map<string, Value> {
    if Review in data && data[Review].VMap? then data[Review].fields else map[]
  }

  /** Setting `admin_review.x` rewrites that one entry of the review record. */
  lemma SetReviewField(data: Data, x: string, v: Value)
    requires '.' !in x
    ensures SetPath(data, Dotted(Review, x), v) == data[Review := VMap(ReviewFields(data)[x := v])]
  {
    HeadTail(Review, x);
  }

  /** Writing a top-level field other than the review record leaves the
      review record's entries alone. */
  lemma ReviewFieldsKept(data: Data, k: string, v: Value)
    requires k != Review
    ensures ReviewFields(data[k := v]) == ReviewFields(data)
  {
    assert Review in data[k := v] <==> Review in data;
  }

  /** Setting an undotted field rewrites that field alone. */
  lemma SetTopField(data: Data, k: string, v: Value)
    requires '.' !in k
    ensures SetPath(data, k, v) == data[k := v]
  {
  }

  /** A `$set` whose first entry is the review sub-field `x`. */
  lemma ReviewStep(data: Data, x: string, v: Value, rest: seq<(string, Value)>)
    requires '.' !in x
    ensures ApplySet(data, [(Dotted(Review, x), v)] + rest)
         == ApplySet(data[Review := VMap(ReviewFields(data)[x := v])], rest)
  {
    ApplySetCons(data, (Dotted(Review, x), v), rest);
    SetReviewField(data, x, v);
  }

  /** A `$set` whose first entry is the undotted field `k`. */
  lemma TopStep(data: Data, k: string, v: Value, rest: seq<(string, Value)>)
    requires '.' !in k
    ensures ApplySet(data, [(k, v)] + rest) == ApplySet(data[k := v], rest)
  {
    ApplySetCons(data, (k, v), rest);
  }

  /** What request_publish's `$set` makes of a stored blog. */
  lemma {:induction false} PublishRequestApplied(data: Data, now: nat)
    ensures ApplySet(data, PublishRequestSet(now))
         == data["status" := VStr("pending")]["updated_at" := VTime(now)]
                [Review := VMap(ReviewFields(data)["requested_at" := VTime(now)]["feedback" := VStr("")])]
  {
    assert '.' !in "status" && '.' !in "updated_at" && '.' !in "requested_at" && '.' !in "feedback";
    var s3 := [(Dotted(Review, "feedback"), VStr(""))] + [];
    var s2 := [(Dotted(Review, "requested_at"), VTime(now))] + s3;
    var s1 := [("updated_at", VTime(now))] + s2;
    assert PublishRequestSet(now) == [("status", VStr("pending"))] + s1;
    TopStep(data, "status", VStr("pending"), s1);
    var d1 := data["status" := VStr("pending")];
    TopStep(d1, "updated_at", VTime(now), s2);
    var d2 := d1["updated_at" := VTime(now)];
    ReviewFieldsKept(data, "status", VStr("pending"));
    ReviewFieldsKept(d1, "updated_at", VTime(now));
    ReviewStep(d2, "requested_at", VTime(now), s3);
    ReviewStepOn(d2, ReviewFields(data)["requested_at" := VTime(now)], "feedback", VStr(""), []);
  }

  /** A review sub-field set on a blog whose review record is `g`. */
  lemma ReviewStepOn(data: Data, g: map<string, Value>, x: string, v: Value, rest: seq<(string, Value)>)
    requires '.' !in x
    ensures ApplySet(data[Review := VMap(g)], [(Dotted(Review, x), v)] + rest)
         == ApplySet(data[Review := VMap(g[x := v])], rest)
  {
    var d := data[Review := VMap(g)];
    ReviewStep(d, x, v, rest);
    assert ReviewFields(d) == g;
    assert d[Review := VMap(g[x := v])] == data[Review := VMap(g[x := v])];
  }

  /** Requesting publication of a blog in any state but published makes it
      pending with the request time set and the feedback cleared; the rest of
      the review record, the content, the owner and published_at stay. */
  lemma PublishRequestEffect(data: Data, now: nat, r: AdminReview)
    requires StoredReview(data) == Some(r)
    ensures var after := ApplySet(data, PublishRequestSet(now));
            StatusText(after) == Some(VStr("pending"))
            && StoredReview(after) == Some(r.(requestedAt := Some(now), feedback := ""))
            && forall k :: k in data && k !in {"status", "updated_at", "admin_review"} ==> k in after && after[k] == data[k]
  {
    PublishRequestApplied(data, now);
  }

  /** The `$set` of update_blog replaces meta and final_blog and stamps updated_at. */
  lemma {:induction false} ContentSetApplied(data: Data, meta: BlogMeta, finalBlog: FinalBlog, now: nat)
    ensures ApplySet(data, ContentSet(meta, finalBlog, now))
         == data["meta" := MetaValue(meta)]["final_blog" := FinalBlogValue(finalBlog)]["updated_at" := VTime(now)]
  {
    var ups := ContentSet(meta, finalBlog, now);
    assert '.' !in "meta" && '.' !in "final_blog" && '.' !in "updated_at";
    SetTopField(data, "meta", MetaValue(meta));
    var d1 := data["meta" := MetaValue(meta)];
    SetTopField(d1, "final_blog", FinalBlogValue(finalBlog));
    var d2 := d1["final_blog" := FinalBlogValue(finalBlog)];
    SetTopField(d2, "updated_at", VTime(now));
    calc {
      ApplySet(data, ups);
      ApplySet(d1, ups[1..]);
      { assert ups[1..][1..] == ups[2..]; }
      ApplySet(d2, ups[2..]);
      { assert ups[2..][1..] == []; }
      d2["updated_at" := VTime(now)];
    }
  }

  /** Editing a blog replaces its content and bumps updated_at; its status,
      review record, owner and timestamps of creation and publication stay. */
  lemma UpdateKeepsStatus(data: Data, meta: BlogMeta, finalBlog: FinalBlog, now: nat)
    ensures var after := ApplySet(data, ContentSet(meta, finalBlog, now));
            "meta" in after && "final_blog" in after && "updated_at" in after
            && after["meta"] == MetaValue(meta) && after["final_blog"] == FinalBlogValue(finalBlog)
            && after["updated_at"] == VTime(now)
            && StatusText(after) == StatusText(data) && StoredReview(after) == StoredReview(data)
            && forall k :: k in data && k !in {"meta", "final_blog", "updated_at"} ==> k in after && after[k] == data[k]
  {
    ContentSetApplied(data, meta, finalBlog, now);
  }

  /** request_publish on the collection: it succeeds exactly for the owner
      of an existing blog that is not yet published (an admin who does not
      own it is refused), leaves the collection alone on every error, and
      otherwise leaves that blog pending. */
  lemma RequestPublishOutcome(docs: seq<Doc>, blogId: string, user: CurrentUser, now: nat)
    ensures var (r, after) := RequestPublishResult(docs, blogId, user, now);
            (r.Ok? <==> IsObjectId(blogId) && FindById(docs, Oid(blogId)).Some?
                        && OwnerIs(FindById(docs, Oid(blogId)).value.data, user.id)
                        && StatusText(FindById(docs, Oid(blogId)).value.data) != Some(VStr("published")))
            && (r.Err? ==> after == docs)
            && (r.Ok? ==> FindById(after, Oid(blogId)).Some?
                          && StatusText(FindById(after, Oid(blogId)).value.data) == Some(VStr("pending")))
  {
    var (r, after) := RequestPublishResult(docs, blogId, user, now);
    if r.Ok? {
      var b := FindById(docs, Oid(blogId)).value;
      FindByIdAfterUpdate(docs, Oid(blogId), PublishRequestSet(now), Oid(blogId));
      PublishRequestApplied(b.data, now);
    }
  }

  // ------------------------------------------------ listing

  /** Python truthiness of a stored value. */
  predicate PyTruthy(v: Value) {
    match v
    case VNull => false
    case VBool(b) => b
    case VInt(i) => i != 0
    case VTime(_) => true
    case VStr(s) => s != ""
    case VList(items) => items != []
    case VMap(fields) => fields != map[]
  }

  /** `(d.get(k) or {})` read as a dict: `{}` when the entry is missing, falsy
      or not a dict. */
  function DictAt(d: map<string, Value>, k: string): map<string, Value> {
    if k in d && d[k].VMap? then d[k].fields else map[]
  }

  /** `d.get(k, default)`. */
  function GetOr(d: map<string, Value>, k: string, default: Value): Value {
    if k in d then d[k] else default
  }

  /** The listed title: meta.title when truthy, else final_blog.render.title, else "". */
  function ListTitle(data: Data): Value {
    var metaTitle := GetOr(DictAt(data, "meta"), "title", VStr(""));
    if PyTruthy(metaTitle) then metaTitle
    else GetOr(DictAt(DictAt(data, "final_blog"), "render"), "title", VStr(""))
  }

  /** One item of list_my_blogs. */
  function BlogItem(b: Doc): (r: Data)
    ensures r.Keys == {"id", "title", "language", "tone", "creativity", "created_by", "created_at", "status"}
  {
    var meta := DictAt(b.data, "meta");
    map[
      "id" := VStr(b.id),
      "title" := ListTitle(b.data),
      "language" := GetOr(meta, "language", VStr("English")),
      "tone" := GetOr(meta, "tone", VStr("")),
      "creativity" := GetOr(meta, "creativity", VStr("")),
      "created_by" := GetOr(b.data, "owner_name", VStr("")),
      "created_at" := GetOr(b.data, "created_at", VNull),
      "status" := GetOr(b.data, "status", VStr("saved"))]
  }

  function BlogItems(docs: seq<Doc>): (r: seq<Data>)
    ensures |r| == |docs| && forall i :: 0 <= i < |docs| ==> r[i] == BlogItem(docs[i])
  {
    seq(|docs|, i requires 0 <= i < |docs| => BlogItem(docs[i]))
  }

  /** The loop of list_my_blogs over the cursor. */
  method ToBlogItems(cursor: seq<Doc>) returns (items: seq<Data>)
    ensures items == BlogItems(cursor)
  {
    items := [];
    for i := 0 to |cursor|
      invariant items == BlogItems(cursor[..i])
    {
      items := items + [BlogItem(cursor[i])];
    }
    assert cursor[..|cursor|] == cursor;
  }

  /** A saved blog is listed under its meta title, or its rendered title when
      the meta title is empty, in English, with its author's name and status
      "saved". */
  lemma ListedNewBlog(id: string, user: CurrentUser, meta: BlogMeta, finalBlog: FinalBlog, now: nat)
    requires ValidMeta(meta)
    ensures var item := BlogItem(NewBlogRecord(id, user, meta, finalBlog, now));
            item["title"] == VStr(if meta.title != "" then meta.title else finalBlog.render.title)
            && item["language"] == VStr("English") && item["tone"] == VStr(meta.tone)
            && item["created_by"] == VStr(user.name) && item["status"] == VStr("saved")
            && item["created_at"] == VTime(now)
  {
    NewBlogEntries(id, user, meta, finalBlog, now);
    MetaEntries(meta);
    RenderEntries(finalBlog);
    ItemFromEntries(NewBlogRecord(id, user, meta, finalBlog, now), MetaValue(meta).fields,
                    RenderValue(finalBlog.render).fields);
  }

  lemma NewBlogEntries(id: string, user: CurrentUser, meta: BlogMeta, finalBlog: FinalBlog, now: nat)
    ensures var data := NewBlogRecord(id, user, meta, finalBlog, now).data;
            "meta" in data && data["meta"] == MetaValue(meta)
            && "final_blog" in data && data["final_blog"] == FinalBlogValue(finalBlog)
            && "owner_name" in data && data["owner_name"] == VStr(user.name)
            && "status" in data && data["status"] == VStr("saved")
            && "created_at" in data && data["created_at"] == VTime(now)
  {
  }

  lemma MetaEntries(meta: BlogMeta)
    ensures MetaValue(meta).VMap?
    ensures var m := MetaValue(meta).fields;
            "language" in m && m["language"] == VStr(meta.language)
            && "tone" in m && m["tone"] == VStr(meta.tone) && "title" in m && m["title"] == VStr(meta.title)
  {
  }

  lemma RenderEntries(f: FinalBlog)
    ensures FinalBlogValue(f).VMap? && "render" in FinalBlogValue(f).fields
    ensures FinalBlogValue(f).fields["render"] == RenderValue(f.render)
    ensures RenderValue(f.render).VMap?
    ensures "title" in RenderValue(f.render).fields && RenderValue(f.render).fields["title"] == VStr(f.render.title)
  {
  }

  /** The item of a blog whose meta and rendered blog are `m` and `r`. */
  lemma ItemFromEntries(b: Doc, m: map<string, Value>, r: map<string, Value>)
    requires "meta" in b.data && b.data["meta"] == VMap(m)
    requires "final_blog" in b.data && b.data["final_blog"].VMap?
    requires "render" in b.data["final_blog"].fields && b.data["final_blog"].fields["render"] == VMap(r)
    ensures var item := BlogItem(b);
            item["title"] == (if "title" in m && PyTruthy(m["title"]) then m["title"]
                              else GetOr(r, "title", VStr("")))
            && item["language"] == GetOr(m, "language", VStr("English"))
            && item["tone"] == GetOr(m, "tone", VStr(""))
            && item["created_by"] == GetOr(b.data, "owner_name", VStr(""))
            && item["status"] == GetOr(b.data, "status", VStr("saved"))
            && item["created_at"] == GetOr(b.data, "created_at", VNull)
  {
  }

  /** A stored blog without any title, status or meta still lists: under ""
      with status "saved" and language "English". */
  lemma ListedBareBlog(b: Doc)
    requires b.data.Keys !! {"meta", "final_blog", "status", "owner_name"}
    ensures var item := BlogItem(b);
            item["title"] == VStr("") && item["status"] == VStr("saved")
            && item["language"] == VStr("English") && item["created_by"] == VStr("")
  {
  }

  /** `{"owner_id": uid}`. */
  function OwnerFilter(uid: string): Filter {
    map["owner_id" := VStr(uid)]
  }

  /** `{"owner_id": uid, "status": status}`. */
  function OwnerStatusFilter(uid: string, status: string): Filter {
    map["owner_id" := VStr(uid), "status" := VStr(status)]
  }

  lemma OwnerFilterMeaning(uid: string, data: Data)
    ensures MongoMatches(data, OwnerFilter(uid)) <==> OwnerIs(data, uid)
  {
    assert OwnerFilter(uid).Keys == {"owner_id"};
  }

  lemma OwnerStatusFilterMeaning(uid: string, status: string, data: Data)
    ensures MongoMatches(data, OwnerStatusFilter(uid, status))
        <==> OwnerIs(data, uid) && StatusText(data) == Some(VStr(status))
  {
    var q := OwnerStatusFilter(uid, status);
    assert q.Keys == {"owner_id", "status"};
    assert CondMatches(data, q) <==>
           FieldMatches(data, "owner_id", q["owner_id"]) && FieldMatches(data, "status", q["status"]);
  }

  // ------------------------------------------------ stats

  /** The answer of blog_stats. */
  datatype Stats = Stats(totalBlogs: nat, savedBlogs: nat, pendingBlogs: nat, publishedBlogs: nat, generatedImages: nat)

  /** Three mutually exclusive selections of the documents a fourth selects
      together hold no more documents than it. */
  lemma {:induction false} DisjointCounts(docs: seq<Doc>, all: Doc -> bool, a: Doc -> bool, b: Doc -> bool, c: Doc -> bool)
    requires forall d :: a(d) ==> all(d)
    requires forall d :: b(d) ==> all(d)
    requires forall d :: c(d) ==> all(d)
    requires forall d :: !(a(d) && b(d)) && !(a(d) && c(d)) && !(b(d) && c(d))
    ensures |Keep(docs, a)| + |Keep(docs, b)| + |Keep(docs, c)| <= |Keep(docs, all)|
  {
    if docs != [] {
      DisjointCounts(docs[..|docs| - 1], all, a, b, c);
    }
  }

  /** The saved, pending and published counts never exceed the total. */
  lemma StatsBounded(docs: seq<Doc>, uid: string)
    ensures CountDocuments(docs, OwnerStatusFilter(uid, "saved"))
          + CountDocuments(docs, OwnerStatusFilter(uid, "pending"))
          + CountDocuments(docs, OwnerStatusFilter(uid, "published"))
         <= CountDocuments(docs, OwnerFilter(uid))
  {
    var all := (d: Doc) => MongoMatches(d.data, OwnerFilter(uid));
    var saved := (d: Doc) => MongoMatches(d.data, OwnerStatusFilter(uid, "saved"));
    var pending := (d: Doc) => MongoMatches(d.data, OwnerStatusFilter(uid, "pending"));
    var published := (d: Doc) => MongoMatches(d.data, OwnerStatusFilter(uid, "published"));
    forall d: Doc
      ensures (saved(d) ==> all(d)) && (pending(d) ==> all(d)) && (published(d) ==> all(d))
      ensures !(saved(d) && pending(d)) && !(saved(d) && published(d)) && !(pending(d) && published(d))
    {
      OwnerFilterMeaning(uid, d.data);
      OwnerStatusFilterMeaning(uid, "saved", d.data);
      OwnerStatusFilterMeaning(uid, "pending", d.data);
      OwnerStatusFilterMeaning(uid, "published", d.data);
    }
    DisjointCounts(docs, all, saved, pending, published);
  }

  /** The generated-images filter of blog_stats. */
  function GeneratedImagesFilter(uid: string): Filter {
    map["owner_id" := VStr(uid),
        OrKey := VList([ImagesRouter.NanoOnly, ImagesRouter.SourceNotExists, ImagesRouter.SourceIsNone])]
  }

  /** The generated-images count is the total the images listing reports for
      source "nano": the caller's images whose source is "nano", missing or null. */
  lemma GeneratedImagesAreNanoListing(uid: string, data: Data)
    ensures GeneratedImagesFilter(uid) == ImagesRouter.ListFilter(uid, Some("nano"))
    ensures MongoMatches(data, GeneratedImagesFilter(uid))
        <==> OwnerIs(data, uid) && ("source" !in data || data["source"] in {VStr("nano"), VNull})
  {
    ImagesRouter.ListFilterMeaning(uid, Some("nano"), data);
  }

  // ------------------------------------------------ the collection

  /** The blogs collection. */
  class BlogCollection {
    var docs: seq<Doc>

    constructor(docs: seq<Doc>)
      ensures this.docs == docs
    {
      this.docs := docs;
    }

    /** blogs.py save_blog; `id` and `now` are the id the store assigns and the clock. */
    method SaveBlog(user: CurrentUser, meta: BlogMeta, finalBlog: FinalBlog, id: string, now: nat)
      returns (response: Data)
      modifies this
      ensures docs == old(docs) + [NewBlogRecord(id, user, meta, finalBlog, now)]
      ensures response == map["blog_id" := VStr(id), "status" := VStr("saved")]
    {
      docs := docs + [NewBlogRecord(id, user, meta, finalBlog, now)];
      response := map["blog_id" := VStr(id), "status" := VStr("saved")];
    }

    /** blogs.py list_my_blogs: the caller's total and one page, newest first. */
    method ListMyBlogs(user: CurrentUser, page: nat, limit: nat) returns (items: seq<Data>, total: nat)
      requires page >= 1 && 5 <= limit <= 50
      ensures total == CountDocuments(docs, OwnerFilter(user.id))
      ensures items == BlogItems(FindNewestFirst(docs, OwnerFilter(user.id), PageSkip(page, limit), limit))
      ensures |items| <= limit
    {
      var skip := (page - 1) * limit;
      var q := OwnerFilter(user.id);
      total := CountDocuments(docs, q);
      var cursor := FindNewestFirst(docs, q, skip, limit);
      FindNewestFirstProps(docs, q, skip, limit);
      items := ToBlogItems(cursor);
    }

    /** blogs.py blog_stats over this collection and the images collection. */
    method BlogStats(user: CurrentUser, images: ImagesRouter.ImageCollection) returns (stats: Stats)
      ensures stats.totalBlogs == CountDocuments(docs, OwnerFilter(user.id))
      ensures stats.savedBlogs == CountDocuments(docs, OwnerStatusFilter(user.id, "saved"))
      ensures stats.pendingBlogs == CountDocuments(docs, OwnerStatusFilter(user.id, "pending"))
      ensures stats.publishedBlogs == CountDocuments(docs, OwnerStatusFilter(user.id, "published"))
      ensures stats.savedBlogs + stats.pendingBlogs + stats.publishedBlogs <= stats.totalBlogs
      ensures stats.generatedImages == CountDocuments(images.docs, ImagesRouter.ListFilter(user.id, Some("nano")))
    {
      var total := CountDocuments(docs, OwnerFilter(user.id));
      var saved := CountDocuments(docs, OwnerStatusFilter(user.id, "saved"));
      var pending := CountDocuments(docs, OwnerStatusFilter(user.id, "pending"));
      var published := CountDocuments(docs, OwnerStatusFilter(user.id, "published"));
      var generated := CountDocuments(images.docs, GeneratedImagesFilter(user.id));
      StatsBounded(docs, user.id);
      GeneratedImagesAreNanoListing(user.id, map[]);
      stats := Stats(total, saved, pending, published, generated);
    }

    /** blogs.py get_blog: the stored blog with its id, under the guard. */
    method GetBlog(blogId: string, user: CurrentUser) returns (r: Result<Data, HttpError>)
      ensures r.Ok? <==> Authorize(docs, blogId, user).Ok?
      ensures r.Ok? ==> r.value == Item(Authorize(docs, blogId, user).value)
      ensures r.Err? ==> r.error == Authorize(docs, blogId, user).error
    {
      var b := Authorize(docs, blogId, user);
      if b.Err? {
        r := Err(b.error);
      } else {
        r := Ok(Item(b.value));
      }
    }

    /** blogs.py delete_blog. */
    method DeleteBlog(blogId: string, user: CurrentUser) returns (r: Result<Data, HttpError>)
      modifies this
      ensures r.Ok? <==> old(Authorize(docs, blogId, user)).Ok?
      ensures r.Err? ==> r.error == old(Authorize(docs, blogId, user)).error && docs == old(docs)
      ensures r.Ok? ==> docs == DeleteById(old(docs), Oid(blogId)) && r.value == map["ok" := VBool(true)]
    {
      var b := Authorize(docs, blogId, user);
      if b.Err? {
        r := Err(b.error);
      } else {
        docs := DeleteById(docs, Oid(blogId));
        r := Ok(map["ok" := VBool(true)]);
      }
    }

    /** blogs.py update_blog. */
    method UpdateBlog(blogId: string, user: CurrentUser, meta: BlogMeta, finalBlog: FinalBlog, now: nat)
      returns (r: Result<Data, HttpError>)
      modifies this
      ensures r.Ok? <==> old(Authorize(docs, blogId, user)).Ok?
      ensures r.Err? ==> r.error == old(Authorize(docs, blogId, user)).error && docs == old(docs)
      ensures r.Ok? ==> docs == UpdateById(old(docs), Oid(blogId), ContentSet(meta, finalBlog, now))
                        && r.value == map["ok" := VBool(true), "blog_id" := VStr(blogId)]
    {
      var b := Authorize(docs, blogId, user);
      if b.Err? {
        r := Err(b.error);
      } else {
        docs := UpdateById(docs, Oid(blogId), ContentSet(meta, finalBlog, now));
        r := Ok(map["ok" := VBool(true), "blog_id" := VStr(blogId)]);
      }
    }

    /** blogs.py request_publish. */
    method RequestPublish(blogId: string, user: CurrentUser, now: nat) returns (r: Result<Data, HttpError>)
      modifies this
      ensures (r, docs) == RequestPublishResult(old(docs), blogId, user, now)
    {
      var b := AuthorizeOwner(docs, blogId, user);
      if b.Err? {
        r := Err(b.error);
      } else if StatusText(b.value.data) == Some(VStr("published")) {
        r := Err(HttpError(400, "Already published"));
      } else {
        docs := UpdateById(docs, Oid(blogId), PublishRequestSet(now));
        r := Ok(map["ok" := VBool(true), "status" := VStr("pending")]);
      }
    }
  }

  /** Deleting removes exactly the blog with that id. */
  lemma DeleteRemovesOnlyThatBlog(docs: seq<Doc>, id: string)
    ensures forall d :: d in DeleteById(docs, id) <==> d in docs && d.id != id
  {
    KeepMembers(docs, (d: Doc) => d.id != id);
  }

  /** Updating a blog leaves its status as it was and every other blog alone. */
  lemma UpdateBlogKeepsStatus(docs: seq<Doc>, id: string, meta: BlogMeta, finalBlog: FinalBlog, now: nat, x: string)
    requires FindById(docs, id).Some?
    ensures var after := UpdateById(docs, id, ContentSet(meta, finalBlog, now));
            FindById(after, id).Some?
            && StatusText(FindById(after, id).value.data) == StatusText(FindById(docs, id).value.data)
            && "final_blog" in FindById(after, id).value.data
            && FindById(after, id).value.data["final_blog"] == FinalBlogValue(finalBlog)
            && (x != id ==> FindById(after, x) == FindById(docs, x))
  {
    FindByIdAfterUpdate(docs, id, ContentSet(meta, finalBlog, now), id);
    FindByIdAfterUpdate(docs, id, ContentSet(meta, finalBlog, now), x);
    UpdateKeepsStatus(FindById(docs, id).value.data, meta, finalBlog, now);
  }
}
