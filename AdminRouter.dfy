/** The admin routes: listing blogs by review status, and approving or
    rejecting a blog. Every route first requires the caller to be an admin.
    Approval and rejection are `$set` writes to the stored blog's status and
    review record. The clock is the parameter `now`: the two or three reads
    a route makes of it are all given that one instant. */
module AdminRouter {
  import opened Common
  import opened Values
  import opened FirestoreDb
  import opened Collection
  import opened Schemas
  import opened BlogsRouter

  /** The admin dependency: 403 "Admin only" for anyone whose role is not "admin". */
  function RequireAdmin(user: CurrentUser): (r: Result<CurrentUser, HttpError>)
    ensures r.Ok? <==> user.role == "admin"
    ensures r.Ok? ==> r.value == user
    ensures r.Err? ==> r.error == HttpError(403, "Admin only")
  {
    if user.role != "admin" then Err(HttpError(403, "Admin only")) else Ok(user)
  }

  // ------------------------------------------------ listing

  /** `{"status": status}`. */
  function StatusFilter(status: string): Filter {
    map["status" := VStr(status)]
  }

  lemma StatusFilterMeaning(status: string, data: Data)
    ensures MongoMatches(data, StatusFilter(status)) <==> StatusText(data) == Some(VStr(status))
  {
    assert StatusFilter(status).Keys == {"status"};
  }

  /** The status the admin listing shows when the client names none. */
  function ListedStatus(status: Option<string>): string {
    if status.Some? then status.value else StatusName(Pending)
  }

  /** One item of the admin listing; a missing status shows as "". */
  function AdminItem(b: Doc): (r: Data)
    ensures r.Keys == {"id", "title", "created_by", "created_at", "status"}
  {
    map[
      "id" := VStr(b.id),
      "title" := ListTitle(b.data),
      "created_by" := GetOr(b.data, "owner_name", VStr("")),
      "created_at" := GetOr(b.data, "created_at", VNull),
      "status" := GetOr(b.data, "status", VStr(""))]
  }

  function AdminItems(docs: seq<Doc>): (r: seq<Data>)
    ensures |r| == |docs| && forall i :: 0 <= i < |docs| ==> r[i] == AdminItem(docs[i])
  {
    seq(|docs|, i requires 0 <= i < |docs| => AdminItem(docs[i]))
  }

  /** The loop of list_blogs_for_admin over the cursor. */
  method ToAdminItems(cursor: seq<Doc>) returns (items: seq<Data>)
    ensures items == AdminItems(cursor)
  {
    items := [];
    for i := 0 to |cursor|
      invariant items == AdminItems(cursor[..i])
    {
      items := items + [AdminItem(cursor[i])];
    }
    assert cursor[..|cursor|] == cursor;
  }

  /** The answer of list_blogs_for_admin. */
  datatype Listing = Listing(items: seq<Data>, page: nat, limit: nat, total: nat)

  /** admin.py list_blogs_for_admin: blogs with the requested status
      ("pending" by default), newest first, one page of them. */
  method ListBlogsForAdmin(store: BlogCollection, user: CurrentUser, status: Option<string>, page: nat, limit: nat)
    returns (r: Result<Listing, HttpError>)
    requires page >= 1 && 5 <= limit <= 50
    ensures r.Err? <==> RequireAdmin(user).Err?
    ensures r.Err? ==> r.error == HttpError(403, "Admin only")
    ensures r.Ok? ==>
              var q := StatusFilter(ListedStatus(status));
              r.value == Listing(AdminItems(FindNewestFirst(store.docs, q, PageSkip(page, limit), limit)),
                                 page, limit, CountDocuments(store.docs, q))
              && |r.value.items| <= limit
  {
    var admin := RequireAdmin(user);
    if admin.Err? {
      r := Err(admin.error);
      return;
    }
    var skip := (page - 1) * limit;
    var q := StatusFilter(if status.Some? then status.value else "pending");
    var total := CountDocuments(store.docs, q);
    var cursor := FindNewestFirst(store.docs, q, skip, limit);
    FindNewestFirstProps(store.docs, q, skip, limit);
    var items := ToAdminItems(cursor);
    r := Ok(Listing(items, page, limit, total));
  }

  /** Every blog the admin listing shows has the requested status, and its
      item says so. */
  lemma AdminListingHasStatus(docs: seq<Doc>, status: Option<string>, skip: nat, limit: nat, b: Doc)
    requires b in FindNewestFirst(docs, StatusFilter(ListedStatus(status)), skip, limit)
    ensures b in docs && StatusText(b.data) == Some(VStr(ListedStatus(status)))
    ensures AdminItem(b)["status"] == VStr(ListedStatus(status))
    ensures status.None? ==> StatusText(b.data) == Some(VStr("pending"))
  {
    FindNewestFirstProps(docs, StatusFilter(ListedStatus(status)), skip, limit);
    StatusFilterMeaning(ListedStatus(status), b.data);
  }

  // ------------------------------------------------ approve and reject

  /** The `$set` of approve_blog. */
  function ApproveSet(admin: CurrentUser, now: nat): seq<(string, Value)> {
    [("status", VStr(StatusName(Published))), ("updated_at", VTime(now)), ("published_at", VTime(now)),
     (Dotted(Review, "reviewed_at"), VTime(now)), (Dotted(Review, "reviewed_by"), VStr(admin.id)),
     (Dotted(Review, "reviewed_by_name"), VStr(admin.name))]
  }

  /** The `$set` of reject_blog. */
  function RejectSet(admin: CurrentUser, feedback: string, now: nat): seq<(string, Value)> {
    [("status", VStr(StatusName(Rejected))), ("updated_at", VTime(now)),
     (Dotted(Review, "reviewed_at"), VTime(now)), (Dotted(Review, "reviewed_by"), VStr(admin.id)),
     (Dotted(Review, "reviewed_by_name"), VStr(admin.name)), (Dotted(Review, "feedback"), VStr(feedback))]
  }

  /** The three review entries both decisions write. */
  function Reviewed(fields: map<string, Value>, admin: CurrentUser, now: nat): map<string, Value> {
    fields["reviewed_at" := VTime(now)]["reviewed_by" := VStr(admin.id)]["reviewed_by_name" := VStr(admin.name)]
  }

  /** The three review entries of a decision, followed by `rest`. */
  function ReviewedSet(admin: CurrentUser, now: nat): seq<(string, Value)> {
    [(Dotted(Review, "reviewed_at"), VTime(now)), (Dotted(Review, "reviewed_by"), VStr(admin.id)),
     (Dotted(Review, "reviewed_by_name"), VStr(admin.name))]
  }

  /** Applying the three review entries of a decision to a blog. */
  lemma ReviewedApplied(data: Data, admin: CurrentUser, now: nat, rest: seq<(string, Value)>)
    ensures ApplySet(data, ReviewedSet(admin, now) + rest)
         == ApplySet(data[Review := VMap(Reviewed(ReviewFields(data), admin, now))], rest)
  {
    assert '.' !in "reviewed_at" && '.' !in "reviewed_by" && '.' !in "reviewed_by_name";
    ThreeReviewSteps(data, "reviewed_at", VTime(now), "reviewed_by", VStr(admin.id),
                     "reviewed_by_name", VStr(admin.name), rest);
  }

  /** Three review sub-fields set one after the other. */
  lemma ThreeReviewSteps(data: Data, x: string, vx: Value, y: string, vy: Value, z: string, vz: Value,
                         rest: seq<(string, Value)>)
    requires '.' !in x && '.' !in y && '.' !in z
    ensures ApplySet(data, [(Dotted(Review, x), vx), (Dotted(Review, y), vy), (Dotted(Review, z), vz)] + rest)
         == ApplySet(data[Review := VMap(ReviewFields(data)[x := vx][y := vy][z := vz])], rest)
  {
    var f := ReviewFields(data);
    var s3 := [(Dotted(Review, z), vz)] + rest;
    var s2 := [(Dotted(Review, y), vy)] + s3;
    assert [(Dotted(Review, x), vx), (Dotted(Review, y), vy), (Dotted(Review, z), vz)] + rest
        == [(Dotted(Review, x), vx)] + s2;
    ReviewStep(data, x, vx, s2);
    ReviewStepOn(data, f[x := vx], y, vy, s3);
    ReviewStepOn(data, f[x := vx][y := vy], z, vz, rest);
  }

  /** What approve_blog's `$set` makes of a stored blog. */
  lemma ApproveApplied(data: Data, admin: CurrentUser, now: nat)
    ensures ApplySet(data, ApproveSet(admin, now))
         == data["status" := VStr("published")]["updated_at" := VTime(now)]["published_at" := VTime(now)]
                [Review := VMap(Reviewed(ReviewFields(data), admin, now))]
  {
    var r := ReviewedSet(admin, now) + [];
    var d1 := data["status" := VStr("published")];
    var d2 := d1["updated_at" := VTime(now)];
    var d3 := d2["published_at" := VTime(now)];
    calc {
      ApplySet(data, ApproveSet(admin, now));
      { assert ApproveSet(admin, now)
            == [("status", VStr("published"))] + ([("updated_at", VTime(now))] + ([("published_at", VTime(now))] + r)); }
      ApplySet(data, [("status", VStr("published"))] + ([("updated_at", VTime(now))] + ([("published_at", VTime(now))] + r)));
      { TopStep(data, "status", VStr("published"), [("updated_at", VTime(now))] + ([("published_at", VTime(now))] + r)); }
      ApplySet(d1, [("updated_at", VTime(now))] + ([("published_at", VTime(now))] + r));
      { TopStep(d1, "updated_at", VTime(now), [("published_at", VTime(now))] + r); }
      ApplySet(d2, [("published_at", VTime(now))] + r);
      { TopStep(d2, "published_at", VTime(now), r); }
      ApplySet(d3, r);
      { ReviewedApplied(d3, admin, now, []);
        ReviewFieldsKept(data, "status", VStr("published"));
        ReviewFieldsKept(d1, "updated_at", VTime(now));
        ReviewFieldsKept(d2, "published_at", VTime(now)); }
      ApplySet(d3[Review := VMap(Reviewed(ReviewFields(data), admin, now))], []);
    }
  }

  /** What reject_blog's `$set` makes of a stored blog. */
  lemma RejectApplied(data: Data, admin: CurrentUser, feedback: string, now: nat)
    ensures ApplySet(data, RejectSet(admin, feedback, now))
         == data["status" := VStr("rejected")]["updated_at" := VTime(now)]
                [Review := VMap(Reviewed(ReviewFields(data), admin, now)["feedback" := VStr(feedback)])]
  {
    var fb := [(Dotted(Review, "feedback"), VStr(feedback))];
    var d1 := data["status" := VStr("rejected")];
    var d2 := d1["updated_at" := VTime(now)];
    var d3 := d2[Review := VMap(Reviewed(ReviewFields(data), admin, now))];
    calc {
      ApplySet(data, RejectSet(admin, feedback, now));
      { assert RejectSet(admin, feedback, now)
            == [("status", VStr("rejected"))] + ([("updated_at", VTime(now))] + (ReviewedSet(admin, now) + fb)); }
      ApplySet(data, [("status", VStr("rejected"))] + ([("updated_at", VTime(now))] + (ReviewedSet(admin, now) + fb)));
      { TopStep(data, "status", VStr("rejected"), [("updated_at", VTime(now))] + (ReviewedSet(admin, now) + fb)); }
      ApplySet(d1, [("updated_at", VTime(now))] + (ReviewedSet(admin, now) + fb));
      { TopStep(d1, "updated_at", VTime(now), ReviewedSet(admin, now) + fb); }
      ApplySet(d2, ReviewedSet(admin, now) + fb);
      { ReviewedApplied(d2, admin, now, fb);
        ReviewFieldsKept(data, "status", VStr("rejected"));
        ReviewFieldsKept(d1, "updated_at", VTime(now)); }
      ApplySet(d3, fb);
      { ReviewStep(d3, "feedback", VStr(feedback), []); }
      ApplySet(d3[Review := VMap(ReviewFields(d3)["feedback" := VStr(feedback)])], []);
    }
  }

  /** Approval publishes the blog whatever its status was: published_at and
      the reviewing admin are recorded, the feedback and request time stay, and so
      do its content and owner. */
  lemma ApproveEffect(data: Data, admin: CurrentUser, now: nat, r: AdminReview)
    requires StoredReview(data) == Some(r)
    ensures var after := ApplySet(data, ApproveSet(admin, now));
            StatusText(after) == Some(VStr("published"))
            && "published_at" in after && after["published_at"] == VTime(now)
            && StoredReview(after)
               == Some(r.(reviewedAt := Some(now), reviewedBy := Some(admin.id), reviewedByName := Some(admin.name)))
            && forall k :: k in data && k !in {"status", "updated_at", "published_at", "admin_review"}
                 ==> k in after && after[k] == data[k]
  {
    ApproveApplied(data, admin, now);
  }

  /** Rejection records the reviewing admin and the feedback and makes the blog
      rejected; published_at, the request time, the content and the owner
      stay as they were. */
  lemma RejectEffect(data: Data, admin: CurrentUser, feedback: string, now: nat, r: AdminReview)
    requires StoredReview(data) == Some(r)
    ensures var after := ApplySet(data, RejectSet(admin, feedback, now));
            StatusText(after) == Some(VStr("rejected"))
            && StoredReview(after)
               == Some(r.(reviewedAt := Some(now), reviewedBy := Some(admin.id), reviewedByName := Some(admin.name),
                          feedback := feedback))
            && ("published_at" in after <==> "published_at" in data)
            && forall k :: k in data && k !in {"status", "updated_at", "admin_review"}
                 ==> k in after && after[k] == data[k]
  {
    RejectApplied(data, admin, feedback, now);
  }

  /** The outcome of a decision and the collection after it: 403 for a
      non-admin, 400 for a malformed id, 404 for a missing blog. */
  function DecideResult(docs: seq<Doc>, blogId: string, user: CurrentUser, updates: seq<(string, Value)>, status: string)
    : (Result<Data, HttpError>, seq<Doc>)
  {
    if RequireAdmin(user).Err? then (Err(RequireAdmin(user).error), docs)
    else
      match Lookup(docs, blogId)
      case Err(e) => (Err(e), docs)
      case Ok(_) => (Ok(map["ok" := VBool(true), "status" := VStr(status)]), UpdateById(docs, Oid(blogId), updates))
  }

  /** approve_blog. */
  method ApproveBlog(store: BlogCollection, blogId: string, user: CurrentUser, now: nat)
    returns (r: Result<Data, HttpError>)
    modifies store
    ensures (r, store.docs) == DecideResult(old(store.docs), blogId, user, ApproveSet(user, now), "published")
  {
    var admin := RequireAdmin(user);
    if admin.Err? {
      r := Err(admin.error);
      return;
    }
    var b := Lookup(store.docs, blogId);
    if b.Err? {
      r := Err(b.error);
      return;
    }
    store.docs := UpdateById(store.docs, Oid(blogId), ApproveSet(admin.value, now));
    r := Ok(map["ok" := VBool(true), "status" := VStr("published")]);
  }

  /** reject_blog; `feedback or ""` is the feedback itself for a string. */
  method RejectBlog(store: BlogCollection, blogId: string, user: CurrentUser, feedback: string, now: nat)
    returns (r: Result<Data, HttpError>)
    modifies store
    ensures (r, store.docs) == DecideResult(old(store.docs), blogId, user, RejectSet(user, feedback, now), "rejected")
  {
    var admin := RequireAdmin(user);
    if admin.Err? {
      r := Err(admin.error);
      return;
    }
    var b := Lookup(store.docs, blogId);
    if b.Err? {
      r := Err(b.error);
      return;
    }
    store.docs := UpdateById(store.docs, Oid(blogId), RejectSet(admin.value, feedback, now));
    r := Ok(map["ok" := VBool(true), "status" := VStr("rejected")]);
  }

  /** A decision succeeds exactly for an admin naming an existing blog, in any
      status; on failure nothing changes, and on success the blog takes the
      decided status. */
  lemma DecideOutcome(docs: seq<Doc>, blogId: string, user: CurrentUser, now: nat, feedback: string, approve: bool)
    ensures var updates := if approve then ApproveSet(user, now) else RejectSet(user, feedback, now);
            var status := if approve then "published" else "rejected";
            var (r, after) := DecideResult(docs, blogId, user, updates, status);
            (r.Ok? <==> user.role == "admin" && IsObjectId(blogId) && FindById(docs, Oid(blogId)).Some?)
            && (r.Err? ==> after == docs && r.error.status in {400, 403, 404})
            && (r.Ok? ==> FindById(after, Oid(blogId)).Some?
                          && StatusText(FindById(after, Oid(blogId)).value.data) == Some(VStr(status)))
  {
    var updates := if approve then ApproveSet(user, now) else RejectSet(user, feedback, now);
    var status := if approve then "published" else "rejected";
    var (r, after) := DecideResult(docs, blogId, user, updates, status);
    if r.Ok? {
      var b := FindById(docs, Oid(blogId)).value;
      FindByIdAfterUpdate(docs, Oid(blogId), updates, Oid(blogId));
      DecidedStatus(b.data, user, feedback, now, approve);
    }
  }

  /** Either decision leaves the blog in the decided status. */
  lemma DecidedStatus(data: Data, user: CurrentUser, feedback: string, now: nat, approve: bool)
    ensures var updates := if approve then ApproveSet(user, now) else RejectSet(user, feedback, now);
            StatusText(ApplySet(data, updates)) == Some(VStr(if approve then "published" else "rejected"))
  {
    if approve {
      ApproveApplied(data, user, now);
    } else {
      RejectApplied(data, user, feedback, now);
    }
  }
}
