/** The image gallery routes: saving an image record at most once per
    (owner, image URL), and listing the caller's images filtered by source.

    The listing filter is built in the shapes the document-query adapter
    interprets; besides its meaning under MongoDB semantics, this module
    states what the adapter makes of it. */
module ImagesRouter {
  import opened Common
  import opened Values
  import opened FirestoreDb
  import opened Collection
  import opened Schemas

  // ------------------------------------------------ list filter

  const InNanoBlog: Value := VMap(map["source" := VMap(map["$in" := VList([VStr("nano"), VStr("blog")])])])
  const NanoOnly: Value := VMap(map["source" := VStr("nano")])
  const SourceNotExists: Value := VMap(map["source" := VMap(map["$exists" := VBool(false)])])
  const SourceIsNone: Value := VMap(map["source" := VNull])

  /** list_images's filter `q`: always the caller's id; "ai" and "nano" add an
      `$or`, any other non-empty source an equality on source, and an absent
      or empty source nothing more. */
  function ListFilter(owner: string, source: Option<string>): (q: Filter)
    ensures "owner_id" in q && q["owner_id"] == VStr(owner)
    ensures q.Keys <= {"owner_id", OrKey, "source"}
  {
    var base: Filter := map["owner_id" := VStr(owner)];
    if source.None? || source.value == "" then base
    else if source.value == "ai" then base[OrKey := VList([InNanoBlog, SourceNotExists, SourceIsNone])]
    else if source.value == "nano" then base[OrKey := VList([NanoOnly, SourceNotExists, SourceIsNone])]
    else base["source" := VStr(source.value)]
  }

  /** The source a document must carry to be listed for a requested source,
      stated directly. */
  predicate SourceListed(source: Option<string>, data: Data) {
    var missingOrNull := "source" !in data || data["source"] == VNull;
    if source.None? || source.value == "" then true
    else if source.value == "ai" then missingOrNull || data["source"] in [VStr("nano"), VStr("blog")]
    else if source.value == "nano" then missingOrNull || data["source"] == VStr("nano")
    else "source" in data && data["source"] == VStr(source.value)
  }

  predicate OwnedBy(owner: string, data: Data) {
    "owner_id" in data && data["owner_id"] == VStr(owner)
  }

  /** Under MongoDB semantics the filter selects exactly the caller's images
      whose source the request asks for. */
  lemma ListFilterMeaning(owner: string, source: Option<string>, data: Data)
    ensures MongoMatches(data, ListFilter(owner, source)) <==> OwnedBy(owner, data) && SourceListed(source, data)
  {
    var base: Filter := map["owner_id" := VStr(owner)];
    var q := ListFilter(owner, source);
    if source.None? || source.value == "" {
      assert q == base && q.Keys == {"owner_id"};
      assert CondMatches(data, q) <==> FieldMatches(data, "owner_id", VStr(owner));
    } else if source.value == "ai" {
      OrFilterMeaning(owner, [InNanoBlog, SourceNotExists, SourceIsNone], data);
      OrBranchesMeaning(data, [InNanoBlog, SourceNotExists, SourceIsNone]);
    } else if source.value == "nano" {
      OrFilterMeaning(owner, [NanoOnly, SourceNotExists, SourceIsNone], data);
      OrBranchesMeaning(data, [NanoOnly, SourceNotExists, SourceIsNone]);
      assert NanoOnly.fields["source"] != InNanoBlog.fields["source"];
    } else {
      assert q == base["source" := VStr(source.value)] && q.Keys == {"owner_id", "source"};
      assert CondMatches(data, q) <==>
             FieldMatches(data, "owner_id", VStr(owner)) && FieldMatches(data, "source", VStr(source.value));
    }
  }

  /** The caller's id together with an `$or` list of branches. */
  lemma OrFilterMeaning(owner: string, branches: seq<Value>, data: Data)
    ensures MongoMatches(data, map["owner_id" := VStr(owner)][OrKey := VList(branches)])
        <==> OwnedBy(owner, data) && exists c :: c in branches && c.VMap? && CondMatches(data, c.fields)
  {
    var q := map["owner_id" := VStr(owner)][OrKey := VList(branches)];
    assert q.Keys == {"owner_id", OrKey};
    assert CondMatches(data, q) <==> FieldMatches(data, "owner_id", VStr(owner));
    assert ListItems(q[OrKey]) == branches;
  }

  /** The three-branch `$or` lists of the "ai" and "nano" filters, branch by branch. */
  lemma OrBranchesMeaning(data: Data, branches: seq<Value>)
    requires branches == [InNanoBlog, SourceNotExists, SourceIsNone] || branches == [NanoOnly, SourceNotExists, SourceIsNone]
    ensures (exists c :: c in branches && c.VMap? && CondMatches(data, c.fields))
        <==> ("source" !in data || data["source"] == VNull
              || (branches[0] == InNanoBlog && data["source"] in [VStr("nano"), VStr("blog")])
              || (branches[0] == NanoOnly && data["source"] == VStr("nano")))
  {
    var src := branches[0].fields["source"];
    ThreeBranches(data, branches[0], SourceNotExists, SourceIsNone);
    assert branches == [branches[0], SourceNotExists, SourceIsNone];
    SingleFieldCond(data, "source", src);
    SingleFieldCond(data, "source", SourceNotExists.fields["source"]);
    SingleFieldCond(data, "source", VNull);
    assert FieldMatches(data, "source", SourceNotExists.fields["source"]) <==> "source" !in data;
    if branches[0] == InNanoBlog {
      assert ListItems(src.fields["$in"]) == [VStr("nano"), VStr("blog")];
    }
  }

  /** A condition with a single plain entry holds exactly when that entry does. */
  lemma SingleFieldCond(data: Data, field: string, v: Value)
    requires field != OrKey
    ensures CondMatches(data, map[field := v]) <==> FieldMatches(data, field, v)
  {
    assert field in map[field := v];
  }

  /** An `$or` list of three branches holds exactly when one of them does. */
  lemma ThreeBranches(data: Data, b0: Value, b1: Value, b2: Value)
    ensures (exists c :: c in [b0, b1, b2] && c.VMap? && CondMatches(data, c.fields))
        <==> (b0.VMap? && CondMatches(data, b0.fields))
             || (b1.VMap? && CondMatches(data, b1.fields))
             || (b2.VMap? && CondMatches(data, b2.fields))
  {
    if b0.VMap? && CondMatches(data, b0.fields) {
      assert b0 in [b0, b1, b2];
    } else if b1.VMap? && CondMatches(data, b1.fields) {
      assert b1 in [b0, b1, b2];
    } else if b2.VMap? && CondMatches(data, b2.fields) {
      assert b2 in [b0, b1, b2];
    }
  }

  /** Every filter list_images builds has the `$or` shape the adapter accepts. */
  lemma ListFilterWellShaped(owner: string, source: Option<string>)
    ensures WellShapedOr(ListFilter(owner, source))
  {
    var q := ListFilter(owner, source);
    if OrKey in q {
      assert InOperandIsList(CondFields(InNanoBlog));
      assert InOperandIsList(CondFields(SourceNotExists));
      assert InOperandIsList(CondFields(SourceIsNone));
      assert InOperandIsList(CondFields(NanoOnly));
    }
  }

  /** Handed to the adapter, the "ai" filter selects the same documents as
      under MongoDB semantics (the caller's, with source nano, blog, missing or
      null). */
  lemma AdapterAgreesForAi(stream: seq<Doc>, owner: string, d: Doc)
    requires DistinctIds(stream)
    ensures d in MergedOr(stream, ListFilter(owner, Some("ai")))
        <==> d in stream && MongoMatches(d.data, ListFilter(owner, Some("ai")))
  {
    var q := ListFilter(owner, Some("ai"));
    OrMembership(stream, q, d);
    ListFilterMeaning(owner, Some("ai"), d.data);
    assert OwnerOf(q) == VStr(owner);
    assert OrConditions(q) == [InNanoBlog, SourceNotExists, SourceIsNone];
    AiBranchesAccept(owner, OrConditions(q), d);
  }

  /** The adapter's reading of the "ai" branches: some branch accepts exactly
      the caller's images whose source is nano, blog, missing or null. */
  lemma AiBranchesAccept(owner: string, conds: seq<Value>, d: Doc)
    requires conds == [InNanoBlog, SourceNotExists, SourceIsNone]
    ensures (exists i :: 0 <= i < |conds| && BranchAccepts(VStr(owner), conds[i], d))
        <==> OwnedBy(owner, d.data) && SourceListed(Some("ai"), d.data)
  {
    TopLevelFields(d.data);
    var values := [VStr("nano"), VStr("blog")];
    assert Classify(CondFields(conds[0])) == SourceIn(values);
    assert Classify(CondFields(conds[1])) == SourceAbsent;
    assert Classify(CondFields(conds[2])) == SourceAbsent;
    assert (exists k :: 0 <= k < |values| && FieldValue(d.data, "source") == Some(values[k]))
       <==> "source" in d.data && d.data["source"] in values;
    assert BranchAccepts(VStr(owner), conds[0], d)
       <==> OwnedBy(owner, d.data) && "source" in d.data && d.data["source"] in values;
    assert BranchAccepts(VStr(owner), conds[1], d) <==> OwnedBy(owner, d.data) && SourceMissingOrNull(d);
    assert BranchAccepts(VStr(owner), conds[2], d) <==> OwnedBy(owner, d.data) && SourceMissingOrNull(d);
  }

  /** Handed to the adapter, the "nano" filter loses its first branch (a plain
      source value contributes nothing): an image whose source is "nano"
      matches the filter under MongoDB semantics but is never listed. */
  lemma AdapterDropsNanoImages(stream: seq<Doc>, owner: string, d: Doc)
    requires d in stream && OwnedBy(owner, d.data) && "source" in d.data && d.data["source"] == VStr("nano")
    ensures MongoMatches(d.data, ListFilter(owner, Some("nano")))
    ensures d !in Gather(stream, VStr(owner), OrConditions(ListFilter(owner, Some("nano"))))
  {
    var q := ListFilter(owner, Some("nano"));
    ListFilterMeaning(owner, Some("nano"), d.data);
    assert OrConditions(q) == [NanoOnly, SourceNotExists, SourceIsNone];
    GatherMembers(stream, VStr(owner), OrConditions(q), d);
    NanoBranchesReject(owner, OrConditions(q), d);
  }

  /** The adapter's reading of the "nano" branches: the plain first branch
      accepts nothing, the other two only documents without a source. */
  lemma NanoBranchesReject(owner: string, conds: seq<Value>, d: Doc)
    requires conds == [NanoOnly, SourceNotExists, SourceIsNone]
    ensures (exists i :: 0 <= i < |conds| && BranchAccepts(VStr(owner), conds[i], d))
        <==> OwnedBy(owner, d.data) && SourceMissingOrNull(d)
  {
    TopLevelFields(d.data);
    assert Classify(CondFields(conds[0])) == Ignored;
    assert Classify(CondFields(conds[1])) == SourceAbsent;
    assert Classify(CondFields(conds[2])) == SourceAbsent;
    assert BranchAccepts(VStr(owner), conds[1], d) <==> OwnedBy(owner, d.data) && SourceMissingOrNull(d);
  }

  lemma TopLevelFields(data: Data)
    ensures FieldValue(data, "owner_id") == (if "owner_id" in data then Some(data["owner_id"]) else None)
    ensures FieldValue(data, "source") == (if "source" in data then Some(data["source"]) else None)
  {
    assert "owner_id" == ['o', 'w', 'n', 'e', 'r', '_', 'i', 'd'];
    assert "source" == ['s', 'o', 'u', 'r', 'c', 'e'];
  }

  // ------------------------------------------------ records

  /** `payload.meta or {}`. */
  function MetaOrEmpty(meta: Option<Data>): Data {
    if meta.Some? then meta.value else map[]
  }

  function SourceValue(source: Option<string>): Value {
    if source.Some? then VStr(source.value) else VNull
  }

  /** The record save_image would insert. */
  function NewImageRecord(id: string, user: CurrentUser, imageUrl: string, meta: Option<Data>,
                          source: Option<string>, now: nat): (d: Doc)
    ensures OwnedBy(user.id, d.data) && "image_url" in d.data && d.data["image_url"] == VStr(imageUrl)
  {
    Doc(id, map[
      "owner_id" := VStr(user.id),
      "owner_name" := VStr(user.name),
      "image_url" := VStr(imageUrl),
      "meta" := VMap(MetaOrEmpty(meta)),
      "source" := SourceValue(source),
      "created_at" := VTime(now)])
  }

  /** `{"owner_id": ..., "image_url": ...}`: the duplicate check. */
  function SameImage(owner: string, imageUrl: string): Filter {
    map["owner_id" := VStr(owner), "image_url" := VStr(imageUrl)]
  }

  lemma SameImageMeaning(owner: string, imageUrl: string, data: Data)
    ensures MongoMatches(data, SameImage(owner, imageUrl))
        <==> OwnedBy(owner, data) && "image_url" in data && data["image_url"] == VStr(imageUrl)
  {
    var q := SameImage(owner, imageUrl);
    assert q.Keys == {"owner_id", "image_url"};
    assert CondMatches(data, q) <==>
           FieldMatches(data, "owner_id", q["owner_id"]) && FieldMatches(data, "image_url", q["image_url"]);
  }

  /** The collection after save_image: unchanged when the caller already has
      a record with that URL, otherwise with the new record appended. */
  function AfterSave(docs: seq<Doc>, id: string, user: CurrentUser, imageUrl: string,
                     meta: Option<Data>, source: Option<string>, now: nat): seq<Doc>
  {
    if FindOne(docs, SameImage(user.id, imageUrl)).Some? then docs
    else docs + [NewImageRecord(id, user, imageUrl, meta, source, now)]
  }

  /** What save_image answers, whether or not it inserted. */
  function SaveResponse(imageUrl: string, meta: Option<Data>): (r: Data)
    ensures r.Keys == {"image_url", "meta"}
  {
    map["image_url" := VStr(imageUrl), "meta" := VMap(MetaOrEmpty(meta))]
  }

  /** Saving the same image twice stores one record: the second save finds the first. */
  lemma SaveTwiceStoresOnce(docs: seq<Doc>, id1: string, id2: string, user: CurrentUser, imageUrl: string,
                            meta1: Option<Data>, meta2: Option<Data>, source1: Option<string>,
                            source2: Option<string>, now1: nat, now2: nat)
    ensures var once := AfterSave(docs, id1, user, imageUrl, meta1, source1, now1);
            AfterSave(once, id2, user, imageUrl, meta2, source2, now2) == once
  {
    var once := AfterSave(docs, id1, user, imageUrl, meta1, source1, now1);
    var rec := NewImageRecord(id1, user, imageUrl, meta1, source1, now1);
    if once != docs {
      SameImageMeaning(user.id, imageUrl, rec.data);
      assert rec in once;
    }
  }

  /** After a save the caller has exactly one record for the URL if there was
      none, and as many as before otherwise. */
  lemma SaveCount(docs: seq<Doc>, id: string, user: CurrentUser, imageUrl: string,
                  meta: Option<Data>, source: Option<string>, now: nat)
    ensures var q := SameImage(user.id, imageUrl);
            CountDocuments(AfterSave(docs, id, user, imageUrl, meta, source, now), q)
            == if CountDocuments(docs, q) == 0 then 1 else CountDocuments(docs, q)
  {
    var q := SameImage(user.id, imageUrl);
    var p := (d: Doc) => MongoMatches(d.data, q);
    var rec := NewImageRecord(id, user, imageUrl, meta, source, now);
    KeepMembers(docs, p);
    if FindOne(docs, q).Some? {
      assert FindOne(docs, q).value in Keep(docs, p);
    } else {
      SameImageMeaning(user.id, imageUrl, rec.data);
      KeepAppend(docs, rec, p);
      KeepNone(docs, p);
    }
  }

  // ------------------------------------------------ listing

  /** One listed item: `image_url` defaults to "", `meta` to {}, `source`
      and `created_at` to None. */
  function ImageItem(img: Doc): (r: Data)
    ensures r.Keys == {"id", "image_url", "meta", "source", "created_at"}
    ensures r["id"] == VStr(img.id)
    ensures r["image_url"] == (if "image_url" in img.data then img.data["image_url"] else VStr(""))
    ensures r["meta"] == (if "meta" in img.data then img.data["meta"] else VMap(map[]))
    ensures r["source"] == (if "source" in img.data then img.data["source"] else VNull)
  {
    map[
      "id" := VStr(img.id),
      "image_url" := if "image_url" in img.data then img.data["image_url"] else VStr(""),
      "meta" := if "meta" in img.data then img.data["meta"] else VMap(map[]),
      "source" := if "source" in img.data then img.data["source"] else VNull,
      "created_at" := if "created_at" in img.data then img.data["created_at"] else VNull]
  }

  function ImageItems(docs: seq<Doc>): (r: seq<Data>)
    ensures |r| == |docs|
    ensures forall i :: 0 <= i < |docs| ==> r[i] == ImageItem(docs[i])
  {
    seq(|docs|, i requires 0 <= i < |docs| => ImageItem(docs[i]))
  }

  /** The loop of list_images that turns each fetched record into an item. */
  method ToImageItems(cursor: seq<Doc>) returns (items: seq<Data>)
    ensures items == ImageItems(cursor)
  {
    items := [];
    for i := 0 to |cursor|
      invariant items == ImageItems(cursor[..i])
    {
      items := items + [ImageItem(cursor[i])];
    }
    assert cursor[..|cursor|] == cursor;
  }

  /** The images collection. */
  class ImageCollection {
    var docs: seq<Doc>

    constructor(docs: seq<Doc>)
      ensures this.docs == docs
    {
      this.docs := docs;
    }

    /** images.py save_image: inserts unless the caller already saved this URL;
        `id` and `now` stand for the id the store assigns and the clock. */
    method SaveImage(user: CurrentUser, imageUrl: string, meta: Option<Data>, source: Option<string>,
                     id: string, now: nat) returns (response: Data)
      modifies this
      ensures docs == AfterSave(old(docs), id, user, imageUrl, meta, source, now)
      ensures response == SaveResponse(imageUrl, meta)
    {
      var doc := NewImageRecord(id, user, imageUrl, meta, source, now);
      var existing := FindOne(docs, SameImage(user.id, imageUrl));
      if existing.None? {
        docs := docs + [doc];
      }
      response := map["image_url" := VStr(imageUrl), "meta" := VMap(MetaOrEmpty(meta))];
    }

    /** images.py list_images: the total of matching images and one page of
        them, newest first. */
    method ListImages(user: CurrentUser, page: nat, limit: nat, source: Option<string>)
      returns (items: seq<Data>, total: nat)
      requires page >= 1 && 1 <= limit <= 100
      ensures total == CountDocuments(docs, ListFilter(user.id, source))
      ensures items == ImageItems(FindNewestFirst(docs, ListFilter(user.id, source), PageSkip(page, limit), limit))
      ensures |items| <= limit
    {
      var skip := (page - 1) * limit;
      var q := ListFilter(user.id, source);
      total := CountDocuments(docs, q);
      var cursor := FindNewestFirst(docs, q, skip, limit);
      FindNewestFirstProps(docs, q, skip, limit);
      items := ToImageItems(cursor);
    }
  }

  /** Every listed image belongs to the caller and has the requested source. */
  lemma ListedImagesMatch(docs: seq<Doc>, owner: string, source: Option<string>, skip: nat, limit: nat, d: Doc)
    requires d in FindNewestFirst(docs, ListFilter(owner, source), skip, limit)
    ensures d in docs && OwnedBy(owner, d.data) && SourceListed(source, d.data)
  {
    FindNewestFirstProps(docs, ListFilter(owner, source), skip, limit);
    ListFilterMeaning(owner, source, d.data);
  }
}
