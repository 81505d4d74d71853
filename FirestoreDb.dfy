/** The document-query adapter of the CMS backend.

    Callers hand it MongoDB-style filter dictionaries (plain equality entries,
    and for images an `$or` list whose branches use `$in` or `$exists` on the
    `source` field). The document store underneath only understands equality
    predicates, a single `order_by` and a `limit`, so the adapter chains the
    equality entries, paginates by over-fetching, falls back to an in-memory
    sort when the store reports a missing composite index, and emulates `$or`
    by running one sub-query per branch and merging the results by document id.

    The store is a sequence of documents in the order it streams an unordered
    query; what it raises for an ordered query is passed in as `failure`. */
module FirestoreDb {
  import opened Common
  import opened Values

  /** The fields of a stored document. */
  type Data = map<string, Value>

  datatype Doc = Doc(id: string, data: Data)

  /** A filter dictionary as the routers build it. */
  type Filter = map<string, Value>

  /** An exception raised by the store: its type name and its text. */
  datatype Exception = Exception(typeName: string, message: string)

  const OrKey: string := "$or"

  // ------------------------------------------------ documents and id sets

  /** The ids occurring in `docs`. */
  function Ids(docs: seq<Doc>): set<string> {
    if docs == [] then {} else Ids(docs[..|docs| - 1]) + {docs[|docs| - 1].id}
  }

  lemma IdsAppendOne(docs: seq<Doc>, d: Doc)
    ensures Ids(docs + [d]) == Ids(docs) + {d.id}
  {
    assert (docs + [d])[..|docs|] == docs;
  }

  /** An id is in `Ids(docs)` exactly when some document of `docs` carries it. */
  lemma {:induction false} IdsMembers(docs: seq<Doc>, id: string)
    ensures id in Ids(docs) <==> exists i :: 0 <= i < |docs| && docs[i].id == id
  {
    if docs != [] {
      var n := |docs| - 1;
      IdsMembers(docs[..n], id);
      if exists i :: 0 <= i < n && docs[..n][i].id == id {
        var i :| 0 <= i < n && docs[..n][i].id == id;
        assert docs[i].id == id;
      }
      if exists i :: 0 <= i < |docs| && docs[i].id == id {
        var i :| 0 <= i < |docs| && docs[i].id == id;
        if i < n {
          assert docs[..n][i].id == id;
        }
      }
    }
  }

  predicate DistinctIds(docs: seq<Doc>) {
    forall i, j :: 0 <= i < j < |docs| ==> docs[i].id != docs[j].id
  }

  /** The documents of `docs` that satisfy `p`, in their order. */
  function Keep(docs: seq<Doc>, p: Doc -> bool): seq<Doc> {
    if docs == [] then []
    else
      var n := |docs| - 1;
      Keep(docs[..n], p) + (if p(docs[n]) then [docs[n]] else [])
  }

  /** `Keep` returns exactly the documents of `docs` that satisfy `p`, and no more of them. */
  lemma {:induction false} KeepMembers(docs: seq<Doc>, p: Doc -> bool)
    ensures |Keep(docs, p)| <= |docs|
    ensures forall d :: d in Keep(docs, p) <==> d in docs && p(d)
  {
    if docs != [] {
      var n := |docs| - 1;
      KeepMembers(docs[..n], p);
      assert docs == docs[..n] + [docs[n]];
    }
  }

  lemma KeepAppend(docs: seq<Doc>, d: Doc, p: Doc -> bool)
    ensures Keep(docs + [d], p) == Keep(docs, p) + (if p(d) then [d] else [])
  {
    assert (docs + [d])[..|docs|] == docs;
  }

  // ------------------------------------------------ equality predicates

  /** The value a (possibly dotted) field path names in a document: each dot
      steps into a nested map, as the store resolves `a.b` in a filter or an
      `order_by`. */
  function FieldValue(data: Data, path: string): Option<Value>
    decreases |path|
  {
    if '.' in path then
      var i := FirstIndexOf(path, '.');
      if path[..i] in data && data[path[..i]].VMap? then FieldValue(data[path[..i]].fields, path[i + 1..])
      else None
    else if path in data then Some(data[path])
    else None
  }

  /** A document satisfies every `field == value` predicate of `preds`. */
  predicate MatchesAll(d: Doc, preds: Filter) {
    forall field :: field in preds ==> FieldValue(d.data, field) == Some(preds[field])
  }

  /** What streaming a query with the equality predicates `preds` returns. */
  function Matching(stream: seq<Doc>, preds: Filter): seq<Doc> {
    Keep(stream, (d: Doc) => MatchesAll(d, preds))
  }

  lemma MatchingMembers(stream: seq<Doc>, preds: Filter)
    ensures forall d :: d in Matching(stream, preds) <==> d in stream && MatchesAll(d, preds)
  {
    KeepMembers(stream, (d: Doc) => MatchesAll(d, preds));
  }

  /** The equality predicates a filter dictionary becomes: every entry except `$or`. */
  function EqualityPart(f: Filter): (preds: Filter)
    ensures OrKey !in preds
    ensures forall k :: k in f && k != OrKey ==> k in preds && preds[k] == f[k]
    ensures preds.Keys <= f.Keys
  {
    map k | k in f && k != OrKey :: f[k]
  }

  /** Chains one equality predicate per filter entry, skipping `$or`
      (firestore_db.py, the filter loops of query_blogs and count_blogs).
      The dictionary is visited in an unspecified order, which the result
      does not depend on. */
  method ChainFilters(f: Filter) returns (preds: Filter)
    ensures preds == EqualityPart(f)
  {
    preds := map[];
    var remaining := f.Keys;
    while remaining != {}
      invariant remaining <= f.Keys
      invariant preds.Keys == set k | k in f && k !in remaining && k != OrKey
      invariant forall k :: k in preds ==> preds[k] == f[k]
      decreases remaining
    {
      var field :| field in remaining;
      if field != OrKey {
        preds := preds[field := f[field]];
      }
      remaining := remaining - {field};
    }
    assert preds.Keys == EqualityPart(f).Keys;
  }

  // ------------------------------------------------ ordering and paging

  /** Firestore's ordered query: documents lacking the ordered field are not
      returned; the rest come sorted by it, and ties are broken by document
      name in the direction of the sort. An unordered stream lists documents
      in name order, so ascending ties keep stream order and descending ties
      come in reverse stream order. */
  function NativeOrdered(stream: seq<Doc>, preds: Filter, orderBy: string, desc: bool): seq<Doc> {
    var ascending := SortBy(Keep(Matching(stream, preds), (d: Doc) => FieldValue(d.data, orderBy).Some?),
                            (d: Doc) => PathKey(d, orderBy), false);
    if desc then Reverse(ascending) else ascending
  }

  function PathKey(d: Doc, path: string): Value {
    match FieldValue(d.data, path)
    case Some(v) => v
    case None => VNull
  }

  /** `d.to_dict().get(field, datetime.min)`: a top-level lookup only. */
  function TopLevelKey(d: Doc, field: string): Value {
    if field in d.data then d.data[field] else DatetimeMin
  }

  /** The in-memory fallback order: every match, stably sorted by its top-level key. */
  function FallbackOrdered(stream: seq<Doc>, preds: Filter, orderBy: string, desc: bool): seq<Doc> {
    SortBy(Matching(stream, preds), (d: Doc) => TopLevelKey(d, orderBy), desc)
  }

  /** `s[:n]`. */
  function Take(s: seq<Doc>, n: nat): seq<Doc> {
    s[..Min(n, |s|)]
  }

  /** `s[n:]`. */
  function Drop(s: seq<Doc>, n: nat): seq<Doc> {
    s[Min(n, |s|)..]
  }

  /** The page of `s` that starts at `skip` and holds at most `limit` documents. */
  function Page(s: seq<Doc>, skip: nat, limit: nat): (r: seq<Doc>)
    ensures |r| == if skip >= |s| then 0 else Min(limit, |s| - skip)
    ensures forall i :: 0 <= i < |r| ==> r[i] == s[skip + i]
  {
    s[Min(skip, |s|)..Min(skip + limit, |s|)]
  }

  /** The error test that sends a failed ordered query to the in-memory fallback. */
  predicate IndexMissing(e: Exception) {
    Contains(Lower(e.message), "index") || Contains(e.typeName, "FailedPrecondition")
  }

  /** The ordered, paginated fetch shared by query_blogs and the non-`$or`
      path of query_images, as written: over-fetch and drop when `skip > 0`;
      on an index error sort every match in memory; re-raise anything else. */
  function RunOrdered(stream: seq<Doc>, preds: Filter, orderBy: string, direction: string,
                      skip: nat, limit: nat, failure: Option<Exception>): Result<seq<Doc>, Exception>
  {
    var desc := direction == "DESCENDING";
    match failure
    case None =>
      var ordered := NativeOrdered(stream, preds, orderBy, desc);
      if skip > 0 then Ok(Drop(Take(ordered, skip + limit), skip)) else Ok(Take(ordered, limit))
    case Some(e) =>
      if IndexMissing(e) then
        var all := FallbackOrdered(stream, preds, orderBy, desc);
        if skip > 0 then Ok(all[Min(skip, |all|)..Min(skip + limit, |all|)]) else Ok(Take(all, limit))
      else Err(e)
  }

  /** Runs the ordered query against the store and handles its failure
      (firestore_db.py, query_blogs lines 176-203; query_images lines 381-406). */
  method FetchOrdered(stream: seq<Doc>, preds: Filter, orderBy: string, direction: string,
                      skip: nat, limit: nat, failure: Option<Exception>)
    returns (r: Result<seq<Doc>, Exception>)
    ensures r == RunOrdered(stream, preds, orderBy, direction, skip, limit, failure)
  {
    var desc := direction == "DESCENDING";
    var docs: seq<Doc>;
    if failure.None? {
      var ordered := NativeOrdered(stream, preds, orderBy, desc);
      if skip > 0 {
        docs := Take(ordered, skip + limit);
        docs := Drop(docs, skip);
      } else {
        docs := Take(ordered, limit);
      }
    } else if IndexMissing(failure.value) {
      var allDocs := Matching(stream, preds);
      allDocs := SortBy(allDocs, (d: Doc) => TopLevelKey(d, orderBy), desc);
      if skip > 0 {
        docs := allDocs[Min(skip, |allDocs|)..Min(skip + limit, |allDocs|)];
      } else {
        docs := Take(allDocs, limit);
      }
    } else {
      return Err(failure.value);
    }
    r := Ok(docs);
  }

  /** Both pagination branches of each path return the page at `skip` of the
      ordered matches: at most `limit` documents. Errors other than a missing
      index are re-raised unchanged. */
  lemma RunOrderedPages(stream: seq<Doc>, preds: Filter, orderBy: string, direction: string,
                        skip: nat, limit: nat, failure: Option<Exception>)
    ensures var desc := direction == "DESCENDING";
            RunOrdered(stream, preds, orderBy, direction, skip, limit, failure)
            == match failure
               case None => Ok(Page(NativeOrdered(stream, preds, orderBy, desc), skip, limit))
               case Some(e) =>
                 if IndexMissing(e) then Ok(Page(FallbackOrdered(stream, preds, orderBy, desc), skip, limit))
                 else Err(e)
  {
    var desc := direction == "DESCENDING";
    PageForms(NativeOrdered(stream, preds, orderBy, desc), skip, limit);
    PageForms(FallbackOrdered(stream, preds, orderBy, desc), skip, limit);
  }

  /** The three ways the source cuts a page out of a list agree with `Page`. */
  lemma PageForms(s: seq<Doc>, skip: nat, limit: nat)
    ensures Drop(Take(s, skip + limit), skip) == Page(s, skip, limit)
    ensures Take(s, limit) == Page(s, 0, limit)
    ensures s[Min(skip, |s|)..Min(skip + limit, |s|)] == Page(s, skip, limit)
  {
    var t := Take(s, skip + limit);
    assert Drop(t, skip) == Page(s, skip, limit);
  }

  /** Consecutive pages tile the ordered list: page [a, a+b) followed by page
      [a+b, a+b+c) is page [a, a+b+c). */
  lemma PagesTile(s: seq<Doc>, a: nat, b: nat, c: nat)
    ensures Page(s, a, b) + Page(s, a + b, c) == Page(s, a, b + c)
  {
    var lhs := Page(s, a, b) + Page(s, a + b, c);
    var rhs := Page(s, a, b + c);
    assert |lhs| == |rhs|;
    forall i | 0 <= i < |lhs|
      ensures lhs[i] == rhs[i]
    {
      if i >= |Page(s, a, b)| {
        assert lhs[i] == Page(s, a + b, c)[i - |Page(s, a, b)|];
      }
    }
  }

  /** The fallback returns every match exactly once, sorted by the top-level
      key (descending only for "DESCENDING"), with ties in stream order. */
  lemma FallbackSortsAllMatches(stream: seq<Doc>, preds: Filter, orderBy: string, desc: bool, v: Value)
    ensures var all := FallbackOrdered(stream, preds, orderBy, desc);
            var key := (d: Doc) => TopLevelKey(d, orderBy);
            && multiset(all) == multiset(Matching(stream, preds))
            && SortedBy(all, key, desc)
            && Ties(all, key, v) == Ties(Matching(stream, preds), key, v)
  {
    var key := (d: Doc) => TopLevelKey(d, orderBy);
    SortByCorrect(Matching(stream, preds), key, desc);
    SortByStable(Matching(stream, preds), key, desc, v);
  }

  /** The native query leaves out matches that lack the ordered field; the
      fallback keeps them (they sort as `datetime.min`). */
  lemma NativeOmitsDocsWithoutField(stream: seq<Doc>, preds: Filter, orderBy: string, desc: bool, d: Doc)
    requires d in Matching(stream, preds) && FieldValue(d.data, orderBy).None?
    ensures d !in NativeOrdered(stream, preds, orderBy, desc)
    ensures d in FallbackOrdered(stream, preds, orderBy, desc)
  {
    var has := (x: Doc) => FieldValue(x.data, orderBy).Some?;
    var kept := Keep(Matching(stream, preds), has);
    var key := (x: Doc) => PathKey(x, orderBy);
    SortByCorrect(kept, key, false);
    ReverseSorted(SortBy(kept, key, false), key);
    KeepMembers(Matching(stream, preds), has);
    assert d !in multiset(kept);
    SortByCorrect(Matching(stream, preds), (x: Doc) => TopLevelKey(x, orderBy), desc);
    assert d in multiset(Matching(stream, preds));
  }

  /** When `order_by` is a plain top-level field that every match carries,
      the ascending fallback returns exactly what the native query would. */
  lemma FallbackAgreesWithNative(stream: seq<Doc>, preds: Filter, orderBy: string)
    requires '.' !in orderBy
    requires forall d :: d in Matching(stream, preds) ==> orderBy in d.data
    ensures FallbackOrdered(stream, preds, orderBy, false) == NativeOrdered(stream, preds, orderBy, false)
  {
    var matches := Matching(stream, preds);
    var has := (x: Doc) => FieldValue(x.data, orderBy).Some?;
    KeepAll(matches, has);
    SortBySameKeys(matches, (x: Doc) => TopLevelKey(x, orderBy), (x: Doc) => PathKey(x, orderBy), false);
  }

  /** Descending, under the same conditions, both orders hold the same
      documents sorted the same way, but every group of documents with equal
      keys comes in opposite orders: stream order from the fallback's stable
      sort, reverse stream order from the native query. */
  lemma FallbackReversesNativeDescendingTies(stream: seq<Doc>, preds: Filter, orderBy: string, v: Value)
    requires '.' !in orderBy
    requires forall d :: d in Matching(stream, preds) ==> orderBy in d.data
    ensures var key := (d: Doc) => TopLevelKey(d, orderBy);
            var native := NativeOrdered(stream, preds, orderBy, true);
            var fallback := FallbackOrdered(stream, preds, orderBy, true);
            && multiset(native) == multiset(fallback)
            && SortedBy(native, key, true)
            && SortedBy(fallback, key, true)
            && Ties(native, key, v) == Reverse(Ties(fallback, key, v))
  {
    var matches := Matching(stream, preds);
    var has := (x: Doc) => FieldValue(x.data, orderBy).Some?;
    var key := (d: Doc) => TopLevelKey(d, orderBy);
    KeepAll(matches, has);
    SortBySameKeys(matches, key, (x: Doc) => PathKey(x, orderBy), false);
    var ascending := SortBy(matches, key, false);
    SortByCorrect(matches, key, false);
    ReverseSorted(ascending, key);
    TiesReverse(ascending, key, v);
    SortByStable(matches, key, false, v);
    SortByCorrect(matches, key, true);
    SortByStable(matches, key, true, v);
  }

  lemma {:induction false} KeepAll(docs: seq<Doc>, p: Doc -> bool)
    requires forall d :: d in docs ==> p(d)
    ensures Keep(docs, p) == docs
  {
    if docs != [] {
      var n := |docs| - 1;
      KeepAll(docs[..n], p);
      assert docs == docs[..n] + [docs[n]];
    }
  }

  lemma {:induction false} KeepNone(docs: seq<Doc>, p: Doc -> bool)
    requires forall d :: d in docs ==> !p(d)
    ensures Keep(docs, p) == []
  {
    if docs != [] {
      var n := |docs| - 1;
      KeepNone(docs[..n], p);
      assert docs[n] in docs;
    }
  }

  /** With a dotted `order_by` such as "admin_review.requested_at" and no
      top-level field of that literal name, every fallback key is
      `datetime.min`, so the fallback returns the matches in stream order. */
  lemma DottedFallbackKeepsStreamOrder(stream: seq<Doc>, preds: Filter, orderBy: string, desc: bool)
    requires forall d :: d in Matching(stream, preds) ==> orderBy !in d.data
    ensures FallbackOrdered(stream, preds, orderBy, desc) == Matching(stream, preds)
  {
    var matches := Matching(stream, preds);
    var key := (x: Doc) => TopLevelKey(x, orderBy);
    SortByStable(matches, key, desc, DatetimeMin);
    SortByCorrect(matches, key, desc);
    var sorted := SortBy(matches, key, desc);
    forall d | d in multiset(sorted)
      ensures KeyEquiv(key(d), DatetimeMin)
    {
      assert d in matches;
    }
    TiesAll(matches, key, DatetimeMin);
    TiesAll(sorted, key, DatetimeMin);
  }

  lemma {:induction false} TiesAll(s: seq<Doc>, key: Doc -> Value, v: Value)
    requires forall d :: d in multiset(s) ==> KeyEquiv(key(d), v)
    ensures Ties(s, key, v) == s
  {
    if s != [] {
      assert s[0] in multiset(s);
      assert s == [s[0]] + s[1..];
      TiesAll(s[1..], key, v);
    }
  }

  // ------------------------------------------------ result items

  /** `data = doc.to_dict(); data['id'] = doc.id`. */
  function Item(d: Doc): (r: Data)
    ensures r.Keys == d.data.Keys + {"id"}
    ensures r["id"] == VStr(d.id)
    ensures forall k :: k in d.data && k != "id" ==> r[k] == d.data[k]
  {
    d.data["id" := VStr(d.id)]
  }

  function Items(docs: seq<Doc>): (r: seq<Data>)
    ensures |r| == |docs|
    ensures forall i :: 0 <= i < |docs| ==> r[i] == Item(docs[i])
  {
    seq(|docs|, i requires 0 <= i < |docs| => Item(docs[i]))
  }

  /** The item list the query functions build from the fetched documents. */
  method ToItems(docs: seq<Doc>) returns (items: seq<Data>)
    ensures items == Items(docs)
  {
    items := [];
    for i := 0 to |docs|
      invariant items == Items(docs[..i])
    {
      items := items + [Item(docs[i])];
    }
    assert docs[..|docs|] == docs;
  }

  function ItemsOf(r: Result<seq<Doc>, Exception>): Result<seq<Data>, Exception> {
    match r
    case Ok(docs) => Ok(Items(docs))
    case Err(e) => Err(e)
  }

  // ------------------------------------------------ blogs

  /** What query_blogs returns: `$or` is ignored, every other entry is an equality predicate. */
  function BlogsQuery(stream: seq<Doc>, f: Filter, orderBy: string, direction: string,
                      skip: nat, limit: nat, failure: Option<Exception>): Result<seq<Data>, Exception>
  {
    ItemsOf(RunOrdered(stream, EqualityPart(f), orderBy, direction, skip, limit, failure))
  }

  /** firestore_db.py query_blogs. */
  method QueryBlogs(stream: seq<Doc>, f: Filter, orderBy: string, direction: string,
                    skip: nat, limit: nat, failure: Option<Exception>)
    returns (r: Result<seq<Data>, Exception>)
    ensures r == BlogsQuery(stream, f, orderBy, direction, skip, limit, failure)
  {
    var preds := ChainFilters(f);
    var docs := FetchOrdered(stream, preds, orderBy, direction, skip, limit, failure);
    if docs.Err? {
      return Err(docs.error);
    }
    var items := ToItems(docs.value);
    r := Ok(items);
  }

  /** firestore_db.py count_blogs: the number of documents matching the non-`$or` entries. */
  method CountBlogs(stream: seq<Doc>, f: Filter) returns (n: nat)
    ensures n == |Matching(stream, EqualityPart(f))|
  {
    var preds := ChainFilters(f);
    var docs := Matching(stream, preds);
    n := |docs|;
  }

  /** Blog listings and counts depend only on the non-`$or` entries: adding,
      changing or removing `$or` changes neither. */
  lemma BlogsIgnoreOr(stream: seq<Doc>, f: Filter, v: Value, orderBy: string, direction: string,
                      skip: nat, limit: nat, failure: Option<Exception>)
    ensures BlogsQuery(stream, f[OrKey := v], orderBy, direction, skip, limit, failure)
         == BlogsQuery(stream, f - {OrKey}, orderBy, direction, skip, limit, failure)
    ensures Matching(stream, EqualityPart(f[OrKey := v])) == Matching(stream, EqualityPart(f - {OrKey}))
  {
    assert EqualityPart(f[OrKey := v]) == EqualityPart(f - {OrKey});
  }

  /** A blog count equals the number of documents an unpaginated listing sees
      when it runs through the in-memory fallback. */
  lemma CountBlogsMatchesFallbackListing(stream: seq<Doc>, f: Filter, orderBy: string, direction: string, e: Exception)
    requires IndexMissing(e)
    ensures var n := |Matching(stream, EqualityPart(f))|;
            var r := BlogsQuery(stream, f, orderBy, direction, 0, n, Some(e));
            r.Ok? && |r.value| == n
  {
    var preds := EqualityPart(f);
    var desc := direction == "DESCENDING";
    SortByCorrect(Matching(stream, preds), (d: Doc) => TopLevelKey(d, orderBy), desc);
  }

  // ------------------------------------------------ images: `$or` emulation

  /** `query_filters.get('owner_id')`. */
  function OwnerOf(f: Filter): Value {
    if "owner_id" in f then f["owner_id"] else VNull
  }

  /** `data.get('source') is None or 'source' not in data`. */
  predicate SourceMissingOrNull(d: Doc) {
    "source" !in d.data || d.data["source"] == VNull
  }

  function ListItems(v: Value): seq<Value> {
    if v.VList? then v.items else []
  }

  function CondFields(cond: Value): map<string, Value> {
    if cond.VMap? then cond.fields else map[]
  }

  /** The `$or` shape the routers build: a list of dictionaries whose `$in`
      operands are lists. */
  predicate WellShapedOr(f: Filter) {
    OrKey in f ==>
      f[OrKey].VList?
      && forall c :: c in f[OrKey].items ==> c.VMap? && InOperandIsList(c.fields)
  }

  predicate InOperandIsList(cond: map<string, Value>) {
    ("source" in cond && cond["source"].VMap? && "$in" in cond["source"].fields)
    ==> cond["source"].fields["$in"].VList?
  }

  /** How the adapter reads one `$or` branch. */
  datatype Branch =
    | SourceIn(values: seq<Value>)   // source: {"$in": [...]}: one sub-query per value
    | SourceAbsent                   // source: {"$exists": _}, None, or no source key
    | Ignored                        // any other source value

  function Classify(cond: map<string, Value>): Branch {
    if "source" in cond && cond["source"] != VNull then
      var sv := cond["source"];
      if sv.VMap? && "$in" in sv.fields then SourceIn(ListItems(sv.fields["$in"]))
      else if sv.VMap? && "$exists" in sv.fields then SourceAbsent
      else Ignored
    else SourceAbsent
  }

  function OwnerSourcePreds(owner: Value, source: Value): Filter {
    map["owner_id" := owner, "source" := source]
  }

  /** The concatenated results of the `owner_id == owner and source == v`
      sub-queries, one per value in order. */
  function InFetch(stream: seq<Doc>, owner: Value, values: seq<Value>): seq<Doc> {
    if values == [] then []
    else
      var n := |values| - 1;
      InFetch(stream, owner, values[..n]) + Matching(stream, OwnerSourcePreds(owner, values[n]))
  }

  /** The owner's documents whose source is missing or null. */
  function OwnerDocsWithoutSource(stream: seq<Doc>, owner: Value): seq<Doc> {
    Keep(Matching(stream, map["owner_id" := owner]), SourceMissingOrNull)
  }

  /** The documents one branch contributes, before de-duplication. */
  function BranchFetch(stream: seq<Doc>, owner: Value, cond: Value): seq<Doc> {
    match Classify(CondFields(cond))
    case SourceIn(values) => InFetch(stream, owner, values)
    case SourceAbsent => OwnerDocsWithoutSource(stream, owner)
    case Ignored => []
  }

  /** All branch contributions, in branch order. */
  function Gather(stream: seq<Doc>, owner: Value, conds: seq<Value>): seq<Doc> {
    if conds == [] then []
    else
      var n := |conds| - 1;
      Gather(stream, owner, conds[..n]) + BranchFetch(stream, owner, conds[n])
  }

  /** Keeps the first document seen for each id. */
  function Dedup(s: seq<Doc>): seq<Doc> {
    if s == [] then []
    else
      var n := |s| - 1;
      var prefix := Dedup(s[..n]);
      if s[n].id in Ids(prefix) then prefix else prefix + [s[n]]
  }

  /** De-duplication keeps every id, drops repeated ids and adds no document. */
  lemma {:induction false} DedupProps(s: seq<Doc>)
    ensures Ids(Dedup(s)) == Ids(s)
    ensures DistinctIds(Dedup(s))
    ensures forall d :: d in Dedup(s) ==> d in s
  {
    if s != [] {
      var n := |s| - 1;
      var prefix := Dedup(s[..n]);
      DedupProps(s[..n]);
      assert s == s[..n] + [s[n]];
      IdsAppendOne(s[..n], s[n]);
      if s[n].id !in Ids(prefix) {
        IdsAppendOne(prefix, s[n]);
        forall i | 0 <= i < |prefix|
          ensures prefix[i].id != s[n].id
        {
          IdsMembers(prefix, prefix[i].id);
        }
      }
    }
  }

  lemma DedupAppend(s: seq<Doc>, d: Doc)
    ensures Dedup(s + [d]) == if d.id in Ids(Dedup(s)) then Dedup(s) else Dedup(s) + [d]
  {
    assert (s + [d])[..|s|] == s;
  }

  function OrConditions(f: Filter): seq<Value> {
    if OrKey in f then ListItems(f[OrKey]) else []
  }

  /** The merged `$or` result before sorting. */
  function MergedOr(stream: seq<Doc>, f: Filter): seq<Doc> {
    Dedup(Gather(stream, OwnerOf(f), OrConditions(f)))
  }

  /** `d.to_dict().get('created_at', datetime.min)`. */
  function CreatedAt(d: Doc): Value {
    TopLevelKey(d, "created_at")
  }

  /** The page the `$or` path returns: newest `created_at` first, whatever the
      requested order. */
  function OrPage(stream: seq<Doc>, f: Filter, skip: nat, limit: nat): seq<Doc> {
    Page(SortBy(MergedOr(stream, f), CreatedAt, true), skip, limit)
  }

  /** Appends, in order, the documents of `docs` that pass `keep` and whose
      id has not been seen yet (the inner loops of the `$or` branches). */
  method AppendUnseen(acc: seq<Doc>, accIds: set<string>, docs: seq<Doc>, keep: Doc -> bool,
                      ghost gathered: seq<Doc>)
    returns (merged: seq<Doc>, seen: set<string>)
    requires acc == Dedup(gathered) && accIds == Ids(acc)
    ensures merged == Dedup(gathered + Keep(docs, keep))
    ensures seen == Ids(merged)
  {
    merged, seen := acc, accIds;
    ghost var kept: seq<Doc> := [];
    ghost var visited := gathered;
    assert gathered + kept == gathered;
    for j := 0 to |docs|
      invariant kept == Keep(docs[..j], keep)
      invariant visited == gathered + kept
      invariant merged == Dedup(visited) && seen == Ids(merged)
    {
      var doc := docs[j];
      KeepStep(docs, j, keep);
      if keep(doc) {
        DedupStep(merged, seen, visited, doc);
        if doc.id !in seen {
          merged := merged + [doc];
          seen := seen + {doc.id};
        }
        assert visited + [doc] == gathered + (kept + [doc]);
        kept := kept + [doc];
        visited := visited + [doc];
      }
    }
    assert docs[..|docs|] == docs;
  }

  /** One step of the merge loop: an unseen id appends its document, a seen one is skipped. */
  lemma DedupStep(merged: seq<Doc>, seen: set<string>, visited: seq<Doc>, doc: Doc)
    requires merged == Dedup(visited) && seen == Ids(merged)
    ensures Dedup(visited + [doc]) == if doc.id in seen then merged else merged + [doc]
    ensures Ids(Dedup(visited + [doc])) == seen + {doc.id}
  {
    DedupAppend(visited, doc);
    IdsAppendOne(merged, doc);
  }

  function AnyDoc(d: Doc): bool { true }

  lemma GatherAppend(stream: seq<Doc>, owner: Value, conds: seq<Value>, i: nat)
    requires i < |conds|
    ensures Gather(stream, owner, conds[..i + 1]) == Gather(stream, owner, conds[..i]) + BranchFetch(stream, owner, conds[i])
  {
    assert conds[..i + 1][..i] == conds[..i];
  }

  lemma InFetchAppend(stream: seq<Doc>, owner: Value, values: seq<Value>, k: nat)
    requires k < |values|
    ensures InFetch(stream, owner, values[..k + 1])
         == InFetch(stream, owner, values[..k]) + Matching(stream, OwnerSourcePreds(owner, values[k]))
  {
    assert values[..k + 1][..k] == values[..k];
  }

  lemma InFetchStep(stream: seq<Doc>, owner: Value, values: seq<Value>, k: nat, gathered: seq<Doc>)
    requires k < |values|
    ensures gathered + InFetch(stream, owner, values[..k + 1])
         == (gathered + InFetch(stream, owner, values[..k]))
            + Keep(Matching(stream, OwnerSourcePreds(owner, values[k])), AnyDoc)
  {
    InFetchAppend(stream, owner, values, k);
    KeepAll(Matching(stream, OwnerSourcePreds(owner, values[k])), AnyDoc);
  }

  /** One branch of the `$or` loop of query_images (firestore_db.py lines 317-356). */
  method MergeBranch(stream: seq<Doc>, owner: Value, condition: map<string, Value>,
                     acc: seq<Doc>, accIds: set<string>, ghost gathered: seq<Doc>)
    returns (merged: seq<Doc>, seen: set<string>)
    requires InOperandIsList(condition)
    requires acc == Dedup(gathered) && accIds == Ids(acc)
    ensures merged == Dedup(gathered + BranchFetch(stream, owner, VMap(condition)))
    ensures seen == Ids(merged)
  {
    merged, seen := acc, accIds;
    if "source" in condition && condition["source"] != VNull {
      var sourceVal := condition["source"];
      if sourceVal.VMap? && "$in" in sourceVal.fields {
        var values := sourceVal.fields["$in"].items;
        assert Classify(condition) == SourceIn(values);
        merged, seen := MergeInValues(stream, owner, values, merged, seen, gathered);
      } else if sourceVal.VMap? && "$exists" in sourceVal.fields {
        assert Classify(condition) == SourceAbsent;
        var docs := Matching(stream, map["owner_id" := owner]);
        merged, seen := AppendUnseen(merged, seen, docs, SourceMissingOrNull, gathered);
      } else {
        assert Classify(condition) == Ignored;
        assert gathered + [] == gathered;
      }
    } else if "source" !in condition || condition["source"] == VNull {
      assert Classify(condition) == SourceAbsent;
      var docs := Matching(stream, map["owner_id" := owner]);
      merged, seen := AppendUnseen(merged, seen, docs, SourceMissingOrNull, gathered);
    } else {
      assert false;
    }
  }

  /** The `$in` loop: one owner-and-source sub-query per value, in order
      (firestore_db.py lines 321-328). */
  method MergeInValues(stream: seq<Doc>, owner: Value, values: seq<Value>,
                       acc: seq<Doc>, accIds: set<string>, ghost gathered: seq<Doc>)
    returns (merged: seq<Doc>, seen: set<string>)
    requires acc == Dedup(gathered) && accIds == Ids(acc)
    ensures merged == Dedup(gathered + InFetch(stream, owner, values))
    ensures seen == Ids(merged)
  {
    merged, seen := acc, accIds;
    ghost var visited := gathered;
    assert values[..0] == [];
    assert gathered + InFetch(stream, owner, values[..0]) == gathered;
    for k := 0 to |values|
      invariant visited == gathered + InFetch(stream, owner, values[..k])
      invariant merged == Dedup(visited) && seen == Ids(merged)
    {
      var docs := Matching(stream, OwnerSourcePreds(owner, values[k]));
      merged, seen := AppendUnseen(merged, seen, docs, AnyDoc, visited);
      InFetchStep(stream, owner, values, k, gathered);
      visited := visited + Keep(docs, AnyDoc);
    }
    assert values[..|values|] == values;
  }

  /** The branch loop of query_images (firestore_db.py lines 311-356). */
  method MergeOrBranches(stream: seq<Doc>, f: Filter) returns (allDocs: seq<Doc>, seenIds: set<string>)
    requires OrKey in f && WellShapedOr(f)
    ensures allDocs == MergedOr(stream, f)
    ensures seenIds == Ids(allDocs)
  {
    var orConditions := f[OrKey].items;
    var owner := if "owner_id" in f then f["owner_id"] else VNull;
    allDocs, seenIds := [], {};
    ghost var gathered: seq<Doc> := [];
    for i := 0 to |orConditions|
      invariant gathered == Gather(stream, owner, orConditions[..i])
      invariant allDocs == Dedup(gathered) && seenIds == Ids(allDocs)
    {
      assert orConditions[i] in f[OrKey].items;
      var condition := orConditions[i].fields;
      allDocs, seenIds := MergeBranch(stream, owner, condition, allDocs, seenIds, gathered);
      GatherAppend(stream, owner, orConditions, i);
      gathered := gathered + BranchFetch(stream, owner, orConditions[i]);
    }
    assert orConditions[..|orConditions|] == orConditions;
  }

  /** What query_images returns. */
  function ImagesQuery(stream: seq<Doc>, f: Filter, orderBy: string, direction: string,
                       skip: nat, limit: nat, failure: Option<Exception>): Result<seq<Data>, Exception>
  {
    if OrKey in f then Ok(Items(OrPage(stream, f, skip, limit)))
    else ItemsOf(RunOrdered(stream, f, orderBy, direction, skip, limit, failure))
  }

  /** firestore_db.py query_images. */
  method QueryImages(stream: seq<Doc>, f: Filter, orderBy: string, direction: string,
                     skip: nat, limit: nat, failure: Option<Exception>)
    returns (r: Result<seq<Data>, Exception>)
    requires WellShapedOr(f)
    ensures r == ImagesQuery(stream, f, orderBy, direction, skip, limit, failure)
  {
    if OrKey in f {
      var allDocs, _ := MergeOrBranches(stream, f);
      allDocs := SortBy(allDocs, CreatedAt, true);
      if skip > 0 {
        allDocs := Drop(allDocs, skip);
      }
      allDocs := Take(allDocs, limit);
      assert allDocs == OrPage(stream, f, skip, limit);
      var items := ToItems(allDocs);
      return Ok(items);
    } else {
      var preds := ChainFilters(f);
      assert preds == f;
      var docs := FetchOrdered(stream, preds, orderBy, direction, skip, limit, failure);
      if docs.Err? {
        return Err(docs.error);
      }
      var items := ToItems(docs.value);
      r := Ok(items);
    }
  }

  /** Adds the ids of the documents of `docs` that pass `keep` (the inner loops of count_images). */
  method AddIds(acc: set<string>, docs: seq<Doc>, keep: Doc -> bool) returns (seen: set<string>)
    ensures seen == acc + Ids(Keep(docs, keep))
  {
    seen := acc;
    for j := 0 to |docs|
      invariant seen == acc + Ids(Keep(docs[..j], keep))
    {
      ghost var before := Keep(docs[..j], keep);
      KeepStep(docs, j, keep);
      if keep(docs[j]) {
        IdsAppendOne(before, docs[j]);
        seen := seen + {docs[j].id};
        assert seen == acc + Ids(before + [docs[j]]);
      } else {
        assert Keep(docs[..j + 1], keep) == before;
      }
    }
    assert docs[..|docs|] == docs;
  }

  lemma KeepStep(docs: seq<Doc>, j: nat, p: Doc -> bool)
    requires j < |docs|
    ensures Keep(docs[..j + 1], p) == Keep(docs[..j], p) + (if p(docs[j]) then [docs[j]] else [])
  {
    assert docs[..j + 1][..j] == docs[..j];
  }

  lemma {:induction false} IdsAppend(a: seq<Doc>, b: seq<Doc>)
    ensures Ids(a + b) == Ids(a) + Ids(b)
    decreases |b|
  {
    if b != [] {
      var n := |b| - 1;
      assert a + b == (a + b[..n]) + [b[n]];
      IdsAppend(a, b[..n]);
      IdsAppendOne(a + b[..n], b[n]);
    } else {
      assert a + b == a;
    }
  }

  /** One branch of the `$or` loop of count_images (firestore_db.py lines 436-458). */
  method CollectBranchIds(stream: seq<Doc>, owner: Value, condition: map<string, Value>, acc: set<string>)
    returns (seen: set<string>)
    requires InOperandIsList(condition)
    ensures seen == acc + Ids(BranchFetch(stream, owner, VMap(condition)))
  {
    seen := acc;
    if "source" in condition && condition["source"] != VNull {
      var sourceVal := condition["source"];
      if sourceVal.VMap? && "$in" in sourceVal.fields {
        var values := sourceVal.fields["$in"].items;
        assert Classify(condition) == SourceIn(values);
        seen := CollectInValueIds(stream, owner, values, seen);
      } else if sourceVal.VMap? && "$exists" in sourceVal.fields {
        assert Classify(condition) == SourceAbsent;
        var docs := Matching(stream, map["owner_id" := owner]);
        seen := AddIds(seen, docs, SourceMissingOrNull);
      } else {
        assert Classify(condition) == Ignored;
      }
    } else if "source" !in condition || condition["source"] == VNull {
      assert Classify(condition) == SourceAbsent;
      var docs := Matching(stream, map["owner_id" := owner]);
      seen := AddIds(seen, docs, SourceMissingOrNull);
    }
  }

  /** The `$in` loop of count_images (firestore_db.py lines 439-444). */
  method CollectInValueIds(stream: seq<Doc>, owner: Value, values: seq<Value>, acc: set<string>)
    returns (seen: set<string>)
    ensures seen == acc + Ids(InFetch(stream, owner, values))
  {
    seen := acc;
    for k := 0 to |values|
      invariant seen == acc + Ids(InFetch(stream, owner, values[..k]))
    {
      var docs := Matching(stream, OwnerSourcePreds(owner, values[k]));
      KeepAll(docs, AnyDoc);
      seen := AddIds(seen, docs, AnyDoc);
      InFetchAppend(stream, owner, values, k);
      IdsAppend(InFetch(stream, owner, values[..k]), docs);
    }
    assert values[..|values|] == values;
  }

  /** The branch loop of count_images (firestore_db.py lines 432-459). */
  method CollectOrIds(stream: seq<Doc>, f: Filter) returns (seenIds: set<string>)
    requires OrKey in f && WellShapedOr(f)
    ensures seenIds == Ids(Gather(stream, OwnerOf(f), OrConditions(f)))
  {
    var orConditions := f[OrKey].items;
    var owner := if "owner_id" in f then f["owner_id"] else VNull;
    seenIds := {};
    for i := 0 to |orConditions|
      invariant seenIds == Ids(Gather(stream, owner, orConditions[..i]))
    {
      assert orConditions[i] in f[OrKey].items;
      var condition := orConditions[i].fields;
      seenIds := CollectBranchIds(stream, owner, condition, seenIds);
      GatherAppend(stream, owner, orConditions, i);
      IdsAppend(Gather(stream, owner, orConditions[..i]), BranchFetch(stream, owner, orConditions[i]));
    }
    assert orConditions[..|orConditions|] == orConditions;
  }

  /** What count_images returns. */
  function ImagesCount(stream: seq<Doc>, f: Filter): nat {
    if OrKey in f then |Ids(Gather(stream, OwnerOf(f), OrConditions(f)))|
    else |Matching(stream, f)|
  }

  /** firestore_db.py count_images. */
  method CountImages(stream: seq<Doc>, f: Filter) returns (n: nat)
    requires WellShapedOr(f)
    ensures n == ImagesCount(stream, f)
  {
    if OrKey in f {
      var seenIds := CollectOrIds(stream, f);
      n := |seenIds|;
    } else {
      var preds := ChainFilters(f);
      assert preds == f;
      var docs := Matching(stream, preds);
      n := |docs|;
    }
  }

  // ------------------------------------------------ `$or` properties

  lemma {:induction false} DistinctIdsCard(s: seq<Doc>)
    requires DistinctIds(s)
    ensures |Ids(s)| == |s|
  {
    if s != [] {
      var n := |s| - 1;
      DistinctIdsCard(s[..n]);
      IdsMembers(s[..n], s[n].id);
      IdsAppendOne(s[..n], s[n]);
      assert s == s[..n] + [s[n]];
    }
  }

  /** With `$or`, count_images equals the number of distinct documents
      query_images merges before paginating. */
  lemma CountImagesIsMergedSize(stream: seq<Doc>, f: Filter)
    requires OrKey in f
    ensures ImagesCount(stream, f) == |MergedOr(stream, f)|
  {
    DedupProps(Gather(stream, OwnerOf(f), OrConditions(f)));
    DistinctIdsCard(MergedOr(stream, f));
  }

  /** The first document seen with a given id. */
  function FirstWithId(s: seq<Doc>, id: string): Option<Doc> {
    if s == [] then None
    else if s[0].id == id then Some(s[0])
    else FirstWithId(s[1..], id)
  }

  lemma {:induction false} FirstWithIdAppend(s: seq<Doc>, d: Doc, id: string)
    ensures FirstWithId(s + [d], id)
         == if FirstWithId(s, id).Some? then FirstWithId(s, id) else if d.id == id then Some(d) else None
  {
    if s != [] {
      assert (s + [d])[1..] == s[1..] + [d];
      FirstWithIdAppend(s[1..], d, id);
    }
  }

  lemma {:induction false} FirstWithIdIds(s: seq<Doc>, id: string)
    ensures FirstWithId(s, id).Some? <==> id in Ids(s)
  {
    IdsMembers(s, id);
    if s != [] {
      FirstWithIdIds(s[1..], id);
      IdsMembers(s[1..], id);
      if s[0].id != id && exists i :: 0 <= i < |s| && s[i].id == id {
        var i :| 0 <= i < |s| && s[i].id == id;
        assert s[1..][i - 1] == s[i];
      }
      if exists i :: 0 <= i < |s| - 1 && s[1..][i].id == id {
        var i :| 0 <= i < |s| - 1 && s[1..][i].id == id;
        assert s[i + 1] == s[1..][i];
      }
    }
  }

  /** De-duplication keeps, for every id, the first document that carried it. */
  lemma {:induction false} DedupKeepsFirst(s: seq<Doc>)
    ensures forall d :: d in Dedup(s) ==> FirstWithId(s, d.id) == Some(d)
  {
    if s != [] {
      var n := |s| - 1;
      var p, last := s[..n], s[n];
      var q := Dedup(p);
      DedupKeepsFirst(p);
      DedupProps(p);
      assert s == p + [last];
      assert Dedup(s) == if last.id in Ids(q) then q else q + [last];
      forall d | d in Dedup(s)
        ensures FirstWithId(p + [last], d.id) == Some(d)
      {
        FirstWithIdAppend(p, last, d.id);
        if d in q {
          assert FirstWithId(p, d.id) == Some(d);
        } else {
          assert d == last && last.id !in Ids(p);
          FirstWithIdIds(p, d.id);
        }
      }
    }
  }

  /** Results of earlier branches come first: the merge of a prefix of the
      branch results is a prefix of the merge. */
  lemma {:induction false} DedupPrefix(a: seq<Doc>, b: seq<Doc>)
    ensures Dedup(a) <= Dedup(a + b)
    decreases |b|
  {
    if b != [] {
      var n := |b| - 1;
      DedupPrefix(a, b[..n]);
      assert a + b == (a + b[..n]) + [b[n]];
      DedupAppend(a + b[..n], b[n]);
    } else {
      assert a + b == a;
    }
  }

  /** Whether branch `cond` accepts document `d`. */
  predicate BranchAccepts(owner: Value, cond: Value, d: Doc) {
    match Classify(CondFields(cond))
    case SourceIn(values) =>
      FieldValue(d.data, "owner_id") == Some(owner)
      && exists k :: 0 <= k < |values| && FieldValue(d.data, "source") == Some(values[k])
    case SourceAbsent => FieldValue(d.data, "owner_id") == Some(owner) && SourceMissingOrNull(d)
    case Ignored => false
  }

  lemma {:induction false} InFetchMembers(stream: seq<Doc>, owner: Value, values: seq<Value>, d: Doc)
    ensures d in InFetch(stream, owner, values)
        <==> d in stream && FieldValue(d.data, "owner_id") == Some(owner)
             && exists k :: 0 <= k < |values| && FieldValue(d.data, "source") == Some(values[k])
  {
    if values != [] {
      var n := |values| - 1;
      InFetchMembers(stream, owner, values[..n], d);
      OwnerSourceMembers(stream, owner, values[n], d);
      var source := FieldValue(d.data, "source");
      if exists k :: 0 <= k < |values| && source == Some(values[k]) {
        var k :| 0 <= k < |values| && source == Some(values[k]);
        if k < n {
          assert values[..n][k] == values[k];
        }
      }
      if exists k :: 0 <= k < n && source == Some(values[..n][k]) {
        var k :| 0 <= k < n && source == Some(values[..n][k]);
        assert values[k] == values[..n][k];
      }
    }
  }

  /** One `owner_id == owner and source == v` sub-query returns exactly the
      owner's documents with that source. */
  lemma OwnerSourceMembers(stream: seq<Doc>, owner: Value, v: Value, d: Doc)
    ensures d in Matching(stream, OwnerSourcePreds(owner, v))
        <==> d in stream && FieldValue(d.data, "owner_id") == Some(owner)
             && FieldValue(d.data, "source") == Some(v)
  {
    var preds := OwnerSourcePreds(owner, v);
    MatchingMembers(stream, preds);
    assert "owner_id" in preds && "source" in preds;
    assert preds.Keys == {"owner_id", "source"};
    if FieldValue(d.data, "owner_id") == Some(owner) && FieldValue(d.data, "source") == Some(v) {
      assert MatchesAll(d, preds);
    }
  }

  lemma BranchFetchMembers(stream: seq<Doc>, owner: Value, cond: Value, d: Doc)
    ensures d in BranchFetch(stream, owner, cond) <==> d in stream && BranchAccepts(owner, cond, d)
  {
    match Classify(CondFields(cond))
    case SourceIn(values) =>
      InFetchMembers(stream, owner, values, d);
    case SourceAbsent =>
      var preds: Filter := map["owner_id" := owner];
      MatchingMembers(stream, preds);
      KeepMembers(Matching(stream, preds), SourceMissingOrNull);
      assert "owner_id" in preds;
      if FieldValue(d.data, "owner_id") == Some(owner) {
        assert MatchesAll(d, preds);
      }
    case Ignored =>
  }

  lemma {:induction false} GatherMembers(stream: seq<Doc>, owner: Value, conds: seq<Value>, d: Doc)
    ensures d in Gather(stream, owner, conds)
        <==> d in stream && exists i :: 0 <= i < |conds| && BranchAccepts(owner, conds[i], d)
  {
    if conds != [] {
      var n := |conds| - 1;
      GatherMembers(stream, owner, conds[..n], d);
      BranchFetchMembers(stream, owner, conds[n], d);
      assert conds == conds[..n] + [conds[n]];
      AcceptedSplit(owner, conds[..n], conds[n], d);
    }
  }

  /** Some branch of `init + [last]` accepts `d` exactly when one of `init`
      does or `last` does. */
  lemma AcceptedSplit(owner: Value, init: seq<Value>, last: Value, d: Doc)
    ensures (exists i :: 0 <= i < |init + [last]| && BranchAccepts(owner, (init + [last])[i], d))
        <==> (exists i :: 0 <= i < |init| && BranchAccepts(owner, init[i], d)) || BranchAccepts(owner, last, d)
  {
    var conds := init + [last];
    if exists i :: 0 <= i < |conds| && BranchAccepts(owner, conds[i], d) {
      var i :| 0 <= i < |conds| && BranchAccepts(owner, conds[i], d);
      if i < |init| {
        assert conds[i] == init[i];
      }
    }
    if exists i :: 0 <= i < |init| && BranchAccepts(owner, init[i], d) {
      var i :| 0 <= i < |init| && BranchAccepts(owner, init[i], d);
      assert conds[i] == init[i];
    }
    assert conds[|init|] == last;
  }

  /** With distinct ids in the store, a document is in the merged `$or`
      result exactly when it is stored and some branch accepts it: the
      owner's documents with a listed source, or the owner's documents
      without a source, depending on the branch. */
  lemma OrMembership(stream: seq<Doc>, f: Filter, d: Doc)
    requires DistinctIds(stream)
    ensures d in MergedOr(stream, f)
        <==> d in stream && exists i :: 0 <= i < |OrConditions(f)| && BranchAccepts(OwnerOf(f), OrConditions(f)[i], d)
  {
    var g := Gather(stream, OwnerOf(f), OrConditions(f));
    GatherMembers(stream, OwnerOf(f), OrConditions(f), d);
    DedupProps(g);
    if d in g {
      var i :| 0 <= i < |g| && g[i] == d;
      IdsMembers(g, d.id);
      FirstWithIdIds(g, d.id);
      FirstWithIdIn(g, d.id);
      var e := FirstWithId(g, d.id).value;
      GatherMembers(stream, OwnerOf(f), OrConditions(f), e);
      SameIdSameDoc(stream, d, e);
      IdsMembers(Dedup(g), d.id);
      var j :| 0 <= j < |Dedup(g)| && Dedup(g)[j].id == d.id;
      DedupKeepsFirst(g);
      assert Dedup(g)[j] in Dedup(g);
    }
  }

  lemma {:induction false} FirstWithIdIn(s: seq<Doc>, id: string)
    requires FirstWithId(s, id).Some?
    ensures FirstWithId(s, id).value in s && FirstWithId(s, id).value.id == id
  {
    if s[0].id != id {
      FirstWithIdIn(s[1..], id);
    }
  }

  lemma SameIdSameDoc(stream: seq<Doc>, a: Doc, b: Doc)
    requires DistinctIds(stream) && a in stream && b in stream && a.id == b.id
    ensures a == b
  {
  }

  /** The `$or` page is sorted newest-first by created_at and holds at most `limit` documents. */
  lemma OrPageSortedNewestFirst(stream: seq<Doc>, f: Filter, skip: nat, limit: nat)
    ensures SortedBy(OrPage(stream, f, skip, limit), CreatedAt, true)
    ensures |OrPage(stream, f, skip, limit)| <= limit
  {
    var sorted := SortBy(MergedOr(stream, f), CreatedAt, true);
    SortByCorrect(MergedOr(stream, f), CreatedAt, true);
    var page := OrPage(stream, f, skip, limit);
    forall i, j | 0 <= i < j < |page|
      ensures Before(page[i], page[j], CreatedAt, true)
    {
      assert page[i] == sorted[skip + i] && page[j] == sorted[skip + j];
    }
  }

  /** The `$or` path ignores order_by, order_direction and any index error. */
  lemma OrPathIgnoresOrdering(stream: seq<Doc>, f: Filter, skip: nat, limit: nat,
                              orderBy1: string, direction1: string, failure1: Option<Exception>,
                              orderBy2: string, direction2: string, failure2: Option<Exception>)
    requires OrKey in f
    ensures ImagesQuery(stream, f, orderBy1, direction1, skip, limit, failure1)
         == ImagesQuery(stream, f, orderBy2, direction2, skip, limit, failure2)
  {
  }

  /** A plain scalar source branch such as {"source": "nano"} contributes
      nothing, and an `$exists` branch reads the same whatever its boolean. */
  lemma BranchQuirks(stream: seq<Doc>, owner: Value, s: string, b1: bool, b2: bool)
    ensures BranchFetch(stream, owner, VMap(map["source" := VStr(s)])) == []
    ensures BranchFetch(stream, owner, VMap(map["source" := VMap(map["$exists" := VBool(b1)])]))
         == BranchFetch(stream, owner, VMap(map["source" := VMap(map["$exists" := VBool(b2)])]))
         == BranchFetch(stream, owner, VMap(map["source" := VNull]))
  {
    var e1: map<string, Value> := map["$exists" := VBool(b1)];
    assert "$in" !in e1;
    var e2: map<string, Value> := map["$exists" := VBool(b2)];
    assert "$in" !in e2;
  }

  // ------------------------------------------------ update_blog

  /** `updates['updated_at'] = now`: replaces the value in place when the key
      is already there, otherwise appends it (dictionary insertion order). */
  function Stamp(updates: seq<(string, Value)>, now: nat): (r: seq<(string, Value)>)
    ensures |r| == |updates| || |r| == |updates| + 1
  {
    if updates == [] then [("updated_at", VTime(now))]
    else if updates[0].0 == "updated_at" then [("updated_at", VTime(now))] + updates[1..]
    else [updates[0]] + Stamp(updates[1..], now)
  }

  predicate DistinctKeys(updates: seq<(string, Value)>) {
    forall i, j :: 0 <= i < j < |updates| ==> updates[i].0 != updates[j].0
  }

  /** The dot-notation entries one update entry becomes. */
  function FlattenEntry(acc: map<string, Value>, key: string, value: Value): map<string, Value> {
    if '.' !in key && value.VMap? then acc + Nested(key, value.fields)
    else acc[key := value]
  }

  /** `{f"{key}.{k}": v for k, v in fields.items()}`. */
  function Nested(key: string, fields: map<string, Value>): (r: map<string, Value>)
    ensures forall sub :: sub in fields ==> key + "." + sub in r && r[key + "." + sub] == fields[sub]
    ensures forall k :: k in r ==> exists sub :: sub in fields && k == key + "." + sub
  {
    DotInjective(key);
    map sub | sub in fields :: key + "." + sub := fields[sub]
  }

  /** Distinct sub-keys give distinct dotted keys. */
  lemma DotInjective(key: string)
    ensures forall a: string, b: string :: key + "." + a == key + "." + b ==> a == b
  {
    forall a: string, b: string | key + "." + a == key + "." + b
      ensures a == b
    {
      assert (key + "." + a)[|key| + 1..] == a;
      assert (key + "." + b)[|key| + 1..] == b;
    }
  }

  /** Every key `Nested` writes contains a dot. */
  lemma NestedKeysDotted(key: string, fields: map<string, Value>, k: string)
    requires k in Nested(key, fields)
    ensures '.' in k
  {
    var sub :| sub in fields && k == key + "." + sub;
    assert k[|key|] == '.';
  }

  /** The update map sent to the store for an ordered list of update entries. */
  function Flatten(entries: seq<(string, Value)>): map<string, Value> {
    if entries == [] then map[]
    else
      var n := |entries| - 1;
      FlattenEntry(Flatten(entries[..n]), entries[n].0, entries[n].1)
  }

  /** firestore_db.py update_blog: stamps updated_at and flattens nested
      dictionaries one level into dot-notation keys. */
  method UpdateBlogFields(updates: seq<(string, Value)>, now: nat) returns (firestoreUpdates: map<string, Value>)
    requires DistinctKeys(updates)
    ensures firestoreUpdates == Flatten(Stamp(updates, now))
  {
    var stamped := Stamp(updates, now);
    firestoreUpdates := map[];
    for i := 0 to |stamped|
      invariant firestoreUpdates == Flatten(stamped[..i])
    {
      var (key, value) := stamped[i];
      FlattenStep(stamped, i);
      if '.' in key {
        firestoreUpdates := firestoreUpdates[key := value];
      } else if value.VMap? {
        firestoreUpdates := AddNested(firestoreUpdates, key, value.fields);
      } else {
        firestoreUpdates := firestoreUpdates[key := value];
      }
    }
    assert stamped[..|stamped|] == stamped;
  }

  lemma FlattenStep(entries: seq<(string, Value)>, i: nat)
    requires i < |entries|
    ensures Flatten(entries[..i + 1]) == FlattenEntry(Flatten(entries[..i]), entries[i].0, entries[i].1)
  {
    assert entries[..i + 1][..i] == entries[..i];
  }

  /** The inner loop of update_blog: one "key.sub" entry per entry of the nested dictionary. */
  method AddNested(acc: map<string, Value>, key: string, fields: map<string, Value>) returns (out: map<string, Value>)
    ensures out == acc + Nested(key, fields)
  {
    out := acc;
    var remaining := fields.Keys;
    NestedNone(acc, key, fields);
    while remaining != {}
      invariant remaining <= fields.Keys
      invariant out == acc + Nested(key, fields - remaining)
      decreases remaining
    {
      var nestedKey :| nestedKey in remaining;
      NestedAdd(acc, key, fields, remaining, nestedKey);
      out := out[key + "." + nestedKey := fields[nestedKey]];
      remaining := remaining - {nestedKey};
    }
    NestedAll(acc, key, fields);
  }

  lemma NestedNone(acc: map<string, Value>, key: string, fields: map<string, Value>)
    ensures acc + Nested(key, fields - fields.Keys) == acc
  {
    assert fields - fields.Keys == map[];
    assert Nested(key, map[]) == map[];
  }

  lemma NestedAll(acc: map<string, Value>, key: string, fields: map<string, Value>)
    ensures acc + Nested(key, fields - {}) == acc + Nested(key, fields)
  {
    assert fields - {} == fields;
  }

  lemma NestedAdd(acc: map<string, Value>, key: string, fields: map<string, Value>, remaining: set<string>, sub: string)
    requires sub in remaining && remaining <= fields.Keys
    ensures acc + Nested(key, fields - (remaining - {sub}))
         == (acc + Nested(key, fields - remaining))[key + "." + sub := fields[sub]]
  {
    NestedStep(key, fields, remaining, sub);
    UnionUpdate(acc, Nested(key, fields - remaining), key + "." + sub, fields[sub]);
  }

  /** Updating the right operand of a map union updates the union. */
  lemma UnionUpdate(acc: map<string, Value>, m: map<string, Value>, x: string, v: Value)
    ensures acc + m[x := v] == (acc + m)[x := v]
  {
  }

  lemma NestedStep(key: string, fields: map<string, Value>, remaining: set<string>, sub: string)
    requires sub in remaining && remaining <= fields.Keys
    ensures Nested(key, fields - (remaining - {sub}))
         == Nested(key, fields - remaining)[key + "." + sub := fields[sub]]
  {
    var a := Nested(key, fields - (remaining - {sub}));
    var b := Nested(key, fields - remaining)[key + "." + sub := fields[sub]];
    forall k | k in a
      ensures k in b && a[k] == b[k]
    {
      var s :| s in fields - (remaining - {sub}) && k == key + "." + s;
      DotInjective(key);
    }
    forall k | k in b
      ensures k in a
    {
      if k != key + "." + sub {
        var s :| s in fields - remaining && k == key + "." + s;
      }
    }
  }

  /** Every key a flattened update writes is either one of the entry keys or
      "key.sub" for an entry whose undotted key holds a dictionary. */
  lemma {:induction false} FlattenKeys(entries: seq<(string, Value)>, k: string)
    requires k in Flatten(entries)
    ensures exists i :: 0 <= i < |entries| &&
              (entries[i].0 == k ||
               ('.' !in entries[i].0 && entries[i].1.VMap? &&
                exists sub :: sub in entries[i].1.fields && k == entries[i].0 + "." + sub))
  {
    var n := |entries| - 1;
    var prev := Flatten(entries[..n]);
    var (key, value) := entries[n];
    if k in prev && !(k == key || ('.' !in key && value.VMap? && k in Nested(key, value.fields))) {
      FlattenKeys(entries[..n], k);
      var i :| 0 <= i < n &&
              (entries[..n][i].0 == k ||
               ('.' !in entries[..n][i].0 && entries[..n][i].1.VMap? &&
                exists sub :: sub in entries[..n][i].1.fields && k == entries[..n][i].0 + "." + sub));
      assert entries[..n][i] == entries[i];
    }
  }

  /** A key without a dot whose value is not a dictionary is passed through
      unchanged (no other entry can produce that key). */
  lemma {:induction false} FlattenKeepsPlainKey(entries: seq<(string, Value)>, i: nat)
    requires DistinctKeys(entries) && i < |entries|
    requires '.' !in entries[i].0 && !entries[i].1.VMap?
    ensures entries[i].0 in Flatten(entries) && Flatten(entries)[entries[i].0] == entries[i].1
  {
    var n := |entries| - 1;
    var (key, value) := entries[n];
    if i < n {
      assert entries[..n][i] == entries[i];
      FlattenKeepsPlainKey(entries[..n], i);
      if '.' !in key && value.VMap? {
        if entries[i].0 in Nested(key, value.fields) {
          NestedKeysDotted(key, value.fields, entries[i].0);
        }
      }
    }
  }

  /** A dictionary under an undotted key becomes one "key.sub" entry per
      sub-key carrying the nested value, unless some entry spells that dotted
      key out itself. */
  lemma {:induction false} FlattenExpandsNested(entries: seq<(string, Value)>, i: nat, sub: string)
    requires DistinctKeys(entries) && i < |entries|
    requires '.' !in entries[i].0 && entries[i].1.VMap? && sub in entries[i].1.fields
    requires forall j :: 0 <= j < |entries| ==> entries[j].0 != entries[i].0 + "." + sub
    ensures var k := entries[i].0 + "." + sub;
            k in Flatten(entries) && Flatten(entries)[k] == entries[i].1.fields[sub]
  {
    var n := |entries| - 1;
    var (key, value) := entries[n];
    var k := entries[i].0 + "." + sub;
    if i < n {
      assert entries[..n][i] == entries[i];
      forall j | 0 <= j < n
        ensures entries[..n][j].0 != k
      {
        assert entries[..n][j] == entries[j];
      }
      FlattenExpandsNested(entries[..n], i, sub);
      if '.' !in key && value.VMap? && k in Nested(key, value.fields) {
        var s :| s in value.fields && k == key + "." + s;
        FirstDot(entries[i].0, sub, key, s);
        assert false;
      }
    }
  }

  /** Two dotted names `a.x` and `b.y` with undotted `a`, `b` agree only when `a == b`. */
  lemma FirstDot(a: string, x: string, b: string, y: string)
    requires '.' !in a && '.' !in b && a + "." + x == b + "." + y
    ensures a == b
  {
    var s := a + "." + x;
    assert s == b + "." + y;
    forall t | 0 <= t < |a|
      ensures s[t] != '.'
    {
      assert s[t] == a[t];
    }
    forall t | 0 <= t < |b|
      ensures s[t] != '.'
    {
      assert s[t] == b[t];
    }
    assert s[|a|] == '.' && s[|b|] == '.';
    assert |a| == |b|;
    assert a == s[..|a|] == b;
  }

  /** After update_blog the update always stamps updated_at with the call's time. */
  lemma UpdateStampsUpdatedAt(updates: seq<(string, Value)>, now: nat)
    requires DistinctKeys(updates)
    ensures "updated_at" in Flatten(Stamp(updates, now))
    ensures Flatten(Stamp(updates, now))["updated_at"] == VTime(now)
  {
    StampShape(updates, now);
    var stamped := Stamp(updates, now);
    var i :| 0 <= i < |stamped| && stamped[i] == ("updated_at", VTime(now));
    FlattenKeepsPlainKey(stamped, i);
  }

  lemma {:induction false} StampShape(updates: seq<(string, Value)>, now: nat)
    requires DistinctKeys(updates)
    ensures DistinctKeys(Stamp(updates, now))
    ensures exists i :: 0 <= i < |Stamp(updates, now)| && Stamp(updates, now)[i] == ("updated_at", VTime(now))
    ensures forall i :: 0 <= i < |Stamp(updates, now)| ==>
              Stamp(updates, now)[i].0 == "updated_at" || Stamp(updates, now)[i] in updates
  {
    var r := Stamp(updates, now);
    if updates == [] {
      assert r[0] == ("updated_at", VTime(now));
    } else if updates[0].0 == "updated_at" {
      StampReplacesShape(updates, now);
    } else {
      var tail := updates[1..];
      DistinctTail(updates);
      StampShape(tail, now);
      assert updates == [updates[0]] + tail;
      ConsStamped(updates[0], tail, Stamp(tail, now), now);
    }
  }

  /** Dropping the first entry keeps the keys distinct. */
  lemma DistinctTail(updates: seq<(string, Value)>)
    requires updates != [] && DistinctKeys(updates)
    ensures DistinctKeys(updates[1..])
  {
    var tail := updates[1..];
    forall i, j | 0 <= i < j < |tail|
      ensures tail[i].0 != tail[j].0
    {
      assert tail[i] == updates[i + 1] && tail[j] == updates[j + 1];
    }
  }

  /** An update led by updated_at gets that entry's value replaced. */
  lemma StampReplacesShape(updates: seq<(string, Value)>, now: nat)
    requires DistinctKeys(updates) && updates != [] && updates[0].0 == "updated_at"
    ensures var r := Stamp(updates, now);
            DistinctKeys(r) && r[0] == ("updated_at", VTime(now))
            && forall i :: 0 <= i < |r| ==> r[i].0 == "updated_at" || r[i] in updates
  {
    var r := Stamp(updates, now);
    assert r == [("updated_at", VTime(now))] + updates[1..];
    forall i, j | 0 <= i < j < |r|
      ensures r[i].0 != r[j].0
    {
      assert r[j] == updates[j];
      if i > 0 { assert r[i] == updates[i]; }
    }
    forall i | 0 <= i < |r|
      ensures r[i].0 == "updated_at" || r[i] in updates
    {
      if i > 0 { assert r[i] == updates[i]; }
    }
  }

  /** An entry other than updated_at kept in front of a stamped tail. */
  lemma ConsStamped(h: (string, Value), tail: seq<(string, Value)>, rest: seq<(string, Value)>, now: nat)
    requires h.0 != "updated_at" && DistinctKeys([h] + tail) && DistinctKeys(rest)
    requires exists i :: 0 <= i < |rest| && rest[i] == ("updated_at", VTime(now))
    requires forall i :: 0 <= i < |rest| ==> rest[i].0 == "updated_at" || rest[i] in tail
    ensures var r := [h] + rest;
            DistinctKeys(r)
            && (exists i :: 0 <= i < |r| && r[i] == ("updated_at", VTime(now)))
            && forall i :: 0 <= i < |r| ==> r[i].0 == "updated_at" || r[i] in [h] + tail
  {
    var r := [h] + rest;
    var updates := [h] + tail;
    var k :| 0 <= k < |rest| && rest[k] == ("updated_at", VTime(now));
    assert r[k + 1] == rest[k];
    forall i | 1 <= i < |r|
      ensures r[i].0 == "updated_at" || r[i] in updates
    {
      assert r[i] == rest[i - 1];
      if rest[i - 1] in tail {
        var m :| 0 <= m < |tail| && tail[m] == rest[i - 1];
        assert updates[m + 1] == tail[m];
      }
    }
    forall i, j | 0 <= i < j < |r|
      ensures r[i].0 != r[j].0
    {
      if i == 0 {
        assert r[j] == rest[j - 1];
        if r[j].0 != "updated_at" {
          var m :| 0 <= m < |tail| && tail[m] == rest[j - 1];
          assert updates[0] == h && updates[m + 1] == tail[m];
        }
      } else {
        assert r[i] == rest[i - 1] && r[j] == rest[j - 1];
      }
    }
  }

  // ------------------------------------------------ create timestamps

  /** create_blog's defaults: created_at and updated_at keep a value the caller
      supplied and are set to the current time otherwise. The two clock reads
      are separate parameters. */
  function WithBlogTimestamps(doc: Data, now1: nat, now2: nat): (r: Data)
    ensures r.Keys == doc.Keys + {"created_at", "updated_at"}
    ensures r["created_at"] == (if "created_at" in doc then doc["created_at"] else VTime(now1))
    ensures r["updated_at"] == (if "updated_at" in doc then doc["updated_at"] else VTime(now2))
    ensures forall k :: k in doc && k != "created_at" && k != "updated_at" ==> r[k] == doc[k]
  {
    var withCreated := doc["created_at" := if "created_at" in doc then doc["created_at"] else VTime(now1)];
    withCreated["updated_at" := if "updated_at" in withCreated then withCreated["updated_at"] else VTime(now2)]
  }

  /** create_image's default: created_at keeps a supplied value, else the current time. */
  function WithImageTimestamp(doc: Data, now: nat): (r: Data)
    ensures r.Keys == doc.Keys + {"created_at"}
    ensures r["created_at"] == (if "created_at" in doc then doc["created_at"] else VTime(now))
    ensures forall k :: k in doc && k != "created_at" ==> r[k] == doc[k]
  {
    doc["created_at" := if "created_at" in doc then doc["created_at"] else VTime(now)]
  }

  /** Creating twice with the same clock readings changes nothing the second
      time: supplied timestamps are never overwritten. */
  lemma BlogTimestampsIdempotent(doc: Data, now1: nat, now2: nat, later1: nat, later2: nat)
    ensures WithBlogTimestamps(WithBlogTimestamps(doc, now1, now2), later1, later2)
         == WithBlogTimestamps(doc, now1, now2)
  {
    var once := WithBlogTimestamps(doc, now1, now2);
    assert WithBlogTimestamps(once, later1, later2) == once;
  }
}
