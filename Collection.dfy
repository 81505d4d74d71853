/** The MongoDB collection operations the route handlers call, over a
    collection held as a sequence of documents in insertion order: matching
    a filter (equality, `None` for missing-or-null, `$in`, `$exists` and a
    top-level `$or` of such conditions), counting, and the
    newest-first paginated `find`. */
module Collection {
  import opened Common
  import opened Values
  import opened FirestoreDb

  /** Whether the top-level field `field` of `data` satisfies one filter entry. */
  predicate FieldMatches(data: Data, field: string, cond: Value) {
    if cond.VMap? && "$in" in cond.fields then
      (field in data && data[field] in ListItems(cond.fields["$in"]))
      || (field !in data && VNull in ListItems(cond.fields["$in"]))
    else if cond.VMap? && "$exists" in cond.fields then
      (field in data) == (cond.fields["$exists"] == VBool(true))
    else if cond == VNull then
      field !in data || data[field] == VNull
    else
      field in data && data[field] == cond
  }

  /** Every entry of a condition other than `$or` holds. */
  predicate CondMatches(data: Data, cond: map<string, Value>) {
    forall field :: field in cond && field != OrKey ==> FieldMatches(data, field, cond[field])
  }

  /** A document matches a filter: its plain entries hold and, when there is
      an `$or`, at least one of its branches holds. */
  predicate MongoMatches(data: Data, q: Filter) {
    CondMatches(data, q)
    && (OrKey in q ==> exists c :: c in ListItems(q[OrKey]) && c.VMap? && CondMatches(data, c.fields))
  }

  function MatchingDocs(docs: seq<Doc>, q: Filter): seq<Doc> {
    Keep(docs, (d: Doc) => MongoMatches(d.data, q))
  }

  /** `count_documents(q)`. */
  function CountDocuments(docs: seq<Doc>, q: Filter): nat {
    |MatchingDocs(docs, q)|
  }

  /** `find_one(q)`: the first matching document in insertion order. */
  function FindOne(docs: seq<Doc>, q: Filter): (r: Option<Doc>)
    ensures r.Some? ==> r.value in docs && MongoMatches(r.value.data, q)
    ensures r.None? ==> forall d :: d in docs ==> !MongoMatches(d.data, q)
  {
    if docs == [] then None
    else if MongoMatches(docs[0].data, q) then Some(docs[0])
    else FindOne(docs[1..], q)
  }

  /** The sort key of `sort("created_at", -1)`: a missing field sorts as null. */
  function CreatedAtOrNull(d: Doc): Value {
    if "created_at" in d.data then d.data["created_at"] else VNull
  }

  /** `find(q).sort("created_at", -1).skip(skip).limit(limit)`; documents
      whose created_at ties keep insertion order. */
  function FindNewestFirst(docs: seq<Doc>, q: Filter, skip: nat, limit: nat): seq<Doc> {
    Page(SortBy(MatchingDocs(docs, q), CreatedAtOrNull, true), skip, limit)
  }

  /** A page of `find` holds only matching documents of the collection, at
      most `limit` of them, newest first. */
  lemma FindNewestFirstProps(docs: seq<Doc>, q: Filter, skip: nat, limit: nat)
    ensures |FindNewestFirst(docs, q, skip, limit)| <= limit
    ensures forall d :: d in FindNewestFirst(docs, q, skip, limit) ==> d in docs && MongoMatches(d.data, q)
    ensures SortedBy(FindNewestFirst(docs, q, skip, limit), CreatedAtOrNull, true)
  {
    var matching := MatchingDocs(docs, q);
    var sorted := SortBy(matching, CreatedAtOrNull, true);
    SortByCorrect(matching, CreatedAtOrNull, true);
    KeepMembers(docs, (d: Doc) => MongoMatches(d.data, q));
    var page := FindNewestFirst(docs, q, skip, limit);
    forall d | d in page
      ensures d in docs && MongoMatches(d.data, q)
    {
      var i :| 0 <= i < |page| && page[i] == d;
      assert d == sorted[skip + i];
      assert d in multiset(sorted);
    }
    forall i, j | 0 <= i < j < |page|
      ensures Before(page[i], page[j], CreatedAtOrNull, true)
    {
      assert page[i] == sorted[skip + i] && page[j] == sorted[skip + j];
    }
  }

  /** Listing routes page through results: skip = (page - 1) * limit. */
  function PageSkip(page: nat, limit: nat): (skip: nat)
    requires page >= 1
    ensures page == 1 ==> skip == 0
    ensures skip + limit == page * limit
  {
    (page - 1) * limit
  }

  /** Consecutive pages of a listing follow each other without gap or overlap. */
  lemma ConsecutivePages(docs: seq<Doc>, q: Filter, page: nat, limit: nat)
    requires page >= 1
    ensures FindNewestFirst(docs, q, PageSkip(page, limit), limit)
          + FindNewestFirst(docs, q, PageSkip(page + 1, limit), limit)
         == Page(SortBy(MatchingDocs(docs, q), CreatedAtOrNull, true), PageSkip(page, limit), 2 * limit)
  {
    PagesTile(SortBy(MatchingDocs(docs, q), CreatedAtOrNull, true), PageSkip(page, limit), limit, limit);
  }

  // ------------------------------------------------ `$set` updates

  /** The part of a field path before its first dot (the whole path when it has none). */
  function Head(path: string): string {
    if '.' in path then path[..FirstIndexOf(path, '.')] else path
  }

  /** The part of a dotted path after its first dot. */
  function Tail(path: string): (r: string)
    requires '.' in path
    ensures |r| < |path|
  {
    path[FirstIndexOf(path, '.') + 1..]
  }

  /** `top.sub` for an undotted `top`. */
  function Dotted(top: string, sub: string): string {
    top + "." + sub
  }

  lemma HeadTail(top: string, sub: string)
    requires '.' !in top
    ensures '.' in Dotted(top, sub)
    ensures Head(Dotted(top, sub)) == top && Tail(Dotted(top, sub)) == sub
  {
    var s := Dotted(top, sub);
    assert s[|top|] == '.';
    var i := FirstIndexOf(s, '.');
    forall t | 0 <= t < |top|
      ensures s[t] != '.'
    {
      assert s[t] == top[t];
    }
    forall j | 0 <= j < i
      ensures s[j] != '.'
    {
      assert s[j] == s[..i][j];
    }
    assert i == |top|;
  }

  /** `$set` of one field path: each dot steps into an embedded document,
      which is created when the field is missing or not a document. */
  function SetPath(data: Data, path: string, v: Value): Data
    decreases |path|
  {
    if '.' in path then
      var top := Head(path);
      var inner := if top in data && data[top].VMap? then data[top].fields else map[];
      data[top := VMap(SetPath(inner, Tail(path), v))]
    else data[path := v]
  }

  /** FieldValue's own split of a dotted path agrees with Head and Tail. */
  lemma FieldValueSplit(data: Data, path: string)
    requires '.' in path
    ensures FieldValue(data, path)
         == if Head(path) in data && data[Head(path)].VMap? then FieldValue(data[Head(path)].fields, Tail(path)) else None
  {
  }

  /** Reading back a path just set yields the value set. */
  lemma {:induction false} SetPathGet(data: Data, path: string, v: Value)
    ensures FieldValue(SetPath(data, path, v), path) == Some(v)
    decreases |path|
  {
    if '.' in path {
      var top := Head(path);
      var inner := if top in data && data[top].VMap? then data[top].fields else map[];
      SetPathGet(inner, Tail(path), v);
      FieldValueSplit(SetPath(data, path, v), path);
    }
  }

  /** Two paths that name disjoint parts of a document: they part ways at
      some step. */
  predicate Independent(p: string, q: string)
    decreases |p|
  {
    Head(p) != Head(q) || ('.' in p && '.' in q && Independent(Tail(p), Tail(q)))
  }

  /** Setting a path leaves every independent path as it was. */
  lemma {:induction false} SetPathFrame(data: Data, p: string, q: string, v: Value)
    requires Independent(p, q)
    ensures FieldValue(SetPath(data, p, v), q) == FieldValue(data, q)
    decreases |p|
  {
    var after := SetPath(data, p, v);
    var top := Head(p);
    if '.' in q {
      FieldValueSplit(after, q);
      FieldValueSplit(data, q);
    }
    if Head(p) != Head(q) {
      assert Head(q) in after <==> Head(q) in data;
      if Head(q) in data {
        assert after[Head(q)] == data[Head(q)];
      }
    } else {
      var inner := if top in data && data[top].VMap? then data[top].fields else map[];
      SetPathFrame(inner, Tail(p), Tail(q), v);
      if !(top in data && data[top].VMap?) {
        EmptyFieldValue(Tail(q));
      }
    }
  }

  lemma EmptyFieldValue(path: string)
    ensures FieldValue(map[], path) == None
  {
  }

  /** Setting a path changes no top-level field but its head. */
  lemma SetPathOtherFields(data: Data, p: string, v: Value)
    ensures SetPath(data, p, v).Keys == data.Keys + {Head(p)}
    ensures forall k :: k in data && k != Head(p) ==> SetPath(data, p, v)[k] == data[k]
  {
  }

  /** `{"$set": {...}}`: the entries applied one after the other. */
  function ApplySet(data: Data, updates: seq<(string, Value)>): Data
    decreases |updates|
  {
    if updates == [] then data else ApplySet(SetPath(data, updates[0].0, updates[0].1), updates[1..])
  }

  /** The first entry of a `$set` is applied first. */
  lemma ApplySetCons(data: Data, e: (string, Value), rest: seq<(string, Value)>)
    ensures ApplySet(data, [e] + rest) == ApplySet(SetPath(data, e.0, e.1), rest)
  {
    assert ([e] + rest)[1..] == rest;
  }

  /** Entries whose paths are pairwise independent. */
  predicate IndependentPaths(updates: seq<(string, Value)>) {
    forall i, j :: 0 <= i < |updates| && 0 <= j < |updates| && i != j ==> Independent(updates[i].0, updates[j].0)
  }

  /** A path independent of every entry keeps its value. */
  lemma {:induction false} ApplySetFrame(data: Data, updates: seq<(string, Value)>, q: string)
    requires forall i :: 0 <= i < |updates| ==> Independent(updates[i].0, q)
    ensures FieldValue(ApplySet(data, updates), q) == FieldValue(data, q)
    decreases |updates|
  {
    if updates != [] {
      SetPathFrame(data, updates[0].0, q, updates[0].1);
      ApplySetFrame(SetPath(data, updates[0].0, updates[0].1), updates[1..], q);
    }
  }

  /** After a `$set` with independent paths, each path holds its entry's value. */
  lemma {:induction false} ApplySetGet(data: Data, updates: seq<(string, Value)>, i: nat)
    requires i < |updates| && IndependentPaths(updates)
    ensures FieldValue(ApplySet(data, updates), updates[i].0) == Some(updates[i].1)
    decreases |updates|
  {
    var rest := updates[1..];
    var next := SetPath(data, updates[0].0, updates[0].1);
    if i == 0 {
      SetPathGet(data, updates[0].0, updates[0].1);
      forall j | 0 <= j < |rest|
        ensures Independent(rest[j].0, updates[0].0)
      {
        assert rest[j] == updates[j + 1];
      }
      ApplySetFrame(next, rest, updates[0].0);
    } else {
      forall a, b | 0 <= a < |rest| && 0 <= b < |rest| && a != b
        ensures Independent(rest[a].0, rest[b].0)
      {
        assert rest[a] == updates[a + 1] && rest[b] == updates[b + 1];
      }
      ApplySetGet(next, rest, i - 1);
    }
  }

  /** Top-level fields no entry starts with are left as they were. */
  lemma {:induction false} ApplySetOtherFields(data: Data, updates: seq<(string, Value)>, k: string)
    requires forall i :: 0 <= i < |updates| ==> Head(updates[i].0) != k
    ensures k in ApplySet(data, updates) <==> k in data
    ensures k in data ==> ApplySet(data, updates)[k] == data[k]
    decreases |updates|
  {
    if updates != [] {
      var next := SetPath(data, updates[0].0, updates[0].1);
      SetPathOtherFields(data, updates[0].0, updates[0].1);
      ApplySetOtherFields(next, updates[1..], k);
    }
  }

  // ------------------------------------------------ documents by id

  /** `find_one({"_id": id})`. */
  function FindById(docs: seq<Doc>, id: string): (r: Option<Doc>)
    ensures r.Some? ==> r.value in docs && r.value.id == id
    ensures r.None? ==> forall d :: d in docs ==> d.id != id
  {
    if docs == [] then None
    else if docs[0].id == id then Some(docs[0])
    else FindById(docs[1..], id)
  }

  /** `update_one({"_id": id}, {"$set": updates})` on a collection with distinct ids. */
  function UpdateById(docs: seq<Doc>, id: string, updates: seq<(string, Value)>): (r: seq<Doc>)
    ensures |r| == |docs|
    ensures forall i :: 0 <= i < |docs| ==>
              r[i] == if docs[i].id == id then Doc(id, ApplySet(docs[i].data, updates)) else docs[i]
  {
    seq(|docs|, i requires 0 <= i < |docs| =>
      if docs[i].id == id then Doc(id, ApplySet(docs[i].data, updates)) else docs[i])
  }

  /** `delete_one({"_id": id})`. */
  function DeleteById(docs: seq<Doc>, id: string): seq<Doc> {
    Keep(docs, (d: Doc) => d.id != id)
  }

  /** After `update_one` by id, looking a document up by id finds the updated
      one for that id and the unchanged one for every other id. */
  lemma {:induction false} FindByIdAfterUpdate(docs: seq<Doc>, id: string, updates: seq<(string, Value)>, x: string)
    ensures FindById(UpdateById(docs, id, updates), x)
         == if x == id && FindById(docs, id).Some? then Some(Doc(id, ApplySet(FindById(docs, id).value.data, updates)))
            else FindById(docs, x)
  {
    if docs != [] {
      assert UpdateById(docs, id, updates)[1..] == UpdateById(docs[1..], id, updates);
      FindByIdAfterUpdate(docs[1..], id, updates, x);
    }
  }

  lemma UpdateByIdIds(docs: seq<Doc>, id: string, updates: seq<(string, Value)>)
    ensures DistinctIds(UpdateById(docs, id, updates)) <==> DistinctIds(docs)
  {
  }
}
