/** The blog wizard's draft, kept as one JSON entry in the browser's local
    storage under a fixed key. Loading tolerates a missing, null or
    unparsable entry; saving merges a patch over what is stored, patch keys
    winning; clearing removes the entry. */
module DraftStorage {
  import opened Common

  const Key := "cms_blog_draft_v1"

  /** What local storage holds under the draft key: nothing, text that
      `JSON.parse` accepts (as the value it denotes), or text it rejects.
      Text that is empty reads as null. */
  datatype Entry = Absent | Parsed(value: Json) | Unparsable

  type Draft = map<string, Json>

  /** `loadDraft`: the parsed value when it is truthy, otherwise `{}`. */
  function LoadOf(e: Entry): (r: Json)
    ensures r == JObj(map[]) || (e.Parsed? && r == e.value && Truthy(r))
  {
    match e
    case Parsed(v) => if Truthy(v) then v else JObj(map[])
    case _ => JObj(map[])
  }

  /** A missing entry, a stored null and unparsable text all load as `{}`. */
  lemma LoadFallbacks()
    ensures LoadOf(Absent) == JObj(map[])
    ensures LoadOf(Parsed(JNull)) == JObj(map[])
    ensures LoadOf(Unparsable) == JObj(map[])
    ensures forall d: Draft :: LoadOf(Parsed(JObj(d))) == JObj(d)
  {
  }

  /** The properties `{...v}` copies out of a loaded value. */
  function Spread(v: Json): Draft {
    if v.JObj? then v.fields else map[]
  }

  /** `{ ...draft, ...(patch || {}) }`. */
  function Merge(draft: Draft, patch: Option<Draft>): (r: Draft)
    ensures patch.None? ==> r == draft
    ensures patch.Some? ==> r.Keys == draft.Keys + patch.value.Keys
    ensures patch.Some? ==> forall k :: k in patch.value ==> r[k] == patch.value[k]
    ensures forall k :: k in draft && (patch.None? || k !in patch.value) ==> r[k] == draft[k]
  {
    if patch.None? then draft else draft + patch.value
  }

  /** Applying the same patch twice is the same as applying it once. */
  lemma MergeIdempotent(draft: Draft, patch: Option<Draft>)
    ensures Merge(Merge(draft, patch), patch) == Merge(draft, patch)
  {
  }

  /** The property `d[k]`, with `undefined` as None; a loaded value that is
      not an object has no such property. */
  function Field(d: Json, k: string): Option<Json> {
    if d.JObj? && k in d.fields then Some(d.fields[k]) else None
  }

  /** `d[k] === undefined || d[k] === null || d[k] === ""`. */
  predicate Missing(d: Json, k: string) {
    Field(d, k).None? || Field(d, k) == Some(JNull) || Field(d, k) == Some(JStr(""))
  }

  function MissingMessage(k: string): string {
    "Missing draft field: " + k
  }

  /** The local-storage entry of the draft. */
  class Store {
    var entry: Entry

    constructor(e: Entry)
      ensures entry == e
    {
      entry := e;
    }

    /** `loadDraft()`. */
    function Load(): Json
      reads this
    {
      LoadOf(entry)
    }

    /** `saveDraft(patch)`: stores the merge and returns it. */
    method SaveDraft(patch: Option<Draft>) returns (next: Draft)
      modifies this
      ensures next == Merge(Spread(old(Load())), patch)
      ensures entry == Parsed(JObj(next))
      ensures Load() == JObj(next)
    {
      next := Merge(Spread(LoadOf(entry)), patch);
      entry := Parsed(JObj(next));
    }

    /** `clearDraft()`. */
    method ClearDraft()
      modifies this
      ensures entry == Absent
      ensures Load() == JObj(map[])
    {
      entry := Absent;
    }

    /** `requireDraft(keys)`: the draft, or the error naming the first key
        the draft is missing. */
    method RequireDraft(keys: seq<string>) returns (r: Result<Json, string>)
      ensures r.Ok? <==> forall k :: k in keys ==> !Missing(Load(), k)
      ensures r.Ok? ==> r.value == Load()
      ensures r.Err? ==> exists i :: 0 <= i < |keys| && Missing(Load(), keys[i])
                                     && (forall j :: 0 <= j < i ==> !Missing(Load(), keys[j]))
                                     && r.error == MissingMessage(keys[i])
    {
      var d := LoadOf(entry);
      var i := 0;
      while i < |keys|
        invariant 0 <= i <= |keys|
        invariant forall j :: 0 <= j < i ==> !Missing(d, keys[j])
      {
        if Missing(d, keys[i]) {
          assert keys[i] in keys;
          return Err(MissingMessage(keys[i]));
        }
        i := i + 1;
      }
      return Ok(d);
    }
  }

  /** The entry `saveDraft(patch)` leaves behind. */
  function Saved(e: Entry, patch: Option<Draft>): Entry {
    Parsed(JObj(Merge(Spread(LoadOf(e)), patch)))
  }

  /** Loading after a save yields exactly the merge the save returned: the
      patch's keys with the patch's values, every other stored key as it
      was; saving a null patch keeps what a load yields when that is an
      object. */
  lemma SaveThenLoad(e: Entry, patch: Option<Draft>, k: string)
    ensures LoadOf(Saved(e, patch)) == JObj(Merge(Spread(LoadOf(e)), patch))
    ensures patch.Some? && k in patch.value ==> Field(LoadOf(Saved(e, patch)), k) == Some(patch.value[k])
    ensures (patch.None? || k !in patch.value) ==> Field(LoadOf(Saved(e, patch)), k) == Field(LoadOf(e), k)
    ensures patch.None? && LoadOf(e).JObj? ==> LoadOf(Saved(e, patch)) == LoadOf(e)
  {
  }

  /** After clearing, every key is missing from what a load yields. */
  lemma ClearThenLoad(k: string)
    ensures Missing(LoadOf(Absent), k)
  {
  }
}
