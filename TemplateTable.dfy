/** The blog table card shared by the dashboard and the saved-blogs page:
    a case-insensitive search over each row's text, pages of a fixed size
    with a current page kept in range, selection of the rows on the current
    page, and the status pill's style. */
module TemplateTable {
  import opened Common

  /** A row of the table; an empty string stands for a missing field. */
  datatype BlogRow = BlogRow(id: int, blogTitle: string, language: string, tone: string, creativity: string,
                             createdDate: string, createdBy: string, status: string)

  // ------------------------------------------------ status pill

  const PublishedStyle := "bg-[#EEF2FF] text-[#4443E4] border-[#C7D2FE]"
  const PendingStyle := "bg-[#FFFBEB] text-[#B45309] border-[#FDE68A]"
  const SavedStyle := "bg-[#ECFDF5] text-[#065F46] border-[#A7F3D0]"

  /** `pillClass(status)`. */
  function PillClass(status: string): (r: string)
    ensures r == PublishedStyle <==> Lower(status) == "published"
    ensures r == PendingStyle <==> Lower(status) == "pending"
    ensures r == SavedStyle <==> Lower(status) != "published" && Lower(status) != "pending"
  {
    var s := Lower(status);
    if s == "published" then PublishedStyle
    else if s == "pending" then PendingStyle
    else SavedStyle
  }

  /** The style does not depend on letter case. */
  lemma PillClassIgnoresCase(status: string)
    ensures PillClass(Lower(status)) == PillClass(status)
  {
    LowerIdempotent(status);
  }

  // ------------------------------------------------ search

  /** The non-empty fields of a row, in column order. */
  function RowFields(r: BlogRow): seq<string> {
    var all := [r.blogTitle, r.language, r.tone, r.creativity, r.createdDate, r.createdBy, r.status];
    NonEmpty(all)
  }

  function NonEmpty(xs: seq<string>): (r: seq<string>)
    ensures forall i :: 0 <= i < |r| ==> r[i] != ""
    ensures forall x :: x in r <==> x in xs && x != ""
  {
    if xs == [] then []
    else if xs[0] == "" then NonEmpty(xs[1..])
    else [xs[0]] + NonEmpty(xs[1..])
  }

  /** The text a row is searched in: its non-empty fields joined by spaces,
      lower-cased. */
  function RowText(r: BlogRow): string {
    Lower(Join(RowFields(r), " "))
  }

  /** The query the rows are matched against: trimmed and lower-cased. */
  function Query(search: string): string {
    Lower(JsTrim(search))
  }

  predicate Matches(r: BlogRow, q: string) {
    Contains(RowText(r), q)
  }

  /** The rows that contain the query, in order. */
  function FilterRows(rows: seq<BlogRow>, q: string): (res: seq<BlogRow>)
    ensures |res| <= |rows|
    ensures forall i :: 0 <= i < |res| ==> Matches(res[i], q)
  {
    if rows == [] then []
    else if Matches(rows[0], q) then [rows[0]] + FilterRows(rows[1..], q)
    else FilterRows(rows[1..], q)
  }

  /** `filtered`: every row for a blank query, else the matching rows. */
  function Filtered(rows: seq<BlogRow>, search: string): seq<BlogRow> {
    if Query(search) == "" then rows else FilterRows(rows, Query(search))
  }

  /** The search keeps exactly the rows that contain the query. */
  lemma {:induction false} FilterRowsMembers(rows: seq<BlogRow>, q: string, x: BlogRow)
    ensures x in FilterRows(rows, q) <==> x in rows && Matches(x, q)
  {
    if rows != [] {
      FilterRowsMembers(rows[1..], q, x);
      assert x in rows <==> x == rows[0] || x in rows[1..];
    }
  }

  /** The search keeps rows in their order: filtering a joined list joins
      the two filtered lists. */
  lemma {:induction false} FilterRowsAppend(a: seq<BlogRow>, b: seq<BlogRow>, q: string)
    ensures FilterRows(a + b, q) == FilterRows(a, q) + FilterRows(b, q)
  {
    if a == [] {
      assert a + b == b;
    } else {
      assert (a + b)[0] == a[0] && (a + b)[1..] == a[1..] + b;
      FilterRowsAppend(a[1..], b, q);
    }
  }

  /** A search that differs only in surrounding spaces or letter case
      finds the same rows; a blank search keeps everything. */
  lemma SearchNormalised(rows: seq<BlogRow>, search: string)
    ensures Filtered(rows, " " + search + " ") == Filtered(rows, search)
    ensures JsBlank(search) ==> Filtered(rows, search) == rows
  {
    TrimSpaceAround(search);
  }

  lemma TrimSpaceAround(search: string)
    ensures JsTrim(" " + search + " ") == JsTrim(search)
  {
    var t := TrimStartBy(search, IsJsWhitespace);
    var inner := TrimStartBy(" " + search + " ", IsJsWhitespace);
    assert inner == TrimStartBy(search + " ", IsJsWhitespace) by {
      assert (" " + search + " ")[1..] == search + " ";
    }
    if t == [] {
      assert inner == [] by {
        TrimStartAppend(search, " ");
        assert " "[1..] == [];
      }
    } else {
      assert inner == t + " " by {
        TrimStartAppend(search, " ");
      }
      assert TrimEndBy(inner, IsJsWhitespace) == TrimEndBy(t, IsJsWhitespace) by {
        TrimEndSpace(t);
      }
    }
  }

  lemma TrimEndSpace(t: string)
    ensures TrimEndBy(t + " ", IsJsWhitespace) == TrimEndBy(t, IsJsWhitespace)
  {
    assert (t + " ")[..|t|] == t;
  }

  /** Trimming the front of `s + tail` trims `s` and keeps the tail, unless
      `s` is all whitespace. */
  lemma {:induction false} TrimStartAppend(s: string, tail: string)
    ensures TrimStartBy(s, IsJsWhitespace) != [] ==> TrimStartBy(s + tail, IsJsWhitespace) == TrimStartBy(s, IsJsWhitespace) + tail
    ensures TrimStartBy(s, IsJsWhitespace) == [] ==> TrimStartBy(s + tail, IsJsWhitespace) == TrimStartBy(tail, IsJsWhitespace)
  {
    if s == [] {
      assert s + tail == tail;
    } else if IsJsWhitespace(s[0]) {
      assert (s + tail)[1..] == s[1..] + tail;
      TrimStartAppend(s[1..], tail);
    } else {
      assert (s + tail)[0] == s[0];
    }
  }

  // ------------------------------------------------ pages

  /** `Math.max(1, Math.ceil(n / pageSize))`. */
  function TotalPages(n: nat, pageSize: nat): (r: nat)
    requires pageSize > 0
    ensures r >= 1
    ensures n <= r * pageSize
    ensures r == 1 || (r - 1) * pageSize < n
  {
    var pages := (n + pageSize - 1) / pageSize;
    assert pages * pageSize <= n + pageSize - 1 < (pages + 1) * pageSize;
    if pages < 1 then 1 else pages
  }

  /** `filtered.slice(start, start + pageSize)` for page `page` (from 1). */
  function PageRows(filtered: seq<BlogRow>, page: nat, pageSize: nat): (r: seq<BlogRow>)
    requires page >= 1 && pageSize > 0
    ensures |r| <= pageSize
    ensures (page - 1) * pageSize < |filtered| ==> r == filtered[(page - 1) * pageSize..Min(page * pageSize, |filtered|)]
    ensures (page - 1) * pageSize >= |filtered| ==> r == []
  {
    var start := (page - 1) * pageSize;
    assert start + pageSize == page * pageSize;
    if start >= |filtered| then [] else filtered[start..Min(start + pageSize, |filtered|)]
  }

  /** Pages 1 to `k` one after another. */
  function FirstPages(filtered: seq<BlogRow>, k: nat, pageSize: nat): seq<BlogRow>
    requires pageSize > 0
  {
    if k == 0 then [] else FirstPages(filtered, k - 1, pageSize) + PageRows(filtered, k, pageSize)
  }

  /** The first `k` pages hold the first `k * pageSize` rows. */
  lemma {:induction false} FirstPagesPrefix(filtered: seq<BlogRow>, k: nat, pageSize: nat)
    requires pageSize > 0
    ensures FirstPages(filtered, k, pageSize) == filtered[..Min(k * pageSize, |filtered|)]
  {
    if k > 0 {
      FirstPagesPrefix(filtered, k - 1, pageSize);
      var a := (k - 1) * pageSize;
      assert a + pageSize == k * pageSize;
      if a < |filtered| {
        assert filtered[..a] + filtered[a..Min(k * pageSize, |filtered|)] == filtered[..Min(k * pageSize, |filtered|)];
      }
    }
  }

  /** The pages together show every filtered row exactly once, in order. */
  lemma PagesCoverRows(filtered: seq<BlogRow>, pageSize: nat)
    requires pageSize > 0
    ensures FirstPages(filtered, TotalPages(|filtered|, pageSize), pageSize) == filtered
  {
    FirstPagesPrefix(filtered, TotalPages(|filtered|, pageSize), pageSize);
  }

  /** The current page, from 1. */
  class Pager {
    var page: nat

    constructor()
      ensures page == 1
    {
      page := 1;
    }

    predicate InRange(totalPages: nat)
      reads this
    {
      1 <= page <= totalPages
    }

    /** The search text changed. */
    method SearchChanged()
      modifies this
      ensures page == 1
    {
      page := 1;
    }

    /** The clamping effect. */
    method Clamp(totalPages: nat)
      requires page >= 1 && totalPages >= 1
      modifies this
      ensures InRange(totalPages)
      ensures old(page) <= totalPages ==> page == old(page)
      ensures old(page) > totalPages ==> page == totalPages
    {
      if page > totalPages {
        page := totalPages;
      }
    }

    /** The Previous button. */
    method Previous(totalPages: nat)
      requires InRange(totalPages)
      modifies this
      ensures InRange(totalPages)
      ensures page == if old(page) > 1 then old(page) - 1 else 1
    {
      page := Max(1, page - 1);
    }

    /** The Next button. */
    method Next(totalPages: nat)
      requires InRange(totalPages)
      modifies this
      ensures InRange(totalPages)
      ensures page == if old(page) < totalPages then old(page) + 1 else totalPages
    {
      page := Min(totalPages, page + 1);
    }
  }

  // ------------------------------------------------ selection

  function Ids(rows: seq<BlogRow>): (r: seq<int>)
    ensures |r| == |rows| && forall i :: 0 <= i < |rows| ==> r[i] == rows[i].id
  {
    seq(|rows|, i requires 0 <= i < |rows| => rows[i].id)
  }

  /** `allSelected`. */
  predicate AllSelected(selectable: bool, pageIds: seq<int>, selectedIds: seq<int>) {
    selectable && |pageIds| > 0 && forall id :: id in pageIds ==> id in selectedIds
  }

  /** `ids.filter((id) => !drop.has(id))`. */
  function Without(ids: seq<int>, drop: seq<int>): (r: seq<int>)
    ensures |r| <= |ids|
    ensures forall x :: x in r <==> x in ids && x !in drop
  {
    if ids == [] then []
    else if ids[0] in drop then Without(ids[1..], drop)
    else [ids[0]] + Without(ids[1..], drop)
  }

  /** `Array.from(new Set(ids))`: first occurrences, in order. */
  function Dedup(ids: seq<int>): (r: seq<int>)
    ensures forall x :: x in r <==> x in ids
    ensures forall i, j :: 0 <= i < j < |r| ==> r[i] != r[j]
  {
    if ids == [] then []
    else
      var d := Dedup(ids[..|ids| - 1]);
      assert ids == ids[..|ids| - 1] + [ids[|ids| - 1]];
      if ids[|ids| - 1] in d then d else d + [ids[|ids| - 1]]
  }

  /** `toggleAll`'s new selection: without the page's ids when all of them
      were selected, otherwise with them added once. */
  function ToggleAll(selectable: bool, pageIds: seq<int>, selectedIds: seq<int>): (r: seq<int>)
    ensures AllSelected(selectable, pageIds, selectedIds) ==> forall x :: x in r <==> x in selectedIds && x !in pageIds
    ensures !AllSelected(selectable, pageIds, selectedIds) ==> forall x :: x in r <==> x in selectedIds || x in pageIds
    ensures !AllSelected(selectable, pageIds, selectedIds) ==> forall i, j :: 0 <= i < j < |r| ==> r[i] != r[j]
  {
    if AllSelected(selectable, pageIds, selectedIds) then Without(selectedIds, pageIds)
    else Dedup(selectedIds + pageIds)
  }

  /** On a selectable, non-empty page the header checkbox flips: selecting
      all makes every row selected, and unselecting all leaves none of them
      selected; ids off the page keep their membership either way. */
  lemma ToggleAllFlips(pageIds: seq<int>, selectedIds: seq<int>, other: int)
    requires |pageIds| > 0 && other !in pageIds
    ensures var r := ToggleAll(true, pageIds, selectedIds);
            (AllSelected(true, pageIds, selectedIds) ==> forall id :: id in pageIds ==> id !in r)
            && (!AllSelected(true, pageIds, selectedIds) ==> AllSelected(true, pageIds, r))
            && (other in r <==> other in selectedIds)
  {
  }

  /** The row checkbox handler both pages pass in: a selected id is removed,
      an unselected one appended. */
  function ToggleRow(selectedIds: seq<int>, id: int): (r: seq<int>)
    ensures id in r <==> id !in selectedIds
    ensures forall x :: x != id ==> (x in r <==> x in selectedIds)
    ensures id !in selectedIds ==> r == selectedIds + [id]
  {
    if id in selectedIds then Without(selectedIds, [id]) else selectedIds + [id]
  }

  /** Toggling a row twice restores whether each id is selected. */
  lemma ToggleRowTwice(selectedIds: seq<int>, id: int, x: int)
    ensures x in ToggleRow(ToggleRow(selectedIds, id), id) <==> x in selectedIds
  {
  }

  /** `rows.filter((r) => !drop.has(r.id))`. */
  function RowsWithout(rows: seq<BlogRow>, drop: seq<int>): (r: seq<BlogRow>)
    ensures |r| <= |rows|
    ensures forall i :: 0 <= i < |r| ==> r[i].id !in drop
  {
    if rows == [] then []
    else if rows[0].id in drop then RowsWithout(rows[1..], drop)
    else [rows[0]] + RowsWithout(rows[1..], drop)
  }

  /** Deleting keeps exactly the rows whose id is not dropped. */
  lemma {:induction false} RowsWithoutMembers(rows: seq<BlogRow>, drop: seq<int>, x: BlogRow)
    ensures x in RowsWithout(rows, drop) <==> x in rows && x.id !in drop
  {
    if rows != [] {
      RowsWithoutMembers(rows[1..], drop, x);
      assert x in rows <==> x == rows[0] || x in rows[1..];
    }
  }

  /** `ids.filter((id) => keep.has(id))`. */
  function Within(ids: seq<int>, keep: seq<int>): (r: seq<int>)
    ensures |r| <= |ids|
    ensures forall x :: x in r <==> x in ids && x in keep
  {
    if ids == [] then []
    else if ids[0] in keep then [ids[0]] + Within(ids[1..], keep)
    else Within(ids[1..], keep)
  }
}
