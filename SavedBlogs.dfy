/** The saved-blogs page: the same table as the dashboard, where deleting a
    row also unselects it, deleting all empties the table whatever is
    selected, and the badge counts the rows. */
module SavedBlogs {
  import opened Common
  import opened TemplateTable

  /** `badgeText`: "<count> Blogs". */
  function BadgeText(count: nat): (r: string)
    ensures EndsWith(r, " Blogs")
  {
    NatToString(count) + " Blogs"
  }

  /** The count the badge shows reads back as the number of rows. */
  lemma BadgeCounts(count: nat)
    ensures var b := BadgeText(count);
            |b| > 6 && (forall i :: 0 <= i < |b| - 6 ==> '0' <= b[i] <= '9')
            && DecimalValue(b[..|b| - 6]) == count
  {
    var b := BadgeText(count);
    assert b[..|b| - 6] == NatToString(count);
    DecimalRoundTrip(count);
  }

  /** The page's table state. */
  class SavedBlogsPage {
    var rows: seq<BlogRow>
    var query: string
    var selectedIds: seq<int>

    constructor(initial: seq<BlogRow>)
      ensures rows == initial && query == "" && selectedIds == []
    {
      rows := initial;
      query := "";
      selectedIds := [];
    }

    function Badge(): string
      reads this
    {
      BadgeText(|rows|)
    }

    /** `toggleRow`. */
    method ToggleRowSelection(id: int)
      modifies this
      ensures selectedIds == ToggleRow(old(selectedIds), id)
      ensures rows == old(rows) && query == old(query)
    {
      selectedIds := ToggleRow(selectedIds, id);
    }

    /** `toggleAll`: the table computes the new selection. */
    method SetSelection(nextIds: seq<int>)
      modifies this
      ensures selectedIds == nextIds && rows == old(rows) && query == old(query)
    {
      selectedIds := nextIds;
    }

    /** `deleteAll`: every row goes, whatever is selected. */
    method DeleteAll()
      modifies this
      ensures rows == [] && selectedIds == [] && query == old(query)
      ensures Badge() == "0 Blogs"
    {
      rows := [];
      selectedIds := [];
    }

    /** `deleteRow`: the rows with the row's id go, and so does the id from
        the selection. */
    method DeleteRow(row: BlogRow)
      modifies this
      ensures rows == RowsWithout(old(rows), [row.id])
      ensures selectedIds == Without(old(selectedIds), [row.id])
      ensures row.id !in selectedIds && forall x :: x != row.id ==> (x in selectedIds <==> x in old(selectedIds))
      ensures query == old(query)
    {
      rows := RowsWithout(rows, [row.id]);
      selectedIds := Without(selectedIds, [row.id]);
    }
  }
}
