/** The dashboard's table of generated blogs: row selection kept to rows
    that exist, deletion of one row or of the selection (or of everything
    when nothing is selected), and the CSV export of all rows. */
module CmsHome {
  import opened Common
  import opened TemplateTable

  // ------------------------------------------------ CSV export

  const Headers: seq<string> := ["blogTitle", "language", "tone", "creativity", "createdDate", "createdBy", "status"]

  /** The text `/[",\n]/` finds something in. */
  predicate NeedsQuoting(s: string) {
    '"' in s || ',' in s || '\n' in s
  }

  /** `s.replaceAll('"', '""')`. */
  function DoubleQuotes(s: string): (r: string)
    ensures |r| >= |s|
    ensures '\n' in r <==> '\n' in s
  {
    if s == [] then []
    else (if s[0] == '"' then "\"\"" else [s[0]]) + DoubleQuotes(s[1..])
  }

  /** The reading of a quoted field's inside: each `""` is one quote. */
  function UndoubleQuotes(s: string): string {
    if s == [] then []
    else if |s| >= 2 && s[0] == '"' && s[1] == '"' then "\"" + UndoubleQuotes(s[2..])
    else [s[0]] + UndoubleQuotes(s[1..])
  }

  lemma {:induction false} UndoubleDouble(s: string)
    ensures UndoubleQuotes(DoubleQuotes(s)) == s
  {
    if s != [] {
      UndoubleDouble(s[1..]);
      var rest := DoubleQuotes(s[1..]);
      if s[0] == '"' {
        assert DoubleQuotes(s) == "\"\"" + rest;
        assert (("\"\"" + rest)[2..]) == rest;
      } else {
        assert DoubleQuotes(s) == [s[0]] + rest;
        assert ([s[0]] + rest)[1..] == rest;
      }
    }
  }

  /** `escapeCsv(v)` for a present value. */
  function EscapeCsv(s: string): (r: string)
    ensures r == s <==> !NeedsQuoting(s)
    ensures '\n' in r <==> '\n' in s
  {
    if NeedsQuoting(s) then "\"" + DoubleQuotes(s) + "\"" else s
  }

  /** How a CSV reader recovers a field. */
  function UnescapeCsv(t: string): string {
    if |t| >= 2 && t[0] == '"' && t[|t| - 1] == '"' then UndoubleQuotes(t[1..|t| - 1]) else t
  }

  /** Every value survives escaping. */
  lemma EscapeRoundTrip(s: string)
    ensures UnescapeCsv(EscapeCsv(s)) == s
  {
    if NeedsQuoting(s) {
      var t := "\"" + DoubleQuotes(s) + "\"";
      assert t[1..|t| - 1] == DoubleQuotes(s);
      UndoubleDouble(s);
    } else if s != [] {
      assert s[0] in s;
    }
  }

  function Fields(r: BlogRow): seq<string> {
    [r.blogTitle, r.language, r.tone, r.creativity, r.createdDate, r.createdBy, r.status]
  }

  /** One CSV record: the escaped columns joined by commas. */
  function Record(r: BlogRow): string {
    var f := Fields(r);
    Join(seq(|f|, i requires 0 <= i < |f| => EscapeCsv(f[i])), ",")
  }

  function Records(rows: seq<BlogRow>): (r: seq<string>)
    ensures |r| == |rows| && forall i :: 0 <= i < |rows| ==> r[i] == Record(rows[i])
  {
    seq(|rows|, i requires 0 <= i < |rows| => Record(rows[i]))
  }

  /** The exported file: the header line, then one record per row. */
  function Csv(rows: seq<BlogRow>): string {
    Join([Join(Headers, ",")] + Records(rows), "\n")
  }

  lemma {:induction false} JoinAvoids(parts: seq<string>, sep: string, c: char)
    requires c !in sep && forall i :: 0 <= i < |parts| ==> c !in parts[i]
    ensures c !in Join(parts, sep)
  {
    if |parts| > 1 {
      JoinAvoids(parts[1..], sep, c);
    }
  }

  /** A row whose values hold no line break is one line of the export. */
  lemma RecordIsOneLine(r: BlogRow)
    requires forall i :: 0 <= i < |Fields(r)| ==> '\n' !in Fields(r)[i]
    ensures '\n' !in Record(r)
  {
    var f := Fields(r);
    JoinAvoids(seq(|f|, i requires 0 <= i < |f| => EscapeCsv(f[i])), ",", '\n');
  }

  lemma HeaderIsOneLine()
    ensures '\n' !in Join(Headers, ",")
  {
    forall i | 0 <= i < |Headers|
      ensures '\n' !in Headers[i]
    {
    }
    JoinAvoids(Headers, ",", '\n');
  }

  /** When no value holds a line break, the export's lines are exactly the
      header followed by the rows' records, in row order. */
  lemma CsvLines(rows: seq<BlogRow>)
    requires forall k, i :: 0 <= k < |rows| && 0 <= i < |Fields(rows[k])| ==> '\n' !in Fields(rows[k])[i]
    ensures Split(Csv(rows), '\n') == [Join(Headers, ",")] + Records(rows)
  {
    var recs := Records(rows);
    var lines := [Join(Headers, ",")] + recs;
    HeaderIsOneLine();
    forall i | 0 <= i < |lines|
      ensures '\n' !in lines[i]
    {
      if i > 0 {
        assert lines[i] == recs[i - 1];
        RecordIsOneLine(rows[i - 1]);
      }
    }
    SplitLinesBack(lines);
  }

  /** Lines without line breaks, joined by line breaks, split back into themselves. */
  lemma SplitLinesBack(lines: seq<string>)
    requires lines != [] && forall i :: 0 <= i < |lines| ==> '\n' !in lines[i]
    ensures Split(Join(lines, "\n"), '\n') == lines
  {
    assert "\n" == ['\n'];
    SplitJoin(lines, '\n');
  }

  /** A record of values that need no quoting splits back into the values. */
  lemma PlainRecordSplits(r: BlogRow)
    requires forall i :: 0 <= i < |Fields(r)| ==> !NeedsQuoting(Fields(r)[i])
    ensures Split(Record(r), ',') == Fields(r)
  {
    var f := Fields(r);
    var escaped := seq(|f|, i requires 0 <= i < |f| => EscapeCsv(f[i]));
    assert escaped == f;
    SplitJoin(f, ',');
  }

  // ------------------------------------------------ the page

  /** The dashboard's table state. */
  class Dashboard {
    var rows: seq<BlogRow>
    var search: string
    var selectedIds: seq<int>

    constructor(initial: seq<BlogRow>)
      ensures rows == initial && search == "" && selectedIds == []
    {
      rows := initial;
      search := "";
      selectedIds := [];
    }

    /** The effect run whenever the rows change: the selection keeps only
        ids of existing rows. */
    method PruneSelection()
      modifies this
      ensures selectedIds == Within(old(selectedIds), Ids(rows))
      ensures forall id :: id in selectedIds ==> id in Ids(rows)
      ensures rows == old(rows) && search == old(search)
    {
      selectedIds := Within(selectedIds, Ids(rows));
    }

    /** `onToggleRow`. */
    method ToggleRowSelection(id: int)
      modifies this
      ensures selectedIds == ToggleRow(old(selectedIds), id)
      ensures rows == old(rows) && search == old(search)
    {
      selectedIds := ToggleRow(selectedIds, id);
    }

    /** `onToggleAll`: the table computes the new selection. */
    method SetSelection(nextIds: seq<int>)
      modifies this
      ensures selectedIds == nextIds && rows == old(rows) && search == old(search)
    {
      selectedIds := nextIds;
    }

    /** `onDeleteRow`: every row with the row's id goes. */
    method DeleteRow(row: BlogRow)
      modifies this
      ensures rows == RowsWithout(old(rows), [row.id])
      ensures selectedIds == old(selectedIds) && search == old(search)
    {
      rows := RowsWithout(rows, [row.id]);
    }

    /** `onDeleteAll`: the selected rows, or every row when none is
        selected; the selection is emptied either way. */
    method DeleteAll()
      modifies this
      ensures old(selectedIds) != [] ==> rows == RowsWithout(old(rows), old(selectedIds))
      ensures old(selectedIds) == [] ==> rows == []
      ensures selectedIds == [] && search == old(search)
    {
      if selectedIds != [] {
        rows := RowsWithout(rows, selectedIds);
        selectedIds := [];
        return;
      }
      rows := [];
      selectedIds := [];
    }
  }

  /** After a row is deleted and the selection pruned, its id is no longer
      selected. */
  lemma DeletedRowUnselected(rows: seq<BlogRow>, selectedIds: seq<int>, row: BlogRow)
    ensures row.id !in Within(selectedIds, Ids(RowsWithout(rows, [row.id])))
  {
  }
}
