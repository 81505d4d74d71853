/** The preview-and-edit page of a generated blog. Its markdown keeps the
    cover image as one HTML line near the top: the page pulls that line out
    of the first candidate line (after an optional leading heading), puts a
    cover line back in the same place, makes sure the tag carries a width,
    falls back to the hero image when the text has none, and keeps the
    editor/preview split within bounds. The regular expressions that
    rewrite markdown image syntax and find an image's `src` or a markdown
    image are given as functions; the line tests the page spells out are
    written here as predicates. */
module PreviewEdited {
  import opened Common

  const DefaultHero := "https://images.unsplash.com/photo-1531297484001-80022131f5a1?auto=format&fit=crop&w=1600&q=80"

  /** The first markdown image in a line: its alt text and URL, and the
      text before and after it. */
  datatype MdImage = MdImage(alt: string, url: string, before: string, after: string)

  /** The regular-expression steps of the page: `normalizeCoverSyntax`,
      the `src` captured by the first `<img … src="…">` (or ""), and the
      first markdown image. */
  datatype Recognisers = Recognisers(
    normalize: string -> string,
    imgSrc: string -> string,
    mdImage: string -> Option<MdImage>)

  // ------------------------------------------------ the width attribute

  predicate IsWordChar(c: char) {
    ('a' <= c <= 'z') || ('A' <= c <= 'Z') || ('0' <= c <= '9') || c == '_'
  }

  /** `/^<img\b/i`. */
  predicate ImgTag(t: string) {
    |t| >= 4 && Lower(t[..4]) == "<img" && (|t| == 4 || !IsWordChar(t[4]))
  }

  /** What follows the whitespace `\s*` matches at the start of `s`. */
  function SkipSpaces(s: string): string {
    if s != [] && IsJsWhitespace(s[0]) then SkipSpaces(s[1..]) else s
  }

  /** `\s*=\s*["']` at the start of `s`. */
  predicate AssignsQuoted(s: string) {
    var a := SkipSpaces(s);
    |a| > 0 && a[0] == '='
    && var b := SkipSpaces(a[1..]);
       |b| > 0 && (b[0] == '"' || b[0] == '\'')
  }

  /** `/\bwidth\s*=\s*["']/` matching at position `i`. */
  predicate WidthAt(t: string, i: nat) {
    i + 5 <= |t| && (i == 0 || !IsWordChar(t[i - 1])) && t[i..i + 5] == "width" && AssignsQuoted(t[i + 5..])
  }

  predicate HasWidth(t: string) {
    exists i: nat | i + 5 <= |t| :: WidthAt(t, i)
  }

  const WidthAttr := " width=\"100%\""

  /** `ensureWidthAttr`: an `<img` tag without a quoted width gets
      `width="100%"` before its closing `/>` or `>` (the blanks before the
      closer dropped), or at its end; anything else is left alone. */
  function EnsureWidthAttr(tag: string): string {
    if tag == "" || !ImgTag(tag) || HasWidth(tag) then tag
    else if EndsWith(tag, "/>") then TrimEndBy(tag[..|tag| - 2], IsJsWhitespace) + WidthAttr + " />"
    else if EndsWith(tag, ">") then TrimEndBy(tag[..|tag| - 1], IsJsWhitespace) + WidthAttr + ">"
    else tag + WidthAttr
  }

  /** The attribute written after any text is a quoted width. */
  lemma WidthAdded(p: string, e: string)
    ensures WidthAt(p + WidthAttr + e, |p| + 1)
  {
    var t := p + WidthAttr + e;
    assert t[|p|] == ' ';
    assert t[|p| + 1..|p| + 6] == "width";
    var s := t[|p| + 6..];
    assert s == "=\"100%\"" + e;
    assert SkipSpaces(s) == s;
    assert s[1..] == "\"100%\"" + e;
    assert SkipSpaces(s[1..]) == s[1..];
  }

  /** Non-`<img` text and tags that already carry a width are unchanged;
      every other tag comes out with a width, as `… width="100%" />`,
      `… width="100%">` or `… width="100%"` after the tag's own text. */
  lemma EnsureWidthAttrCases(tag: string)
    ensures !ImgTag(tag) || HasWidth(tag) ==> EnsureWidthAttr(tag) == tag
    ensures ImgTag(tag) && !HasWidth(tag) ==>
              HasWidth(EnsureWidthAttr(tag))
              && (EndsWith(tag, "/>") ==> EndsWith(EnsureWidthAttr(tag), WidthAttr + " />"))
              && (!EndsWith(tag, "/>") && EndsWith(tag, ">") ==> EndsWith(EnsureWidthAttr(tag), WidthAttr + ">"))
              && (!EndsWith(tag, ">") ==> EnsureWidthAttr(tag) == tag + WidthAttr)
  {
    if ImgTag(tag) && !HasWidth(tag) {
      var r := EnsureWidthAttr(tag);
      if EndsWith(tag, "/>") {
        var p := TrimEndBy(tag[..|tag| - 2], IsJsWhitespace);
        assert r == p + WidthAttr + " />";
        WidthBeforeCloser(p, " />");
      } else if EndsWith(tag, ">") {
        var p := TrimEndBy(tag[..|tag| - 1], IsJsWhitespace);
        assert r == p + WidthAttr + ">";
        WidthBeforeCloser(p, ">");
      } else {
        assert r == tag + WidthAttr + "";
        WidthBeforeCloser(tag, "");
      }
    }
  }

  /** Text with the width and a closer appended has a width and ends with
      that attribute and closer. */
  lemma WidthBeforeCloser(p: string, closer: string)
    ensures HasWidth(p + WidthAttr + closer)
    ensures EndsWith(p + WidthAttr + closer, WidthAttr + closer)
  {
    WidthAdded(p, closer);
    EndsWithAppended(p, WidthAttr + closer);
    assert p + WidthAttr + closer == p + (WidthAttr + closer);
  }

  lemma EndsWithAppended(p: string, q: string)
    ensures EndsWith(p + q, q)
  {
    assert (p + q)[|p|..] == q;
  }

  /** Adding the width twice is the same as adding it once. */
  lemma EnsureWidthAttrIdempotent(tag: string)
    ensures EnsureWidthAttr(EnsureWidthAttr(tag)) == EnsureWidthAttr(tag)
  {
    EnsureWidthAttrCases(tag);
  }

  /** The tag written for a markdown cover or a hero image. */
  function CoverTag(url: string, alt: string): string {
    "<img src=\"" + url + "\" alt=\"" + alt + "\"" + WidthAttr + " />"
  }

  /** A written cover tag already has its width, so `ensureWidthAttr`
      keeps it as it is. */
  lemma CoverTagKeepsWidth(url: string, alt: string)
    ensures HasWidth(CoverTag(url, alt))
    ensures EnsureWidthAttr(CoverTag(url, alt)) == CoverTag(url, alt)
  {
    var p := "<img src=\"" + url + "\" alt=\"" + alt + "\"";
    WidthAdded(p, " />");
    assert CoverTag(url, alt) == p + WidthAttr + " />";
  }

  // ------------------------------------------------ lines

  /** `line.trim() === ""`: the line holds only whitespace (see BlankIsTrimEmpty). */
  predicate Blank(line: string) {
    line == [] || (IsJsWhitespace(line[0]) && Blank(line[1..]))
  }

  lemma {:induction false} BlankAll(line: string)
    ensures Blank(line) <==> forall i :: 0 <= i < |line| ==> IsJsWhitespace(line[i])
  {
    if line != [] {
      BlankAll(line[1..]);
      assert forall i :: 1 <= i < |line| ==> line[i] == line[1..][i - 1];
    }
  }

  /** The predicate is JavaScript's blank test. */
  lemma BlankIsTrimEmpty(line: string)
    ensures Blank(line) <==> JsTrim(line) == ""
  {
    BlankAll(line);
    var t := TrimStartBy(line, IsJsWhitespace);
    if JsTrim(line) == "" {
      assert t == [];
    }
  }

  /** `line.trim().startsWith("#")`: the first character that is not
      whitespace is `#` (see HeadingIsTrimHash). */
  predicate Heading(line: string) {
    line != [] && if IsJsWhitespace(line[0]) then Heading(line[1..]) else line[0] == '#'
  }

  /** The predicate is JavaScript's heading test. */
  lemma {:induction false} HeadingIsTrimHash(line: string)
    ensures Heading(line) <==> StartsWith(JsTrim(line), "#")
  {
    var t := TrimStartBy(line, IsJsWhitespace);
    if line != [] && IsJsWhitespace(line[0]) {
      HeadingIsTrimHash(line[1..]);
      assert TrimStartBy(line, IsJsWhitespace) == TrimStartBy(line[1..], IsJsWhitespace);
    }
    if t != [] {
      var e := TrimEndBy(t, IsJsWhitespace);
      assert e != [] && e[0] == t[0];
    }
  }

  /** The first line at or after `i` that is not blank. */
  function SkipBlank(lines: seq<string>, i: nat): (j: nat)
    requires i <= |lines|
    ensures i <= j <= |lines|
    ensures forall k :: i <= k < j ==> Blank(lines[k])
    ensures j < |lines| ==> !Blank(lines[j])
    decreases |lines| - i
  {
    if i < |lines| && Blank(lines[i]) then SkipBlank(lines, i + 1) else i
  }

  /** Blanks from `i` up to a non-blank line `j` are skipped to `j`. */
  lemma SkipBlankTo(lines: seq<string>, i: nat, j: nat)
    requires i <= j <= |lines|
    requires forall k :: i <= k < j ==> Blank(lines[k])
    requires j < |lines| ==> !Blank(lines[j])
    ensures SkipBlank(lines, i) == j
    decreases j - i
  {
    if i < j {
      SkipBlankTo(lines, i + 1, j);
    }
  }

  /** The one line the page looks at for a cover: the first non-blank line,
      or the first non-blank line after it when that one is a heading.
      Before it there is at most one non-blank line, and that is a
      heading. */
  function Candidate(lines: seq<string>): (c: nat)
    ensures c <= |lines|
    ensures c < |lines| ==> !Blank(lines[c])
    ensures forall k :: 0 <= k < c && !Blank(lines[k]) ==> Heading(lines[k])
    ensures forall k, m :: 0 <= k < m < c ==> Blank(lines[k]) || Blank(lines[m])
  {
    var i := SkipBlank(lines, 0);
    if i < |lines| && Heading(lines[i]) then SkipBlank(lines, i + 1) else i
  }

  // ------------------------------------------------ recognising a cover line

  /** `/^<img\b[^>]*>\s*$/i` on a trimmed line. */
  predicate ImgLine(l: string) {
    ImgTag(l) && |l| >= 5 && l[|l| - 1] == '>' && '>' !in l[4..|l| - 1]
  }

  /** The trimmed line without `<p>` and its blanks at the front. */
  function AfterOpenP(l: string): string {
    if |l| >= 3 && Lower(l[..3]) == "<p>" then TrimStartBy(l[3..], IsJsWhitespace) else l
  }

  /** The tag inside `<p> … </p>`, the blanks around it dropped. */
  function PImgInner(l: string): string {
    var rest := AfterOpenP(l);
    if |rest| >= 4 && Lower(rest[|rest| - 4..]) == "</p>" then TrimEndBy(rest[..|rest| - 4], IsJsWhitespace) else rest
  }

  /** `/^<p>\s*<img\b[^>]*>\s*<\/p>\s*$/i` on a trimmed line. */
  predicate PImgLine(l: string) {
    |l| >= 3 && Lower(l[..3]) == "<p>"
    && var rest := AfterOpenP(l);
       |rest| >= 4 && Lower(rest[|rest| - 4..]) == "</p>" && ImgLine(PImgInner(l))
  }

  /** The cover tag a trimmed candidate line holds as HTML, or "". */
  function HtmlCover(raw: string): string {
    if PImgLine(raw) then PImgInner(raw) else if ImgLine(raw) then raw else ""
  }

  /** The markdown image a trimmed line holds and nothing else. */
  function MdCover(raw: string, rx: Recognisers): Option<MdImage> {
    var m := rx.mdImage(raw);
    if m.Some? && JsTrim(m.value.before + m.value.after) == "" then m else None
  }

  /** The line list without the line at `c`, and without the empty line
      that followed it, if any. */
  function RemoveCover(lines: seq<string>, c: nat): (r: seq<string>)
    requires c < |lines|
    ensures r == lines[..c] + lines[c + 1..] || (c + 1 < |lines| && lines[c + 1] == "" && r == lines[..c] + lines[c + 2..])
  {
    if c + 1 < |lines| && lines[c + 1] == "" then lines[..c] + lines[c + 2..] else lines[..c] + lines[c + 1..]
  }

  /** `lines.splice(i, 1)`. */
  function Splice(lines: seq<string>, i: nat): (r: seq<string>)
    requires i < |lines|
    ensures |r| == |lines| - 1
    ensures forall k :: 0 <= k < i ==> r[k] == lines[k]
    ensures forall k :: i <= k < |r| ==> r[k] == lines[k + 1]
  {
    lines[..i] + lines[i + 1..]
  }

  /** Splicing out the cover line, then the empty line that moved into its
      place, is the removal `extractCoverLine` makes. */
  lemma SpliceCover(lines: seq<string>, i: nat)
    requires i < |lines|
    ensures var once := Splice(lines, i);
            (if i < |once| && once[i] == "" then Splice(once, i) else once) == RemoveCover(lines, i)
  {
    var once := Splice(lines, i);
    if i < |once| && once[i] == "" {
      assert Splice(once, i) == lines[..i] + lines[i + 2..];
    }
  }

  datatype Extracted = Extracted(cover: string, url: string, body: seq<string>)

  /** What `extractCoverLine` finds in the lines of normalised content. */
  function ExtractLines(lines: seq<string>, rx: Recognisers): Extracted {
    var c := Candidate(lines);
    if c == |lines| then Extracted("", "", lines)
    else
      var raw := JsTrim(lines[c]);
      var img := HtmlCover(raw);
      if img != "" then Extracted(EnsureWidthAttr(img), rx.imgSrc(img), RemoveCover(lines, c))
      else
        var md := MdCover(raw, rx);
        if md.Some? then
          var alt := if md.value.alt != "" then md.value.alt else "Cover";
          Extracted(CoverTag(md.value.url, alt), md.value.url, RemoveCover(lines, c))
        else Extracted("", "", lines)
  }

  /** A cover is found exactly when the candidate line is an `<img>` tag,
      alone or inside `<p>`, or a markdown image with nothing else on the
      line; then the cover tag has a width and the body loses the
      candidate line and at most one empty line after it. Otherwise
      nothing is found and the lines are kept as they are. */
  lemma ExtractCases(lines: seq<string>, rx: Recognisers)
    ensures var c := Candidate(lines);
            var e := ExtractLines(lines, rx);
            (e.cover != "" <==> c < |lines| && (HtmlCover(JsTrim(lines[c])) != "" || MdCover(JsTrim(lines[c]), rx).Some?))
            && (e.cover == "" ==> e.body == lines && e.url == "")
            && (e.cover != "" ==> c < |lines| && e.body == RemoveCover(lines, c) && HasWidth(e.cover))
  {
    var c := Candidate(lines);
    if c < |lines| {
      var raw := JsTrim(lines[c]);
      var img := HtmlCover(raw);
      if img != "" {
        assert ImgTag(img);
        EnsureWidthAttrCases(img);
      } else {
        var md := MdCover(raw, rx);
        if md.Some? {
          CoverTagKeepsWidth(md.value.url, if md.value.alt != "" then md.value.alt else "Cover");
        }
      }
    }
  }

  /** The content `extractCoverLine` returns. */
  function ExtractContent(content: string, rx: Recognisers): (string, string, string) {
    var e := ExtractLines(SplitLines(rx.normalize(content)), rx);
    (e.cover, e.url, Join(e.body, "\n"))
  }

  /** `extractCoverLine`. */
  method ExtractCoverLine(content: string, rx: Recognisers) returns (coverLine: string, coverUrl: string, body: string)
    ensures (coverLine, coverUrl, body) == ExtractContent(content, rx)
  {
    var lines := SplitLines(rx.normalize(content));
    ghost var original := lines;
    ghost var e := ExtractLines(original, rx);
    assert ExtractContent(content, rx) == (e.cover, e.url, Join(e.body, "\n"));
    var idx := 0;
    while idx < |lines| && Blank(lines[idx])
      invariant idx <= |lines|
      invariant SkipBlank(lines, idx) == SkipBlank(lines, 0)
    {
      idx := idx + 1;
    }
    if idx < |lines| && Heading(lines[idx]) {
      idx := idx + 1;
      while idx < |lines| && Blank(lines[idx])
        invariant idx <= |lines|
        invariant SkipBlank(lines, idx) == Candidate(lines)
      {
        idx := idx + 1;
      }
    }
    assert idx == Candidate(lines);
    coverLine := "";
    coverUrl := "";
    if idx < |lines| {
      var raw := JsTrim(lines[idx]);
      var imgLine := HtmlCover(raw);
      if imgLine != "" {
        coverLine := EnsureWidthAttr(imgLine);
        coverUrl := rx.imgSrc(imgLine);
        SpliceCover(lines, idx);
        lines := Splice(lines, idx);
        if idx < |lines| && lines[idx] == "" {
          lines := Splice(lines, idx);
        }
        assert e == Extracted(coverLine, coverUrl, lines);
        body := Join(lines, "\n");
        return;
      }
      var m := MdCover(raw, rx);
      if m.Some? {
        coverUrl := m.value.url;
        var alt := if m.value.alt != "" then m.value.alt else "Cover";
        coverLine := CoverTag(coverUrl, alt);
        SpliceCover(lines, idx);
        lines := Splice(lines, idx);
        if idx < |lines| && lines[idx] == "" {
          lines := Splice(lines, idx);
        }
        assert e == Extracted(coverLine, coverUrl, lines);
      } else {
        assert e == Extracted("", "", original);
      }
    } else {
      assert e == Extracted("", "", original);
    }
    body := Join(lines, "\n");
  }

  // ------------------------------------------------ putting the cover back

  /** Where `insertCoverLine` puts the cover: right after a leading heading,
      dropping the blanks that followed it, or first, dropping leading
      blanks; the cover is followed by one empty line. */
  function InsertLines(lines: seq<string>, cover: string): seq<string> {
    var i := SkipBlank(lines, 0);
    if i < |lines| && Heading(lines[i]) then lines[..i + 1] + [cover, ""] + lines[SkipBlank(lines, i + 1)..]
    else [cover, ""] + lines[i..]
  }

  /** The text `insertCoverLine` returns. */
  function InsertContent(body: string, cover: string): string {
    if cover == "" then body else Join(InsertLines(SplitLines(body), cover), "\n")
  }

  /** `insertCoverLine`. */
  method InsertCoverLine(body: string, coverLine: string) returns (r: string)
    ensures r == InsertContent(body, coverLine)
  {
    if coverLine == "" {
      return body;
    }
    var lines := SplitLines(body);
    var idx := FirstNonBlank(lines);
    if idx < |lines| && Heading(lines[idx]) {
      var before := lines[..idx + 1];
      var after := DropBlanks(lines, idx + 1);
      return Join(before + [coverLine, ""] + after, "\n");
    }
    lines := DropBlanks(lines, 0);
    return Join([coverLine, ""] + lines, "\n");
  }

  /** The scan for the first line that is not blank. */
  method FirstNonBlank(lines: seq<string>) returns (idx: nat)
    ensures idx == SkipBlank(lines, 0)
  {
    idx := 0;
    while idx < |lines| && Blank(lines[idx])
      invariant idx <= |lines|
      invariant SkipBlank(lines, idx) == SkipBlank(lines, 0)
    {
      idx := idx + 1;
    }
  }

  /** The lines from `from` on, with the blank lines at their front shifted off. */
  method DropBlanks(lines: seq<string>, from: nat) returns (rest: seq<string>)
    requires from <= |lines|
    ensures rest == lines[SkipBlank(lines, from)..]
  {
    rest := lines[from..];
    ghost var k := from;
    while |rest| > 0 && Blank(rest[0])
      invariant from <= k <= |lines| && rest == lines[k..]
      invariant SkipBlank(lines, k) == SkipBlank(lines, from)
    {
      rest := rest[1..];
      k := k + 1;
    }
  }

  /** The lines that survive an insertion, apart from the cover and its
      empty line: everything up to a leading heading, then the text from
      its first non-blank line on. */
  function KeptLines(lines: seq<string>): seq<string> {
    var i := SkipBlank(lines, 0);
    if i < |lines| && Heading(lines[i]) then lines[..i + 1] + lines[SkipBlank(lines, i + 1)..]
    else lines[i..]
  }

  /** A trimmed `<img …>` line with a width is a cover line as it stands:
      not blank, not a heading, recognised whole and given no new width. */
  lemma CoverLineRecognised(cover: string)
    requires ImgLine(cover) && HasWidth(cover) && JsTrim(cover) == cover
    ensures !Blank(cover) && !Heading(cover)
    ensures HtmlCover(JsTrim(cover)) == cover
    ensures EnsureWidthAttr(cover) == cover
  {
    assert cover[0] == '<';
    assert Lower(cover[..3]) != "<p>" by {
      assert Lower(cover[..4])[..3] == Lower(cover[..3]);
    }
    EnsureWidthAttrCases(cover);
  }

  /** Extracting after inserting a cover tag finds that tag, its source and
      the lines around it, minus the blank lines the insertion dropped. */
  lemma ExtractAfterInsert(lines: seq<string>, cover: string, rx: Recognisers)
    requires ImgLine(cover) && HasWidth(cover) && JsTrim(cover) == cover
    ensures ExtractLines(InsertLines(lines, cover), rx) == Extracted(cover, rx.imgSrc(cover), KeptLines(lines))
  {
    CoverLineRecognised(cover);
    var i := SkipBlank(lines, 0);
    if i < |lines| && Heading(lines[i]) {
      InsertedAfterHeading(lines, cover, i);
    } else {
      InsertedFirst(lines, cover, i);
    }
  }

  lemma InsertedAfterHeading(lines: seq<string>, cover: string, i: nat)
    requires !Blank(cover)
    requires i == SkipBlank(lines, 0) && i < |lines| && Heading(lines[i])
    ensures var ins := InsertLines(lines, cover);
            Candidate(ins) == i + 1 < |ins| && ins[i + 1] == cover
            && RemoveCover(ins, i + 1) == KeptLines(lines)
  {
    var j := SkipBlank(lines, i + 1);
    var ins := InsertLines(lines, cover);
    assert ins == lines[..i + 1] + [cover, ""] + lines[j..];
    assert ins[i + 1] == cover && ins[i + 2] == "";
    assert SkipBlank(ins, 0) == i by {
      SkipBlankTo(ins, 0, i);
    }
    assert SkipBlank(ins, i + 1) == i + 1 by {
      SkipBlankTo(ins, i + 1, i + 1);
    }
    assert RemoveCover(ins, i + 1) == lines[..i + 1] + lines[j..] by {
      assert ins[..i + 1] == lines[..i + 1];
      assert ins[i + 3..] == lines[j..];
    }
  }

  lemma InsertedFirst(lines: seq<string>, cover: string, i: nat)
    requires !Blank(cover) && !Heading(cover)
    requires i == SkipBlank(lines, 0) && !(i < |lines| && Heading(lines[i]))
    ensures var ins := InsertLines(lines, cover);
            Candidate(ins) == 0 < |ins| && ins[0] == cover
            && RemoveCover(ins, 0) == KeptLines(lines)
  {
    var ins := InsertLines(lines, cover);
    SkipBlankTo(ins, 0, 0);
    assert RemoveCover(ins, 0) == lines[i..];
  }

  // ------------------------------------------------ the editable markdown

  /** `createEditableMarkdown`: the markdown with its cover line, and the
      cover URL (the extracted one, else a non-default hero image). */
  function CreateEditable(content: string, heroUrl: string, rx: Recognisers): (r: (string, string)) {
    var (coverLine, coverUrl, body) := ExtractContent(content, rx);
    var finalUrl := if coverUrl == "" && heroUrl != "" && heroUrl != DefaultHero then heroUrl else coverUrl;
    var line := EnsureWidthAttr(if coverLine == "" && finalUrl != "" then CoverTag(finalUrl, "Cover") else coverLine);
    var markdown := if line != "" then InsertContent(body, line) else if body != "" then body else content;
    (markdown, finalUrl)
  }

  /** The hero image becomes the cover only when the content has none and
      the hero is set and not the default picture; then the cover line is
      that image's tag, inserted into the body. */
  lemma HeroFallback(content: string, heroUrl: string, rx: Recognisers)
    ensures var (coverLine, coverUrl, body) := ExtractContent(content, rx);
            var r := CreateEditable(content, heroUrl, rx);
            (coverUrl != "" ==> r.1 == coverUrl)
            && (coverUrl == "" && (heroUrl == "" || heroUrl == DefaultHero) ==> r.1 == "")
            && (coverUrl == "" && heroUrl != "" && heroUrl != DefaultHero ==> r.1 == heroUrl)
            && (coverLine == "" && coverUrl == "" && heroUrl != "" && heroUrl != DefaultHero ==>
                  r.0 == InsertContent(body, CoverTag(heroUrl, "Cover")))
  {
    var (coverLine, coverUrl, body) := ExtractContent(content, rx);
    if coverLine == "" && coverUrl == "" && heroUrl != "" && heroUrl != DefaultHero {
      CoverTagKeepsWidth(heroUrl, "Cover");
    }
  }

  /** `extractCoverUrl`: the first image `src` in the first 1200 characters,
      else the URL of the first markdown image there. */
  function ExtractCoverUrl(content: string, rx: Recognisers): string {
    if content == "" then ""
    else
      var head := content[..Min(|content|, 1200)];
      if rx.imgSrc(head) != "" then rx.imgSrc(head)
      else
        var md := rx.mdImage(head);
        if md.Some? then md.value.url else ""
  }

  /** Only the first 1200 characters are searched. */
  lemma CoverUrlLooksAtHead(content: string, more: string, rx: Recognisers)
    requires |content| >= 1200
    ensures ExtractCoverUrl(content + more, rx) == ExtractCoverUrl(content, rx)
  {
    assert (content + more)[..1200] == content[..1200];
  }

  // ------------------------------------------------ the split between editor and preview

  /** The stored split percent, or 50 when it is not a finite number in
      [25, 75]; `None` stands for a value that is not finite. */
  function InitialSplit(stored: Option<real>): (r: real)
    ensures 25.0 <= r <= 75.0
    ensures stored.Some? && 25.0 <= stored.value <= 75.0 ==> r == stored.value
    ensures stored.None? || stored.value < 25.0 || stored.value > 75.0 ==> r == 50.0
  {
    if stored.Some? && stored.value >= 25.0 && stored.value <= 75.0 then stored.value else 50.0
  }

  /** `Math.min(75, Math.max(25, next))`. */
  function ClampSplit(next: real): (r: real)
    ensures 25.0 <= r <= 75.0
    ensures 25.0 <= next <= 75.0 ==> r == next
    ensures next < 25.0 ==> r == 25.0
    ensures next > 75.0 ==> r == 75.0
  {
    if next < 25.0 then 25.0 else if next > 75.0 then 75.0 else next
  }

  /** Dragging further never moves the split back. */
  lemma ClampSplitMonotone(a: real, b: real)
    requires a <= b
    ensures ClampSplit(a) <= ClampSplit(b)
  {
  }

  /** The page's editor state: the markdown being edited and the split. */
  class Editor {
    var markdown: string
    var splitPercent: real

    predicate Valid()
      reads this
    {
      25.0 <= splitPercent <= 75.0
    }

    /** The page opens on the editable form of the saved content. */
    constructor(content: string, heroUrl: string, storedSplit: Option<real>, rx: Recognisers)
      ensures Valid()
      ensures markdown == CreateEditable(content, heroUrl, rx).0
      ensures splitPercent == InitialSplit(storedSplit)
    {
      markdown := CreateEditable(content, heroUrl, rx).0;
      splitPercent := InitialSplit(storedSplit);
    }

    /** A mouse move while resizing. */
    method Drag(next: real)
      modifies this
      requires Valid()
      ensures Valid()
      ensures splitPercent == ClampSplit(next)
      ensures markdown == old(markdown)
    {
      splitPercent := ClampSplit(next);
    }

    /** Typing in the editor. */
    method Edit(text: string)
      modifies this
      requires Valid()
      ensures Valid()
      ensures markdown == text && splitPercent == old(splitPercent)
    {
      markdown := text;
    }
  }
}
