/** The gallery page: the image list of the chosen tab loaded from the API,
    the aspect ratio read from each image's metadata, the masonry columns
    (the card's layout with those ratios), and the upload of picked files
    one after another followed by one reload. */
module GalleryPage {
  import opened Common
  import GalleryCard

  // ------------------------------------------------ tabs and paths

  const Tabs: seq<string> := ["all", "upload", "ai"]

  const Base := "/images?limit=60"

  /** `buildPath(tabId)`: the list endpoint, filtered by source for the two
      source tabs. */
  function BuildPath(tab: string): (r: string)
    ensures StartsWith(r, Base)
    ensures tab == "upload" ==> r == Base + "&source=upload"
    ensures tab == "ai" ==> r == Base + "&source=ai"
    ensures tab != "upload" && tab != "ai" ==> r == Base
  {
    if tab == "upload" then Base + "&source=upload"
    else if tab == "ai" then Base + "&source=ai"
    else Base
  }

  /** Each tab asks for a different list. */
  lemma TabsDistinctPaths(a: string, b: string)
    requires a in Tabs && b in Tabs && a != b
    ensures BuildPath(a) != BuildPath(b)
  {
    assert |BuildPath("all")| < |BuildPath("ai")| < |BuildPath("upload")|;
  }

  // ------------------------------------------------ metadata

  /** `meta?.[key]`: a property of an object, undefined (None) otherwise. */
  function Prop(meta: Json, key: string): Option<Json> {
    if meta.JObj? && key in meta.fields then Some(meta.fields[key]) else None
  }

  /** `a || b` on two possibly undefined values. */
  function OrElse(a: Option<Json>, b: Option<Json>): Option<Json> {
    if a.Some? && Truthy(a.value) then a else b
  }

  /** `Number(v)`, with None for NaN; `toNumber` reads a string. */
  function NumberOf(v: Option<Json>, toNumber: string -> Option<real>): Option<real> {
    match v
    case None => None
    case Some(JNull) => Some(0.0)
    case Some(JBool(b)) => Some(if b then 1.0 else 0.0)
    case Some(JNum(n)) => Some(n as real)
    case Some(JStr(s)) => toNumber(s)
    case Some(_) => None
  }

  predicate Positive(x: Option<real>) {
    x.Some? && x.value > 0.0
  }

  /** `parseAspectRatio(meta)`: a "w:h" ratio text, else a positive ratio
      number, else width over height, else 1. */
  function ParseAspectRatio(meta: Json, toNumber: string -> Option<real>): (r: real)
    ensures r > 0.0
  {
    var ratio := OrElse(Prop(meta, "aspect_ratio"), Prop(meta, "aspectRatio"));
    var parts := if ratio.Some? && ratio.value.JStr? && ':' in ratio.value.s then Split(ratio.value.s, ':') else [];
    var w := if |parts| >= 2 then toNumber(parts[0]) else None;
    var h := if |parts| >= 2 then toNumber(parts[1]) else None;
    var width := NumberOf(OrElse(Prop(meta, "width"), Prop(meta, "w")), toNumber);
    var height := NumberOf(OrElse(Prop(meta, "height"), Prop(meta, "h")), toNumber);
    if Positive(w) && Positive(h) then w.value / h.value
    else if ratio.Some? && ratio.value.JNum? && ratio.value.n > 0 then ratio.value.n as real
    else if Positive(width) && Positive(height) then width.value / height.value
    else 1.0
  }

  /** A "w:h" text whose halves read as positive numbers gives w / h. */
  lemma RatioText(a: string, b: string, w: real, h: real, toNumber: string -> Option<real>)
    requires ':' !in a && ':' !in b
    requires toNumber(a) == Some(w) && toNumber(b) == Some(h) && w > 0.0 && h > 0.0
    ensures ParseAspectRatio(JObj(map["aspect_ratio" := JStr(a + ":" + b)]), toNumber) == w / h
  {
    FirstSeparator(a, b, ':');
    var s := a + ":" + b;
    assert s[..|a|] == a && s[|a| + 1..] == b;
    assert Split(s, ':') == [a, b];
  }

  /** Without a usable ratio, the width and height decide; without those
      either, the image is square. */
  lemma RatioFallbacks(width: int, height: int, toNumber: string -> Option<real>)
    requires width > 0 && height > 0
    ensures ParseAspectRatio(JObj(map["width" := JNum(width), "height" := JNum(height)]), toNumber)
            == width as real / height as real
    ensures ParseAspectRatio(JObj(map["aspect_ratio" := JNum(width)]), toNumber) == width as real
    ensures ParseAspectRatio(JObj(map[]), toNumber) == 1.0
    ensures ParseAspectRatio(JNull, toNumber) == 1.0
  {
  }

  // ------------------------------------------------ the list

  /** One listed image as the page keeps it. */
  datatype Image = Image(id: Option<Json>, src: Option<Json>, source: Json, meta: Json)

  /** The mapping of one API item: `source || ""`, `meta || {}`. */
  function ImageOf(item: Json): (r: Image)
    ensures Truthy(r.source) || r.source == JStr("")
    ensures Truthy(r.meta)
  {
    var source := Prop(item, "source");
    var meta := Prop(item, "meta");
    Image(Prop(item, "id"), Prop(item, "image_url"),
          if source.Some? && Truthy(source.value) then source.value else JStr(""),
          if meta.Some? && Truthy(meta.value) then meta.value else JObj(map[]))
  }

  /** `(data?.items || []).map(...)`. */
  function ImagesOf(data: Json): (r: seq<Image>)
    ensures var items := Prop(data, "items");
            items.Some? && items.value.JArr? ==>
              |r| == |items.value.items| && forall i :: 0 <= i < |r| ==> r[i] == ImageOf(items.value.items[i])
    ensures Prop(data, "items").None? ==> r == []
  {
    var items := Prop(data, "items");
    if items.Some? && items.value.JArr? then
      seq(|items.value.items|, i requires 0 <= i < |items.value.items| => ImageOf(items.value.items[i]))
    else []
  }

  /** An image's height step in the masonry: from its metadata's ratio. */
  function PageSteps(images: seq<Image>, toNumber: string -> Option<real>): (r: seq<real>)
    ensures |r| == |images|
    ensures forall i :: 0 <= i < |images| ==> r[i] == GalleryCard.Step(ParseAspectRatio(images[i].meta, toNumber))
  {
    seq(|images|, i requires 0 <= i < |images| => GalleryCard.Step(ParseAspectRatio(images[i].meta, toNumber)))
  }

  /** Each image with the ratio it is shown at (`{ ...img, ratio }`). */
  function WithRatios(images: seq<Image>, toNumber: string -> Option<real>): (r: seq<(Image, real)>)
    ensures |r| == |images|
    ensures forall i :: 0 <= i < |images| ==> r[i].0 == images[i] && r[i].1 > 0.0
  {
    seq(|images|, i requires 0 <= i < |images| => (images[i], ParseAspectRatio(images[i].meta, toNumber)))
  }

  /** The index of the first failed upload, or the number of uploads. */
  function FirstFailure(outcomes: seq<Option<string>>): (r: nat)
    ensures r <= |outcomes|
    ensures r < |outcomes| ==> outcomes[r].Some?
    ensures forall j :: 0 <= j < r ==> outcomes[j].None?
  {
    if outcomes == [] then 0
    else if outcomes[0].Some? then 0
    else 1 + FirstFailure(outcomes[1..])
  }

  const LoadFailedMessage := "Failed to load images."
  const UploadFailedMessage := "Failed to upload images."

  // ------------------------------------------------ the page

  /** The page's state. */
  class Gallery {
    var activeTab: string
    var images: seq<Image>
    var loading: bool
    var error: string
    var uploadError: string
    var columnCount: nat

    constructor()
      ensures activeTab == "all" && images == [] && !loading && error == "" && uploadError == ""
      ensures columnCount == 1
    {
      activeTab := "all";
      images := [];
      loading := false;
      error := "";
      uploadError := "";
      columnCount := 1;
    }

    /** `loadImages(tab)` with the API's answer; returns the path asked for.
        A failure empties the list and shows the error. */
    method Load(tab: string, response: Result<Json, string>) returns (path: string)
      modifies this
      ensures path == BuildPath(tab)
      ensures response.Ok? ==> images == ImagesOf(response.value) && error == ""
      ensures response.Err? ==> images == [] && error == MessageOr(response.error, LoadFailedMessage)
      ensures !loading
      ensures activeTab == old(activeTab) && uploadError == old(uploadError) && columnCount == old(columnCount)
    {
      loading := true;
      error := "";
      path := BuildPath(tab);
      match response {
        case Ok(data) =>
          images := ImagesOf(data);
        case Err(message) =>
          error := MessageOr(message, LoadFailedMessage);
          images := [];
      }
      loading := false;
    }

    /** A click on a tab: the list is reloaded when the tab changes. */
    method SelectTab(tab: string, response: Result<Json, string>) returns (path: Option<string>)
      modifies this
      ensures activeTab == tab
      ensures tab == old(activeTab) ==> path.None? && images == old(images) && error == old(error)
      ensures tab != old(activeTab) ==> path == Some(BuildPath(tab))
      ensures tab != old(activeTab) && response.Ok? ==> images == ImagesOf(response.value) && error == ""
      ensures tab != old(activeTab) && response.Err? ==> images == [] && error == MessageOr(response.error, LoadFailedMessage)
      ensures uploadError == old(uploadError) && columnCount == old(columnCount)
      ensures tab == old(activeTab) ==> loading == old(loading)
    {
      if tab == activeTab {
        path := None;
        return;
      }
      activeTab := tab;
      var p := Load(tab, response);
      path := Some(p);
    }

    /** The resize observer: the column count for the grid's width. */
    method Resize(width: int)
      modifies this
      ensures columnCount == GalleryCard.ColumnCount(width, |images|)
      ensures activeTab == old(activeTab) && images == old(images) && loading == old(loading)
      ensures error == old(error) && uploadError == old(uploadError)
    {
      columnCount := GalleryCard.ColumnCount(width, |images|);
    }

    /** `columns`: the images with their ratios laid out by the card's
        masonry rule. */
    method Columns(toNumber: string -> Option<real>) returns (cols: seq<seq<(Image, real)>>)
      ensures cols == GalleryCard.LayoutUpTo(WithRatios(images, toNumber), PageSteps(images, toNumber),
                                             Max(1, columnCount), |images|).items
    {
      cols := GalleryCard.Columns(WithRatios(images, toNumber), PageSteps(images, toNumber), columnCount);
    }

    /** `handleUpload(files)`: nothing for an empty pick; otherwise the files
        are uploaded in order until one fails (`outcomes[i]` is the i-th
        upload's error, if any), and only when all succeed is the list
        reloaded once. Returns the files sent. */
    method HandleUpload<F>(files: seq<F>, outcomes: seq<Option<string>>, reload: Result<Json, string>)
        returns (sent: seq<F>)
      requires |outcomes| == |files|
      modifies this
      ensures files == [] ==> sent == [] && uploadError == old(uploadError) && images == old(images) && error == old(error)
      ensures var k := FirstFailure(outcomes);
              files != [] && k < |files| ==>
                sent == files[..k + 1]
                && uploadError == MessageOr(outcomes[k].value, UploadFailedMessage)
                && images == old(images) && error == old(error)
      ensures var k := FirstFailure(outcomes);
              files != [] && k == |files| ==>
                sent == files && uploadError == ""
                && (reload.Ok? ==> images == ImagesOf(reload.value) && error == "")
                && (reload.Err? ==> images == [] && error == MessageOr(reload.error, LoadFailedMessage))
      ensures activeTab == old(activeTab) && columnCount == old(columnCount)
      ensures files == [] ==> loading == old(loading)
    {
      if files == [] {
        sent := [];
        return;
      }
      uploadError := "";
      sent := [];
      var i := 0;
      while i < |files|
        invariant 0 <= i <= |files|
        invariant sent == files[..i]
        invariant forall j :: 0 <= j < i ==> outcomes[j].None?
        invariant uploadError == "" && images == old(images) && error == old(error)
        invariant activeTab == old(activeTab) && columnCount == old(columnCount)
      {
        sent := sent + [files[i]];
        if outcomes[i].Some? {
          FirstFailureAt(outcomes, i);
          uploadError := MessageOr(outcomes[i].value, UploadFailedMessage);
          return;
        }
        i := i + 1;
      }
      FirstFailureAt(outcomes, |files|);
      var _ := Load(activeTab, reload);
    }
  }

  /** The first failure is the first index holding one. */
  lemma {:induction false} FirstFailureAt(outcomes: seq<Option<string>>, i: nat)
    requires i <= |outcomes| && forall j :: 0 <= j < i ==> outcomes[j].None?
    requires i < |outcomes| ==> outcomes[i].Some?
    ensures FirstFailure(outcomes) == i
  {
    if i > 0 {
      FirstFailureAt(outcomes[1..], i - 1);
    }
  }
}
