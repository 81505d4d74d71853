/** The wizard's cover-image step: a gallery of uploaded and generated
    images, one of which is the selected cover, and the image generator's
    dialog with its form, progress and result stages. */
module CreateBlogImageUpload {
  import opened Common

  /** A gallery entry: its source URL and whether it wraps an uploaded file
      (whose object URL is revoked on deletion). */
  datatype GalleryImage = GalleryImage(src: string, hasFile: bool)

  datatype Stage = Form | Generating | Done

  /** The two placeholder images the generator shows when it finishes. */
  const DemoImages: seq<string> := ["https://picsum.photos/seed/bad/360/520", "https://picsum.photos/seed/good/360/520"]

  function Srcs(images: seq<GalleryImage>): (r: seq<string>)
    ensures |r| == |images| && forall i :: 0 <= i < |images| ==> r[i] == images[i].src
  {
    seq(|images|, i requires 0 <= i < |images| => images[i].src)
  }

  /** Object URLs and generated URLs are never empty. */
  predicate SrcsNonEmpty(images: seq<GalleryImage>) {
    forall i :: 0 <= i < |images| ==> images[i].src != ""
  }

  /** The gallery entries for newly added sources, in order. */
  function Entries(srcs: seq<string>, hasFile: bool): (r: seq<GalleryImage>)
    ensures Srcs(r) == srcs
    ensures forall i :: 0 <= i < |r| ==> r[i].hasFile == hasFile
  {
    seq(|srcs|, i requires 0 <= i < |srcs| => GalleryImage(srcs[i], hasFile))
  }

  /** `prev.filter((x) => x.src !== src)`. */
  function RemoveSrc(images: seq<GalleryImage>, src: string): (r: seq<GalleryImage>)
    ensures |r| <= |images|
    ensures forall i :: 0 <= i < |r| ==> r[i].src != src
  {
    if images == [] then []
    else if images[0].src == src then RemoveSrc(images[1..], src)
    else [images[0]] + RemoveSrc(images[1..], src)
  }

  /** The removal keeps exactly the entries with another source. */
  lemma {:induction false} RemoveSrcMembers(images: seq<GalleryImage>, src: string, x: GalleryImage)
    ensures x in RemoveSrc(images, src) <==> x in images && x.src != src
  {
    if images != [] {
      RemoveSrcMembers(images[1..], src, x);
      assert x in images <==> x == images[0] || x in images[1..];
    }
  }

  /** Removing a source the gallery does not hold changes nothing. */
  lemma {:induction false} RemoveAbsentSrc(images: seq<GalleryImage>, src: string)
    requires forall i :: 0 <= i < |images| ==> images[i].src != src
    ensures RemoveSrc(images, src) == images
  {
    if images != [] {
      RemoveAbsentSrc(images[1..], src);
    }
  }

  /** Removing a source works piecewise, so the remaining entries keep
      their order: removing from a joined gallery joins the two removals. */
  lemma {:induction false} RemoveSrcAppend(a: seq<GalleryImage>, b: seq<GalleryImage>, src: string)
    ensures RemoveSrc(a + b, src) == RemoveSrc(a, src) + RemoveSrc(b, src)
  {
    if a != [] {
      assert (a + b)[0] == a[0] && (a + b)[1..] == a[1..] + b;
      RemoveSrcAppend(a[1..], b, src);
      if a[0].src == src {
        assert RemoveSrc(a + b, src) == RemoveSrc(a[1..] + b, src);
        assert RemoveSrc(a, src) == RemoveSrc(a[1..], src);
      } else {
        assert RemoveSrc(a + b, src) == [a[0]] + RemoveSrc(a[1..] + b, src);
        assert RemoveSrc(a, src) == [a[0]] + RemoveSrc(a[1..], src);
      }
    } else {
      assert a + b == b;
    }
  }

  /** Deleting an image just uploaded under a fresh URL gives back the
      gallery as it was before the upload. */
  lemma DeleteUndoesUpload(images: seq<GalleryImage>, url: string)
    requires forall i :: 0 <= i < |images| ==> images[i].src != url
    ensures RemoveSrc(Entries([url], true) + images, url) == images
  {
    RemoveSrcAppend(Entries([url], true), images, url);
    RemoveAbsentSrc(images, url);
    assert RemoveSrc(Entries([url], true), url) == [];
  }

  /** The selection the validity effect settles on: "" without images, the
      current selection when it names an image, else the first image. */
  function SettledSelection(images: seq<GalleryImage>, selected: string): (r: string)
    requires SrcsNonEmpty(images)
    ensures r == "" <==> images == []
    ensures images != [] ==> r in Srcs(images)
    ensures images != [] && selected != "" && selected in Srcs(images) ==> r == selected
    ensures images != [] && (selected == "" || selected !in Srcs(images)) ==> r == images[0].src
  {
    if images == [] then ""
    else if selected == "" || selected !in Srcs(images) then images[0].src
    else selected
  }

  /** A second run of the effect changes nothing. */
  lemma SettledSelectionIdempotent(images: seq<GalleryImage>, selected: string)
    requires SrcsNonEmpty(images)
    ensures SettledSelection(images, SettledSelection(images, selected)) == SettledSelection(images, selected)
  {
  }

  /** `Math.min(100, p + step)`: one tick of the progress animation. */
  function Tick(p: nat, step: nat): (r: nat)
    requires p <= 100 && 3 <= step <= 9
    ensures r <= 100 && p <= r
    ensures p < 100 ==> p < r
    ensures r == 100 || r == p + step
  {
    Min(100, p + step)
  }

  /** The progress after a run of ticks. */
  function Progress(p: nat, steps: seq<nat>): (r: nat)
    requires p <= 100 && forall i :: 0 <= i < |steps| ==> 3 <= steps[i] <= 9
    ensures p <= r <= 100
    decreases |steps|
  {
    if steps == [] then p else Progress(Tick(p, steps[0]), steps[1..])
  }

  /** Each tick adds at least three points until the bar is full. */
  lemma {:induction false} ProgressAtLeast(p: nat, steps: seq<nat>)
    requires p <= 100 && forall i :: 0 <= i < |steps| ==> 3 <= steps[i] <= 9
    ensures Progress(p, steps) >= Min(100, p + 3 * |steps|)
    decreases |steps|
  {
    if steps != [] {
      ProgressAtLeast(Tick(p, steps[0]), steps[1..]);
    }
  }

  /** Thirty-four ticks from zero always fill the bar, so the generator
      always reaches its done stage. */
  lemma ProgressCompletes(steps: seq<nat>)
    requires |steps| >= 34 && forall i :: 0 <= i < |steps| ==> 3 <= steps[i] <= 9
    ensures Progress(0, steps) == 100
  {
    ProgressAtLeast(0, steps);
  }

  /** The page's state. */
  class ImageUploadPage {
    var images: seq<GalleryImage>
    var selectedCover: string
    var nanoOpen: bool
    var refImages: seq<string>
    var stage: Stage
    var progress: nat
    var generatedImages: seq<string>

    predicate Valid()
      reads this
    {
      SrcsNonEmpty(images) && progress <= 100
      && (forall i :: 0 <= i < |generatedImages| ==> generatedImages[i] != "")
    }

    constructor()
      ensures Valid() && images == [] && selectedCover == "" && !nanoOpen
      ensures refImages == [] && stage == Form && progress == 0 && generatedImages == []
    {
      images := [];
      selectedCover := "";
      nanoOpen := false;
      refImages := [];
      stage := Form;
      progress := 0;
      generatedImages := [];
    }

    /** `canProceed`. */
    predicate CanProceed()
      reads this
    {
      selectedCover != ""
    }

    /** `addToGalleryFromFiles`, given the object URLs of the chosen files in
        order: they go in front of the gallery and the first is selected;
        no files change nothing. */
    method AddFromFiles(urls: seq<string>)
      requires Valid() && forall i :: 0 <= i < |urls| ==> urls[i] != ""
      modifies this
      ensures Valid()
      ensures images == Entries(urls, true) + old(images)
      ensures selectedCover == (if urls == [] then old(selectedCover) else urls[0])
      ensures nanoOpen == old(nanoOpen) && refImages == old(refImages) && stage == old(stage)
      ensures progress == old(progress) && generatedImages == old(generatedImages)
    {
      if urls == [] {
        return;
      }
      images := Entries(urls, true) + images;
      selectedCover := urls[0];
    }

    /** `handleUploadReference`: the chosen files replace the reference list. */
    method UploadReference(urls: seq<string>)
      requires Valid()
      modifies this
      ensures Valid() && refImages == (if urls == [] then old(refImages) else urls)
      ensures images == old(images) && selectedCover == old(selectedCover) && nanoOpen == old(nanoOpen)
      ensures stage == old(stage) && progress == old(progress) && generatedImages == old(generatedImages)
    {
      if urls != [] {
        refImages := urls;
      }
    }

    /** `onRemoveReference`: the reference list is emptied. */
    method RemoveReference()
      requires Valid()
      modifies this
      ensures Valid() && refImages == []
      ensures images == old(images) && selectedCover == old(selectedCover) && nanoOpen == old(nanoOpen)
      ensures stage == old(stage) && progress == old(progress) && generatedImages == old(generatedImages)
    {
      refImages := [];
    }

    /** A click on a gallery image. */
    method Select(src: string)
      requires Valid()
      modifies this
      ensures Valid() && selectedCover == src
      ensures images == old(images) && nanoOpen == old(nanoOpen) && refImages == old(refImages)
      ensures stage == old(stage) && progress == old(progress) && generatedImages == old(generatedImages)
    {
      selectedCover := src;
    }

    /** `handleDeleteImage`: every entry with that source goes; a deleted
        selection moves to the first remaining image, or to "". */
    method DeleteImage(src: string)
      requires Valid()
      modifies this
      ensures Valid() && images == RemoveSrc(old(images), src)
      ensures old(selectedCover) == src ==> selectedCover == (if images == [] then "" else images[0].src)
      ensures old(selectedCover) != src ==> selectedCover == old(selectedCover)
      ensures nanoOpen == old(nanoOpen) && refImages == old(refImages) && stage == old(stage)
      ensures progress == old(progress) && generatedImages == old(generatedImages)
    {
      var next := RemoveSrc(images, src);
      DeleteSelectedSettles(images, src);
      if selectedCover == src {
        selectedCover := if next == [] then "" else next[0].src;
      }
      images := next;
    }

    /** The effect that keeps the selection naming a gallery image. */
    method KeepSelectionValid()
      requires Valid()
      modifies this
      ensures Valid() && selectedCover == SettledSelection(images, old(selectedCover))
      ensures selectedCover == "" <==> images == []
      ensures images != [] ==> selectedCover in Srcs(images)
      ensures images == old(images) && nanoOpen == old(nanoOpen) && refImages == old(refImages)
      ensures stage == old(stage) && progress == old(progress) && generatedImages == old(generatedImages)
    {
      if images == [] {
        selectedCover := "";
        return;
      }
      var srcs := Srcs(images);
      if selectedCover == "" || selectedCover !in srcs {
        selectedCover := images[0].src;
      }
    }

    /** The gallery's generate button opens the dialog on its form. */
    method OpenGenerator()
      requires Valid()
      modifies this
      ensures Valid() && nanoOpen && stage == Form
      ensures images == old(images) && selectedCover == old(selectedCover) && refImages == old(refImages)
      ensures progress == old(progress) && generatedImages == old(generatedImages)
    {
      nanoOpen := true;
      stage := Form;
    }

    /** `handleGenerate`; entering the generating stage restarts the bar. */
    method Generate()
      requires Valid()
      modifies this
      ensures Valid() && stage == Generating
      ensures old(stage) != Generating ==> progress == 0
      ensures old(stage) == Generating ==> progress == old(progress)
      ensures images == old(images) && selectedCover == old(selectedCover) && nanoOpen == old(nanoOpen)
      ensures refImages == old(refImages) && generatedImages == old(generatedImages)
    {
      if stage != Generating {
        stage := Generating;
        progress := 0;
      }
    }

    /** One interval tick while generating, with the random step 3 to 9. */
    method TickProgress(step: nat)
      requires Valid() && stage == Generating && 3 <= step <= 9
      modifies this
      ensures Valid() && progress == Tick(old(progress), step)
      ensures images == old(images) && selectedCover == old(selectedCover) && nanoOpen == old(nanoOpen)
      ensures refImages == old(refImages) && stage == old(stage) && generatedImages == old(generatedImages)
    {
      progress := Min(100, progress + step);
    }

    /** The timeout after a full bar: the results appear. */
    method Finish()
      requires Valid() && stage == Generating && progress >= 100
      modifies this
      ensures Valid() && stage == Done && generatedImages == DemoImages
      ensures images == old(images) && selectedCover == old(selectedCover) && nanoOpen == old(nanoOpen)
      ensures refImages == old(refImages) && progress == old(progress)
    {
      generatedImages := DemoImages;
      stage := Done;
    }

    /** `handleGenerateAnother`: back to the form with an empty bar. */
    method GenerateAnother()
      requires Valid()
      modifies this
      ensures Valid() && stage == Form && progress == 0 && generatedImages == []
      ensures images == old(images) && selectedCover == old(selectedCover) && nanoOpen == old(nanoOpen)
      ensures refImages == old(refImages)
    {
      generatedImages := [];
      stage := Form;
      progress := 0;
    }

    /** `handleDoneSave`: the results go in front of the gallery, the first
        is selected, and the dialog closes and resets. */
    method DoneSave()
      requires Valid()
      modifies this
      ensures Valid() && images == Entries(old(generatedImages), false) + old(images)
      ensures selectedCover == (if old(generatedImages) == [] then old(selectedCover) else old(generatedImages)[0])
      ensures !nanoOpen && stage == Form && progress == 0 && generatedImages == [] && refImages == []
    {
      var added := Entries(generatedImages, false);
      images := added + images;
      if generatedImages != [] {
        selectedCover := generatedImages[0];
      }
      nanoOpen := false;
      stage := Form;
      progress := 0;
      generatedImages := [];
      refImages := [];
    }

    /** The dialog's close button resets it. */
    method CloseGenerator()
      requires Valid()
      modifies this
      ensures Valid() && !nanoOpen && stage == Form && progress == 0 && generatedImages == [] && refImages == []
      ensures images == old(images) && selectedCover == old(selectedCover)
    {
      nanoOpen := false;
      stage := Form;
      progress := 0;
      generatedImages := [];
      refImages := [];
    }
  }

  /** An upload followed by the validity effect leaves the first new image
      selected; a deletion of the selection followed by the effect selects
      the first remaining image. */
  lemma UploadSelectsNewest(images: seq<GalleryImage>, urls: seq<string>)
    requires SrcsNonEmpty(images) && urls != [] && forall i :: 0 <= i < |urls| ==> urls[i] != ""
    ensures SrcsNonEmpty(Entries(urls, true) + images)
    ensures SettledSelection(Entries(urls, true) + images, urls[0]) == urls[0]
  {
    var all := Entries(urls, true) + images;
    assert all[0].src == urls[0];
    assert Srcs(all)[0] == urls[0];
  }

  /** Deleting the selected image and settling selects the first image left,
      or nothing when the gallery is empty. */
  lemma DeleteSelectedSettles(images: seq<GalleryImage>, src: string)
    requires SrcsNonEmpty(images)
    ensures SrcsNonEmpty(RemoveSrc(images, src))
    ensures var next := RemoveSrc(images, src);
            SettledSelection(next, if next == [] then "" else next[0].src) == (if next == [] then "" else next[0].src)
  {
    var next := RemoveSrc(images, src);
    forall i | 0 <= i < |next|
      ensures next[i].src != ""
    {
      RemoveSrcMembers(images, src, next[i]);
    }
    if next != [] {
      assert Srcs(next)[0] == next[0].src;
    }
  }
}
