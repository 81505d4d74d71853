/** The gallery card: its column count for a width and an image count, the
    masonry layout that puts each image into the currently shortest column,
    the aspect ratios learnt as images load, and the file picker. */
module GalleryCard {
  import opened Common

  // ------------------------------------------------ column count

  /** `getColumnCount(width, count)`: 4, 3, 2 or 1 columns from the width
      thresholds 1280, 1024 and 640, never more than the number of images
      (an empty gallery counting as one). */
  function ColumnCount(width: int, count: int): (r: nat)
    ensures 1 <= r <= 4
    ensures r <= Max(1, count)
    ensures width < 640 ==> r == 1
    ensures count >= 4 && width >= 1280 ==> r == 4
  {
    var base := if width >= 1280 then 4 else if width >= 1024 then 3 else if width >= 640 then 2 else 1;
    var total := Max(1, if count == 0 then 1 else count);
    Min(base, total)
  }

  /** A wider grid or more images never means fewer columns. */
  lemma ColumnCountMonotone(w1: int, w2: int, c1: int, c2: int)
    requires w1 <= w2 && c1 <= c2
    ensures ColumnCount(w1, c1) <= ColumnCount(w2, c2)
  {
  }

  // ------------------------------------------------ masonry layout

  const Gap: real := 0.12

  /** How much an image of the given aspect ratio adds to its column:
      `1 / Math.max(0.4, ratio)` plus the gap. */
  function Step(ratio: real): (r: real)
    ensures 0.12 < r <= 2.5 + 0.12
  {
    var clamped := if ratio >= 0.4 then ratio else 0.4;
    1.0 / clamped + Gap
  }

  /** The column the scan picks among the first `j` columns: the first one
      whose height is strictly below every earlier pick. */
  function ShortestUpTo(hs: seq<real>, j: nat): (t: nat)
    requires 1 <= j <= |hs|
    ensures t < j
  {
    if j == 1 then 0
    else
      var t := ShortestUpTo(hs, j - 1);
      if hs[j - 1] < hs[t] then j - 1 else t
  }

  /** The scan's pick is no higher than any column it has seen, and every
      column left of it is strictly higher. */
  lemma {:induction false} ShortestUpToIsLowest(hs: seq<real>, j: nat)
    requires 1 <= j <= |hs|
    ensures forall k :: 0 <= k < j ==> hs[ShortestUpTo(hs, j)] <= hs[k]
    ensures forall k :: 0 <= k < ShortestUpTo(hs, j) ==> hs[k] > hs[ShortestUpTo(hs, j)]
  {
    if j > 1 {
      ShortestUpToIsLowest(hs, j - 1);
    }
  }

  /** The target column: the lowest column, the leftmost among equals. */
  function Shortest(hs: seq<real>): (t: nat)
    requires |hs| > 0
    ensures t < |hs|
  {
    ShortestUpTo(hs, |hs|)
  }

  /** The columns' items and heights. */
  datatype Layout<T> = Layout(items: seq<seq<T>>, heights: seq<real>)

  /** The layout after placing the first `k` images, image `i` adding
      `steps[i]` to the height of its column. */
  function LayoutUpTo<T>(images: seq<T>, steps: seq<real>, count: nat, k: nat): (l: Layout<T>)
    requires count >= 1 && |images| == |steps| && k <= |steps|
    ensures |l.items| == count && |l.heights| == count
  {
    if k == 0 then Layout(seq(count, _ => []), seq(count, _ => 0.0))
    else
      var prev := LayoutUpTo(images, steps, count, k - 1);
      var t := Shortest(prev.heights);
      Layout(prev.items[t := prev.items[t] + [images[k - 1]]], prev.heights[t := prev.heights[t] + steps[k - 1]])
  }

  /** The positions `0 .. n-1`, to tell equal images apart. */
  function Positions(n: nat): (r: seq<nat>)
    ensures |r| == n && forall i :: 0 <= i < n ==> r[i] == i
  {
    seq(n, i => i)
  }

  /** The column image `i` goes to; the heights depend on the steps alone. */
  function ColumnOf(steps: seq<real>, count: nat, i: nat): nat
    requires count >= 1 && i < |steps|
  {
    Shortest(LayoutUpTo<nat>(Positions(|steps|), steps, count, i).heights)
  }

  /** The heights do not depend on what the items are. */
  lemma {:induction false} HeightsIgnoreItems<T, U>(a: seq<T>, b: seq<U>, steps: seq<real>, count: nat, k: nat)
    requires count >= 1 && |a| == |steps| && |b| == |steps| && k <= |steps|
    ensures LayoutUpTo(a, steps, count, k).heights == LayoutUpTo(b, steps, count, k).heights
  {
    if k > 0 {
      HeightsIgnoreItems(a, b, steps, count, k - 1);
    }
  }

  /** Column `c` of `l` is column `c` of `p` with each position replaced
      by its image. */
  ghost predicate SameShape<T>(l: seq<seq<T>>, p: seq<seq<nat>>, images: seq<T>, count: nat)
    requires |l| == count && |p| == count
  {
    forall c :: 0 <= c < count ==>
      |l[c]| == |p[c]|
      && forall j :: 0 <= j < |p[c]| ==> p[c][j] < |images| && l[c][j] == images[p[c][j]]
  }

  /** The columns of the images are the columns of their positions, each
      position replaced by its image. */
  lemma {:induction false} ItemsArePositions<T>(images: seq<T>, steps: seq<real>, count: nat, k: nat)
    requires count >= 1 && |images| == |steps| && k <= |steps|
    ensures SameShape(LayoutUpTo(images, steps, count, k).items, LayoutUpTo<nat>(Positions(|steps|), steps, count, k).items, images, count)
  {
    if k == 0 {
      var l := LayoutUpTo(images, steps, count, 0).items;
      var q := LayoutUpTo<nat>(Positions(|steps|), steps, count, 0).items;
      forall c | 0 <= c < count
        ensures |l[c]| == |q[c]| == 0
      {
      }
    } else {
      var ps := Positions(|steps|);
      ItemsArePositions(images, steps, count, k - 1);
      HeightsIgnoreItems<T, nat>(images, ps, steps, count, k - 1);
      var prevL := LayoutUpTo(images, steps, count, k - 1);
      var prevP := LayoutUpTo<nat>(ps, steps, count, k - 1);
      var t := Shortest(prevP.heights);
      assert t == Shortest(prevL.heights);
      var p: nat := k - 1;
      assert ps[p] == p;
      assert LayoutUpTo(images, steps, count, k).items == prevL.items[t := prevL.items[t] + [images[p]]];
      assert LayoutUpTo<nat>(ps, steps, count, k).items == prevP.items[t := prevP.items[t] + [p]];
      SameShapeStep(prevL.items, prevP.items, images, count, t, p);
    }
  }

  /** Adding image `p` to column `t` on both sides keeps the shapes equal. */
  lemma SameShapeStep<T>(li: seq<seq<T>>, pi: seq<seq<nat>>, images: seq<T>, count: nat, t: nat, p: nat)
    requires |li| == count && |pi| == count && t < count && p < |images|
    requires SameShape(li, pi, images, count)
    ensures SameShape(li[t := li[t] + [images[p]]], pi[t := pi[t] + [p]], images, count)
  {
    var l := li[t := li[t] + [images[p]]];
    var q := pi[t := pi[t] + [p]];
    forall c | 0 <= c < count
      ensures |l[c]| == |q[c]|
      ensures forall j :: 0 <= j < |q[c]| ==> q[c][j] < |images| && l[c][j] == images[q[c][j]]
    {
      if c != t {
        assert l[c] == li[c] && q[c] == pi[c];
      }
    }
  }

  /** The scan for the target column: the first column lower than every
      column before it. */
  method ShortestColumn(heights: array<real>) returns (target: nat)
    requires heights.Length > 0
    ensures target == Shortest(heights[..])
  {
    target := 0;
    var j := 1;
    while j < heights.Length
      invariant 1 <= j <= heights.Length
      invariant target == ShortestUpTo(heights[..], j)
    {
      if heights[j] < heights[target] {
        target := j;
      }
      j := j + 1;
    }
  }

  /** `columns`: lay out the images, whose height steps are given, in
      `max(1, columnCount)` columns. */
  method Columns<T>(images: seq<T>, steps: seq<real>, columnCount: int) returns (cols: seq<seq<T>>)
    requires |steps| == |images|
    ensures cols == LayoutUpTo(images, steps, Max(1, columnCount), |images|).items
  {
    var count := Max(1, columnCount);
    var items := new seq<T>[count](_ => []);
    var heights := new real[count](_ => 0.0);
    assert items[..] == LayoutUpTo(images, steps, count, 0).items;
    assert heights[..] == LayoutUpTo(images, steps, count, 0).heights;
    PlaceAll(items, heights, images, steps, count);
    cols := items[..];
  }

  /** The loop of `columns`: every image joins the shortest column in turn. */
  method PlaceAll<T>(items: array<seq<T>>, heights: array<real>, images: seq<T>, steps: seq<real>, count: nat)
    requires count >= 1 && |steps| == |images| && items.Length == count && heights.Length == count
    requires items[..] == LayoutUpTo(images, steps, count, 0).items
    requires heights[..] == LayoutUpTo(images, steps, count, 0).heights
    modifies items, heights
    ensures items[..] == LayoutUpTo(images, steps, count, |images|).items
  {
    var i := 0;
    while i < |images|
      invariant 0 <= i <= |images|
      invariant items[..] == LayoutUpTo(images, steps, count, i).items
      invariant heights[..] == LayoutUpTo(images, steps, count, i).heights
    {
      Place(items, heights, images[i], steps[i]);
      i := i + 1;
    }
  }

  /** One step of the loop: the image joins the shortest column, whose
      height grows by the image's step. */
  method Place<T>(items: array<seq<T>>, heights: array<real>, image: T, step: real)
    requires items.Length == heights.Length > 0
    modifies items, heights
    ensures var t := Shortest(old(heights[..]));
            items[..] == old(items[..])[t := old(items[..])[t] + [image]]
            && heights[..] == old(heights[..])[t := old(heights[..])[t] + step]
  {
    var target := ShortestColumn(heights);
    items[target] := items[target] + [image];
    heights[target] := heights[target] + step;
  }

  /** Every image before `k` is in exactly the column chosen for it, no
      later image is placed, and each column lists its images in their
      original order. */
  ghost predicate Partitioned(l: Layout<nat>, steps: seq<real>, count: nat, k: nat)
    requires count >= 1 && k <= |steps| && |l.items| == count
  {
    (forall c, i :: 0 <= c < count && 0 <= i < k ==> (i in l.items[c] <==> ColumnOf(steps, count, i) == c))
    && (forall c, x :: 0 <= c < count && x in l.items[c] ==> x < k)
    && (forall c, a, b :: 0 <= c < count && 0 <= a < b < |l.items[c]| ==> l.items[c][a] < l.items[c][b])
  }

  /** The layout of the positions is partitioned at every step. */
  lemma {:induction false} LayoutPartition(steps: seq<real>, count: nat, k: nat)
    requires count >= 1 && k <= |steps|
    ensures Partitioned(LayoutUpTo<nat>(Positions(|steps|), steps, count, k), steps, count, k)
  {
    if k > 0 {
      var ps := Positions(|steps|);
      LayoutPartition(steps, count, k - 1);
      var prev := LayoutUpTo<nat>(ps, steps, count, k - 1);
      assert Partitioned(prev, steps, count, k - 1);
      var t := Shortest(prev.heights);
      var l := LayoutUpTo<nat>(ps, steps, count, k);
      assert ps[k - 1] == k - 1;
      var last := ps[k - 1];
      assert last == k - 1;
      assert l.items == prev.items[t := prev.items[t] + [last]];
      forall c, i | 0 <= c < count && 0 <= i < k
        ensures i in l.items[c] <==> ColumnOf(steps, count, i) == c
      {
        if c == t {
          assert l.items[c] == prev.items[t] + [last];
          assert i in l.items[c] <==> i in prev.items[t] || i == last;
        } else {
          assert l.items[c] == prev.items[c];
        }
      }
      forall c, x | 0 <= c < count && x in l.items[c]
        ensures x < k
      {
        if c == t {
          assert l.items[c] == prev.items[t] + [last];
        } else {
          assert l.items[c] == prev.items[c];
        }
      }
      forall c, a, b | 0 <= c < count && 0 <= a < b < |l.items[c]|
        ensures l.items[c][a] < l.items[c][b]
      {
        if c == t {
          assert l.items[c] == prev.items[t] + [last];
          if b == |l.items[c]| - 1 {
            assert l.items[c][a] == prev.items[t][a];
            assert prev.items[t][a] in prev.items[t];
          } else {
            assert l.items[c][a] == prev.items[t][a] && l.items[c][b] == prev.items[t][b];
          }
        } else {
          assert l.items[c] == prev.items[c];
        }
      }
    }
  }

  /** The finished layout holds every image in exactly one column. */
  lemma LayoutHoldsEveryImage(steps: seq<real>, count: nat, i: nat)
    requires count >= 1 && i < |steps|
    ensures var l := LayoutUpTo<nat>(Positions(|steps|), steps, count, |steps|);
            i in l.items[ColumnOf(steps, count, i)]
            && forall c :: 0 <= c < count && c != ColumnOf(steps, count, i) ==> i !in l.items[c]
  {
    LayoutPartition(steps, count, |steps|);
    assert ColumnOf(steps, count, i) < count;
  }

  /** Each image goes to a column no higher than any other at that moment,
      and to the leftmost of the lowest. */
  lemma ShortestColumnFirst(steps: seq<real>, count: nat, i: nat)
    requires count >= 1 && i < |steps|
    ensures var hs := LayoutUpTo<nat>(Positions(|steps|), steps, count, i).heights;
            var t := ColumnOf(steps, count, i);
            (forall c :: 0 <= c < count ==> hs[t] <= hs[c])
            && (forall c :: 0 <= c < t ==> hs[c] > hs[t])
  {
    var hs := LayoutUpTo<nat>(Positions(|steps|), steps, count, i).heights;
    ShortestUpToIsLowest(hs, |hs|);
  }

  /** The card's height steps: `1 / max(0.4, ratios[src] || 1)` plus the gap. */
  function Steps(images: seq<string>, ratios: map<string, real>): (r: seq<real>)
    ensures |r| == |images| && forall i :: 0 <= i < |images| ==> r[i] == Step(RatioOf(ratios, images[i]))
  {
    seq(|images|, i requires 0 <= i < |images| => Step(RatioOf(ratios, images[i])))
  }

  // ------------------------------------------------ ratios and file picking

  /** `ratios[src] || 1`. */
  function RatioOf(ratios: map<string, real>, src: string): (r: real)
    ensures r > 0.0 || (src in ratios && r == ratios[src] && r != 0.0)
  {
    if src in ratios && ratios[src] != 0.0 then ratios[src] else 1.0
  }

  /** The card's state. */
  class Card {
    var ratios: map<string, real>
    var inputValue: string

    constructor()
      ensures ratios == map[] && inputValue == ""
    {
      ratios := map[];
      inputValue := "";
    }

    /** Every recorded ratio is positive. */
    predicate Valid()
      reads this
    {
      forall s :: s in ratios ==> ratios[s] > 0.0
    }

    /** `handleImageLoad`: the natural size of a loaded image gives its
        ratio, once; a zero width or height is ignored. */
    method ImageLoaded(src: string, naturalWidth: nat, naturalHeight: nat)
      requires Valid()
      modifies this
      ensures Valid() && inputValue == old(inputValue)
      ensures naturalWidth == 0 || naturalHeight == 0 || src in old(ratios) ==> ratios == old(ratios)
      ensures naturalWidth > 0 && naturalHeight > 0 && src !in old(ratios) ==>
                ratios == old(ratios)[src := naturalWidth as real / naturalHeight as real]
    {
      if naturalWidth == 0 || naturalHeight == 0 {
        return;
      }
      if src in ratios && ratios[src] != 0.0 {
        return;
      }
      ratios := ratios[src := naturalWidth as real / naturalHeight as real];
    }

    /** `handleFiles`: the upload callback receives the chosen files when
        there are any; the picker is cleared either way. */
    method HandleFiles<F>(files: seq<F>) returns (uploaded: Option<seq<F>>)
      modifies this
      ensures uploaded.Some? <==> |files| > 0
      ensures uploaded.Some? ==> uploaded.value == files
      ensures inputValue == "" && ratios == old(ratios)
    {
      uploaded := if |files| > 0 then Some(files) else None;
      inputValue := "";
    }
  }
}
