/**
 * The rectangle of a page that is rendered for one question: the question's
 * start rectangle widened by every entry on the question's own page, then
 * padded and clamped to the page.  Every same-page entry also nudges the top
 * edge down by 0.2 and pulls the bottom edge up by 30, so both offsets
 * accumulate with the number of same-page entries.
 */
module CropRegion {
  import opened Geometry
  import opened QuestionScan

  const Padding: real := 20.0
  const TopNudge: real := 0.2
  const BottomCut: real := 30.0

  /** One same-page entry folded into the running rectangle. */
  function FoldItem(b: Box, c: Box): (r: Box)
    ensures r.x0 <= b.x0 && r.x0 <= c.x0 && (r.x0 == b.x0 || r.x0 == c.x0)
    ensures r.x1 >= b.x1 && r.x1 >= c.x1 && (r.x1 == b.x1 || r.x1 == c.x1)
    ensures r.top - TopNudge <= b.top && r.top - TopNudge <= c.top
    ensures r.top - TopNudge == b.top || r.top - TopNudge == c.top
    ensures r.bottom + BottomCut >= b.bottom && r.bottom + BottomCut >= c.bottom
    ensures r.bottom + BottomCut == b.bottom || r.bottom + BottomCut == c.bottom
  {
    Box(Min(b.x0, c.x0), Min(b.top, c.top) + TopNudge, Max(b.x1, c.x1), Max(b.bottom, c.bottom) - BottomCut)
  }

  /** The rectangle after folding the entries `items` in order, starting from `start`; entries on other pages are skipped. */
  function Bounds(page: nat, start: Box, items: seq<Item>): Box
    decreases |items|
  {
    if items == [] then start
    else
      var b := Bounds(page, start, items[..|items| - 1]);
      var c := items[|items| - 1];
      if c.page == page then FoldItem(b, c.box) else b
  }

  /** The entries that lie on `page`, in order. */
  function SamePage(items: seq<Item>, page: nat): (r: seq<Item>)
    ensures |r| <= |items|
    ensures forall k :: 0 <= k < |r| ==> r[k].page == page
    decreases |items|
  {
    if items == [] then []
    else
      var init := SamePage(items[..|items| - 1], page);
      if items[|items| - 1].page == page then init + [items[|items| - 1]] else init
  }

  /** How many of the entries lie on `page`. */
  function CountOn(items: seq<Item>, page: nat): nat {
    |SamePage(items, page)|
  }

  /** The crop rectangle of question `q` on a page of the given size. */
  function Crop(q: Question, width: real, height: real): (r: Box)
    ensures 0.0 <= r.x0 && 0.0 <= r.top
    ensures r.x1 <= width && r.bottom <= height
  {
    var b := Bounds(q.page, q.startBox, q.content);
    Box(Max(0.0, b.x0 - Padding), Max(0.0, b.top - Padding),
        Min(width, b.x1 + Padding), Min(height, b.bottom + Padding))
  }

  // ------------------------------------------------------------ lemmas

  lemma SplitLast(items: seq<Item>, k: nat)
    requires k < |items|
    ensures items[k..] == items[k..|items| - 1] + [items[|items| - 1]]
    ensures items[..|items| - 1][k..] == items[k..|items| - 1]
  {
  }

  lemma SamePageSuffix(items: seq<Item>, page: nat, k: nat)
    requires k < |items|
    ensures CountOn(items[k..], page)
            == CountOn(items[..|items| - 1][k..], page) + (if items[|items| - 1].page == page then 1 else 0)
  {
    var s := items[k..];
    SplitLast(items, k);
    assert s[..|s| - 1] == items[..|items| - 1][k..];
  }

  /** An entry on `page` is counted in every suffix that starts at it. */
  lemma {:induction false} CountOnFrom(items: seq<Item>, page: nat, k: nat)
    requires k < |items| && items[k].page == page
    ensures CountOn(items[k..], page) >= 1
    decreases |items|
  {
    if k < |items| - 1 {
      CountOnFrom(items[..|items| - 1], page, k);
      SamePageSuffix(items, page, k);
    } else {
      var s := items[k..];
      assert s[|s| - 1] == items[k];
    }
  }

  /** Entries on other pages do not move the rectangle: folding only the same-page ones gives the same result. */
  lemma {:induction false} BoundsIgnoresOtherPages(page: nat, start: Box, items: seq<Item>)
    ensures Bounds(page, start, items) == Bounds(page, start, SamePage(items, page))
    decreases |items|
  {
    if items != [] {
      var init := items[..|items| - 1];
      var c := items[|items| - 1];
      BoundsIgnoresOtherPages(page, start, init);
      if c.page == page {
        var s := SamePage(init, page) + [c];
        assert s[..|s| - 1] == SamePage(init, page);
      }
    }
  }

  /**
   * The left edge is the smallest left edge among the start rectangle and
   * the same-page entries, and the right edge the largest right edge.
   */
  lemma {:induction false} BoundsHorizontal(page: nat, start: Box, items: seq<Item>)
    ensures var b := Bounds(page, start, items);
            b.x0 <= start.x0 && b.x1 >= start.x1
            && (forall k :: 0 <= k < |items| && items[k].page == page ==> b.x0 <= items[k].box.x0 && b.x1 >= items[k].box.x1)
            && (b.x0 == start.x0 || exists k :: 0 <= k < |items| && items[k].page == page && b.x0 == items[k].box.x0)
            && (b.x1 == start.x1 || exists k :: 0 <= k < |items| && items[k].page == page && b.x1 == items[k].box.x1)
    decreases |items|
  {
    if items != [] {
      var init := items[..|items| - 1];
      BoundsHorizontal(page, start, init);
      assert forall k :: 0 <= k < |init| ==> items[k] == init[k];
    }
  }

  /**
   * The bottom edge, in closed form: each same-page entry's bottom lowered by
   * 30 for itself and for every later same-page entry, or the start's bottom
   * lowered by 30 for every same-page entry, whichever is largest.
   */
  lemma {:induction false} BoundsBottom(page: nat, start: Box, items: seq<Item>)
    ensures var b := Bounds(page, start, items);
            b.bottom >= start.bottom - BottomCut * CountOn(items, page) as real
            && (forall k :: 0 <= k < |items| && items[k].page == page ==>
                  b.bottom >= items[k].box.bottom - BottomCut * CountOn(items[k..], page) as real)
            && (b.bottom == start.bottom - BottomCut * CountOn(items, page) as real
                || exists k :: 0 <= k < |items| && items[k].page == page
                               && b.bottom == items[k].box.bottom - BottomCut * CountOn(items[k..], page) as real)
    decreases |items|
  {
    if items != [] {
      var init := items[..|items| - 1];
      var c := items[|items| - 1];
      BoundsBottom(page, start, init);
      forall k | 0 <= k < |init|
        ensures items[k] == init[k]
        ensures CountOn(items[k..], page) == CountOn(init[k..], page) + (if c.page == page then 1 else 0)
      {
        SamePageSuffix(items, page, k);
      }
      var last := |items| - 1;
      SamePageSuffix(items, page, last);
      assert items[..last][last..] == [];
    }
  }

  /**
   * The top edge, in closed form: each same-page entry's top lowered on the
   * page by 0.2 for itself and for every later same-page entry, or the
   * start's top lowered by 0.2 for every same-page entry, whichever is smallest.
   */
  lemma {:induction false} BoundsTop(page: nat, start: Box, items: seq<Item>)
    ensures var b := Bounds(page, start, items);
            b.top <= start.top + TopNudge * CountOn(items, page) as real
            && (forall k :: 0 <= k < |items| && items[k].page == page ==>
                  b.top <= items[k].box.top + TopNudge * CountOn(items[k..], page) as real)
            && (b.top == start.top + TopNudge * CountOn(items, page) as real
                || exists k :: 0 <= k < |items| && items[k].page == page
                               && b.top == items[k].box.top + TopNudge * CountOn(items[k..], page) as real)
    decreases |items|
  {
    if items != [] {
      var init := items[..|items| - 1];
      var c := items[|items| - 1];
      BoundsTop(page, start, init);
      forall k | 0 <= k < |init|
        ensures items[k] == init[k]
        ensures CountOn(items[k..], page) == CountOn(init[k..], page) + (if c.page == page then 1 else 0)
      {
        SamePageSuffix(items, page, k);
      }
      var last := |items| - 1;
      SamePageSuffix(items, page, last);
      assert items[..last][last..] == [];
    }
  }

  /** The crop depends only on the entries on the question's own page. */
  lemma CropIgnoresOtherPages(q: Question, width: real, height: real)
    ensures Crop(q, width, height) == Crop(q.(content := SamePage(q.content, q.page)), width, height)
  {
    BoundsIgnoresOtherPages(q.page, q.startBox, q.content);
  }

  /**
   * Horizontally the crop is the padded extent clamped to the page: its left
   * edge is 20 left of the smallest same-page left edge (the start's
   * included) but not left of 0, its right edge 20 right of the largest
   * right edge but not right of the page width.
   */
  lemma CropHorizontal(q: Question, width: real, height: real)
    ensures var r := Crop(q, width, height);
            r.x0 <= Max(0.0, q.startBox.x0 - Padding) && r.x1 >= Min(width, q.startBox.x1 + Padding)
            && (forall k :: 0 <= k < |q.content| && q.content[k].page == q.page ==>
                  r.x0 <= Max(0.0, q.content[k].box.x0 - Padding) && r.x1 >= Min(width, q.content[k].box.x1 + Padding))
            && (r.x0 == Max(0.0, q.startBox.x0 - Padding)
                || exists k :: 0 <= k < |q.content| && q.content[k].page == q.page
                               && r.x0 == Max(0.0, q.content[k].box.x0 - Padding))
            && (r.x1 == Min(width, q.startBox.x1 + Padding)
                || exists k :: 0 <= k < |q.content| && q.content[k].page == q.page
                               && r.x1 == Min(width, q.content[k].box.x1 + Padding))
  {
    BoundsHorizontal(q.page, q.startBox, q.content);
  }

  /**
   * When the last entry lies on the question's page and is the lowest of the
   * same-page entries and of the start rectangle, the crop ends 10 above that
   * entry's bottom (the 30 cut minus the 20 padding), clamped to the page.
   */
  lemma CropBottomOfLowestLast(q: Question, width: real, height: real)
    requires q.content != [] && q.content[|q.content| - 1].page == q.page
    requires q.content[|q.content| - 1].box.bottom >= q.startBox.bottom
    requires forall k :: 0 <= k < |q.content| && q.content[k].page == q.page ==>
               q.content[k].box.bottom <= q.content[|q.content| - 1].box.bottom
    ensures Crop(q, width, height).bottom
            == Min(height, q.content[|q.content| - 1].box.bottom - BottomCut + Padding)
  {
    var items := q.content;
    var last := |items| - 1;
    var b := Bounds(q.page, q.startBox, items);
    BoundsBottom(q.page, q.startBox, items);
    CountOnFrom(items, q.page, last);
    assert CountOn(items, q.page) >= 1;
    assert items[last..] == [items[last]];
    assert CountOn(items[last..], q.page) == 1;
    assert items[0..] == items;
    forall k | 0 <= k < |items| && items[k].page == q.page
      ensures items[k].box.bottom - BottomCut * CountOn(items[k..], q.page) as real <= items[last].box.bottom - BottomCut
    {
      CountOnFrom(items, q.page, k);
    }
  }

  /** A question made of its heading line alone: the crop stops 10 above that line's bottom. */
  lemma CropHeadingOnly(q: Question, width: real, height: real)
    requires WellFormed(q) && |q.content| == 1
    ensures Crop(q, width, height)
            == Box(Max(0.0, q.startBox.x0 - Padding), Max(0.0, q.startBox.top + TopNudge - Padding),
                   Min(width, q.startBox.x1 + Padding), Min(height, q.startBox.bottom - BottomCut + Padding))
  {
    assert q.content[..0] == [];
    assert Bounds(q.page, q.startBox, q.content) == FoldItem(q.startBox, q.startBox);
  }

  // ------------------------------------------------------------ the method

  /**
   * The crop rectangle as the source computes it: a four-slot copy of the
   * start rectangle updated slot by slot for each same-page entry, then padded
   * and clamped to the page.
   */
  method CaptureBox(q: Question, width: real, height: real) returns (crop: Box)
    ensures crop == Crop(q, width, height)
  {
    var bbox := new real[4];
    bbox[0], bbox[1], bbox[2], bbox[3] := q.startBox.x0, q.startBox.top, q.startBox.x1, q.startBox.bottom;
    var i := 0;
    while i < |q.content|
      invariant 0 <= i <= |q.content|
      invariant Box(bbox[0], bbox[1], bbox[2], bbox[3]) == Bounds(q.page, q.startBox, q.content[..i])
    {
      var content := q.content[i];
      if content.page == q.page {
        bbox[0] := Min(bbox[0], content.box.x0);
        bbox[1] := Min(bbox[1], content.box.top) + TopNudge;
        bbox[2] := Max(bbox[2], content.box.x1);
        bbox[3] := Max(bbox[3], content.box.bottom) - BottomCut;
      }
      assert q.content[..i + 1][..i] == q.content[..i];
      i := i + 1;
    }
    assert q.content[..i] == q.content;
    crop := Box(Max(0.0, bbox[0] - Padding), Max(0.0, bbox[1] - Padding),
                Min(width, bbox[2] + Padding), Min(height, bbox[3] + Padding));
  }
}
