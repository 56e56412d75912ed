/**
 * The picture strip of the review card: `addReviewData` measures it,
 * `slideNext` and `slidePrev` move it by whole thumbnails (or exactly to the
 * end) and translate every thumbnail by `-bound` pixels. Layout reads are
 * integer parameters; the strip's left edge is read again at every slide.
 */
module Carousel {

  /** At least one whole width. */
  lemma {:induction false} MulAtLeast(a: int, w: int)
    requires a >= 1 && w > 0
    ensures a * w >= w
    decreases a
  {
    if a > 1 {
      MulAtLeast(a - 1, w);
      assert a * w == (a - 1) * w + w;
    }
  }

  /** Quotient and remainder are the only ones with a remainder in `[0, w)`. */
  lemma DivModUnique(x: int, w: int, q: int, r: int)
    requires w > 0 && 0 <= r < w && x == q * w + r
    ensures x / w == q && x % w == r
  {
    var q0, r0 := x / w, x % w;
    assert x == q0 * w + r0;
    if q > q0 {
      MulAtLeast(q - q0, w);
    } else if q < q0 {
      MulAtLeast(q0 - q, w);
    }
  }

  /** Two different multiples of `w` are at least `w` apart. */
  lemma MultiplesApart(a: int, b: int, w: int)
    requires w > 0 && a % w == 0 && b % w == 0 && a > b
    ensures a >= b + w
  {
    var ka, kb := a / w, b / w;
    assert a == ka * w && b == kb * w;
    if ka < kb {
      MulAtLeast(kb - ka, w);
    }
    MulAtLeast(ka - kb, w);
    assert (ka - kb) * w == ka * w - kb * w;
  }

  /** `Math.floor(x / w) * w`: the largest multiple of `w` not above `x`. */
  function AlignDown(x: int, w: int): (r: int)
    requires w > 0
    ensures r % w == 0 && r <= x < r + w
  {
    var q := x / w;
    assert x == q * w + x % w;
    DivModUnique(q * w, w, q, 0);
    q * w
  }

  /** Every multiple of the width at or below `x` is at or below `AlignDown(x, w)`. */
  lemma AlignDownLargest(x: int, w: int, m: int)
    requires w > 0 && m % w == 0 && m <= x
    ensures m <= AlignDown(x, w)
  {
    var r := AlignDown(x, w);
    if m > r {
      MultiplesApart(m, r, w);
    }
  }

  function Min(a: int, b: int): int {
    if a <= b then a else b
  }

  function Max(a: int, b: int): int {
    if a >= b then a else b
  }

  /**
   * The new `bound` of `slideNext` (when it moves): exactly to the end when
   * what remains fits in the visible width, otherwise aligned down to a
   * thumbnail edge.
   */
  function NextBound(bound: int, remain: int, visibleWidth: int, itemWidth: int): (r: int)
    requires itemWidth > 0
    ensures remain <= visibleWidth ==> r == bound + remain
    ensures remain > visibleWidth ==> r % itemWidth == 0 && r <= bound + visibleWidth < r + itemWidth
  {
    var delta := Min(remain, visibleWidth);
    if delta == remain then bound + delta else AlignDown(bound + delta, itemWidth)
  }

  /** The new `bound` of `slidePrev` (when it moves): back by at most the visible width, aligned down. */
  function PrevBound(bound: int, visibleWidth: int, itemWidth: int): (r: int)
    requires itemWidth > 0
    ensures r % itemWidth == 0 && r <= bound - Min(bound, visibleWidth) < r + itemWidth
  {
    AlignDown(bound - Min(bound, visibleWidth), itemWidth)
  }

  /** `remainWidth` once `bound` is set: what of the strip lies beyond the visible part. */
  function Remain(bound: int, listLeft: int, maxWidth: int, visibleRight: int): int {
    -bound + listLeft + maxWidth + 16 - visibleRight
  }

  /**
   * Starting from an aligned `bound` at or before the end, `slideNext` never
   * moves backwards and never passes the end `maxWidth - visibleWidth`.
   */
  lemma NextBoundWithinEnd(bound: int, visibleWidth: int, itemWidth: int, maxWidth: int)
    requires itemWidth > 0 && visibleWidth >= 0 && bound % itemWidth == 0
    requires bound < maxWidth - visibleWidth
    ensures var r := NextBound(bound, maxWidth - visibleWidth - bound, visibleWidth, itemWidth);
            bound <= r <= Max(0, maxWidth - visibleWidth)
  {
    var remain := maxWidth - visibleWidth - bound;
    if remain > visibleWidth {
      AlignDownLargest(bound + visibleWidth, itemWidth, bound);
    }
  }

  /** With a visible width of at least one thumbnail, `slideNext` always makes progress. */
  lemma NextBoundProgress(bound: int, remain: int, visibleWidth: int, itemWidth: int)
    requires itemWidth > 0 && remain > 0 && visibleWidth >= itemWidth
    ensures NextBound(bound, remain, visibleWidth, itemWidth) > bound
  {
  }

  /**
   * With a visible width narrower than a thumbnail, an aligned `bound` that
   * is not near the end never moves: the rounding takes it straight back.
   */
  lemma NextBoundStuckWhenNarrow(bound: int, remain: int, visibleWidth: int, itemWidth: int)
    requires itemWidth > 0 && 0 <= visibleWidth < itemWidth && bound % itemWidth == 0
    requires remain > visibleWidth
    ensures NextBound(bound, remain, visibleWidth, itemWidth) == bound
  {
    var r := NextBound(bound, remain, visibleWidth, itemWidth);
    AlignDownLargest(bound + visibleWidth, itemWidth, bound);
    if r > bound {
      MultiplesApart(r, bound, itemWidth);
    }
  }

  /** `slidePrev` lands on a non-negative thumbnail edge, strictly before `bound` when the visible width is positive. */
  lemma PrevBoundBack(bound: int, visibleWidth: int, itemWidth: int)
    requires itemWidth > 0 && bound > 0
    ensures var r := PrevBound(bound, visibleWidth, itemWidth);
            0 <= r && r % itemWidth == 0
            && (visibleWidth > 0 ==> r < bound)
            && (visibleWidth >= bound ==> r == 0)
  {
    var r := PrevBound(bound, visibleWidth, itemWidth);
    AlignDownLargest(bound - Min(bound, visibleWidth), itemWidth, 0);
  }

  /**
   * Thumbnails 100 px apart (84 px wide plus the 16 px gap), six of them, a
   * visible width of 250 px: `slideNext` goes 0, 200 and then exactly to the
   * end at 350; `slidePrev` comes back 100 and then 0, not retracing its steps.
   */
  lemma WorkedExample()
    ensures NextBound(0, 350, 250, 100) == 200
    ensures NextBound(200, 150, 250, 100) == 350
    ensures PrevBound(350, 250, 100) == 100
    ensures PrevBound(100, 250, 100) == 0
  {
  }

  /** The strip's measured state and the visibility of its two arrows. */
  class Slider {
    var bound: int
    var itemWidth: int
    var maxWidth: int
    var totalRight: int
    var visibleRight: int
    var visibleWidth: int
    var remainWidth: int
    var prevHidden: bool
    var nextHidden: bool
    /** The `translateX` of each thumbnail, in pixels. */
    const offsets: array<int>

    /** `remainWidth` is what of the strip lies beyond the visible part. */
    predicate Valid()
      reads this
    {
      itemWidth > 0 && remainWidth == totalRight - visibleRight
    }

    /**
     * `addReviewData` for a non-empty picture list: the strip starts at
     * `bound` (0 on a fresh tool), the previous arrow is hidden, and the next
     * arrow is hidden when less than 16 px remain.
     */
    constructor (bound: int, picWidth: int, count: nat, listLeft: int, listRight: int, nextWasHidden: bool)
      requires picWidth >= 0 && count >= 1
      ensures Valid()
      ensures this.bound == bound && itemWidth == picWidth + 16 && maxWidth == itemWidth * count
      ensures totalRight == bound + listLeft + maxWidth + 16
      ensures visibleRight == listRight - 16 && visibleWidth == listRight - listLeft - 32
      ensures remainWidth == totalRight - visibleRight
      ensures prevHidden && nextHidden == (nextWasHidden || totalRight < visibleRight + 16)
      ensures fresh(offsets) && offsets.Length == count && forall k :: 0 <= k < count ==> offsets[k] == 0
    {
      this.bound := bound;
      itemWidth := picWidth + 16;
      maxWidth := (picWidth + 16) * count;
      totalRight := bound + listLeft + (picWidth + 16) * count + 16;
      visibleRight := listRight - 16;
      visibleWidth := listRight - listLeft - 32;
      remainWidth := (bound + listLeft + (picWidth + 16) * count + 16) - (listRight - 16);
      prevHidden := true;
      nextHidden := nextWasHidden || bound + listLeft + (picWidth + 16) * count + 16 < listRight;
      offsets := new int[count](_ => 0);
    }

    /** Translates every thumbnail by `-bound`. */
    method ShiftAll()
      modifies offsets
      ensures forall k :: 0 <= k < offsets.Length ==> offsets[k] == -bound
    {
      var i := 0;
      while i < offsets.Length
        invariant 0 <= i <= offsets.Length
        invariant forall k :: 0 <= k < i ==> offsets[k] == -bound
      {
        offsets[i] := -bound;
        i := i + 1;
      }
    }

    /** `slideNext`, with the strip's current left edge. */
    method SlideNext(listLeft: int)
      requires Valid()
      modifies this, offsets
      ensures Valid()
      ensures old(totalRight) <= old(visibleRight) ==> unchanged(this) && unchanged(offsets)
      ensures old(totalRight) > old(visibleRight) ==>
        && bound == NextBound(old(bound), old(remainWidth), visibleWidth, itemWidth)
        && totalRight == -bound + listLeft + maxWidth + 16
        && remainWidth == Remain(bound, listLeft, maxWidth, visibleRight)
        && nextHidden == (old(nextHidden) || totalRight <= visibleRight)
        && prevHidden == (old(prevHidden) && bound <= 0)
        && (forall k :: 0 <= k < offsets.Length ==> offsets[k] == -bound)
      ensures itemWidth == old(itemWidth) && maxWidth == old(maxWidth)
      ensures visibleRight == old(visibleRight) && visibleWidth == old(visibleWidth)
    {
      if totalRight <= visibleRight {
        return;
      }
      bound := NextBound(bound, remainWidth, visibleWidth, itemWidth);
      totalRight := -bound + listLeft + maxWidth + 16;
      remainWidth := totalRight - visibleRight;
      if totalRight <= visibleRight {
        nextHidden := true;
      }
      if bound > 0 {
        prevHidden := false;
      }
      ShiftAll();
    }

    /** `slidePrev`, with the strip's current left edge. */
    method SlidePrev(listLeft: int)
      requires Valid()
      modifies this, offsets
      ensures Valid()
      ensures old(bound) == 0 ==> unchanged(this) && unchanged(offsets)
      ensures old(bound) != 0 ==>
        && bound == PrevBound(old(bound), visibleWidth, itemWidth)
        && totalRight == -bound + listLeft + maxWidth + 16
        && remainWidth == Remain(bound, listLeft, maxWidth, visibleRight)
        && nextHidden == (old(nextHidden) && remainWidth <= 0)
        && prevHidden == (old(prevHidden) || bound == 0)
        && (forall k :: 0 <= k < offsets.Length ==> offsets[k] == -bound)
      ensures itemWidth == old(itemWidth) && maxWidth == old(maxWidth)
      ensures visibleRight == old(visibleRight) && visibleWidth == old(visibleWidth)
    {
      if bound == 0 {
        return;
      }
      bound := PrevBound(bound, visibleWidth, itemWidth);
      totalRight := -bound + listLeft + maxWidth + 16;
      remainWidth := totalRight - visibleRight;
      if remainWidth > 0 {
        nextHidden := false;
      }
      ShiftAll();
      if bound == 0 {
        prevHidden := true;
      }
    }
  }

  /**
   * When the strip's left edge does not move, `remainWidth` after a slide is
   * the end `maxWidth - visibleWidth` minus `bound`.
   */
  lemma RemainFromEnd(bound: int, listLeft: int, listRight: int, maxWidth: int)
    ensures Remain(bound, listLeft, maxWidth, listRight - 16) == (maxWidth - (listRight - listLeft - 32)) - bound
  {
  }

  /**
   * On a fresh tool (`bound` 0) the first measurement agrees with the slides:
   * what remains is the end `maxWidth - visibleWidth`. The next arrow is
   * hidden when less than 16 px remain, although `slideNext` would still move
   * the strip whenever anything remains.
   */
  lemma InitialHideDiffers(picWidth: int, count: nat, listLeft: int, listRight: int)
    requires picWidth >= 0 && count >= 1
    requires var remain := (picWidth + 16) * count - (listRight - listLeft - 32); 0 < remain < 16
    ensures var totalRight := 0 + listLeft + (picWidth + 16) * count + 16;
            var visibleRight := listRight - 16;
            totalRight < visibleRight + 16 && totalRight > visibleRight
  {
  }
}
