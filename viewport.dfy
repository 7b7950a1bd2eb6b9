/**
 * The arithmetic of virtual scrolling: which records to render for a scroll
 * offset, and where each rendered card sits on the full-height surface.
 * Lengths are in one common unit throughout (the viewer uses tenths of a pixel).
 */
module Viewport {
  import opened JsBuiltins

  /** An inclusive index window [start, end] over the record store. */
  datatype Window = Window(start: int, end: int)

  datatype Option<T> = None | Some(value: T)

  /** updateVisibleItems' range: nothing for an empty store, otherwise the records from
      `bufferSize` rows above the first row the offset reaches to `bufferSize` rows below
      the last, cut to the store's indices. */
  function VisibleRange(count: nat, scrollTop: int, viewportHeight: int,
                        recordHeight: nat, bufferSize: nat): (r: Option<Window>)
    requires recordHeight > 0
    ensures r.None? <==> count == 0
    ensures r.Some? ==> 0 <= r.value.start && r.value.end <= count - 1
  {
    if count == 0 then None
    else Some(Window(Max(0, scrollTop / recordHeight - bufferSize),
                     Min(count - 1, (scrollTop + viewportHeight) / recordHeight + bufferSize)))
  }

  lemma DivMonotone(a: int, b: int, d: int)
    requires 0 < d && a <= b
    ensures a / d <= b / d
  {
    var qa, qb := a / d, b / d;
    assert d * qa <= a && b < d * qb + d;
    assert d * qa < d * (qb + 1);
    MulLessCancel(d, qa, qb + 1);
  }

  lemma MulLessCancel(d: int, x: int, y: int)
    requires 0 < d && d * x < d * y
    ensures x < y
  {
    assert d * (y - x) > 0;
  }

  /** n * d bounds a by n rows of height d: its row number is at most n. */
  lemma DivAtMost(a: int, n: int, d: int)
    requires 0 < d && a <= n * d
    ensures a / d <= n
  {
    DivMonotone(a, n * d, d);
  }

  /** With a scroll offset inside the content and a buffer of at least one row,
      the window is never empty. */
  lemma RangeNonEmpty(count: nat, scrollTop: int, viewportHeight: int, recordHeight: nat, bufferSize: nat)
    requires recordHeight > 0 && count > 0
    requires 0 <= scrollTop <= count * recordHeight && 0 <= viewportHeight && 1 <= bufferSize
    ensures VisibleRange(count, scrollTop, viewportHeight, recordHeight, bufferSize).value.start
         <= VisibleRange(count, scrollTop, viewportHeight, recordHeight, bufferSize).value.end
  {
    DivAtMost(scrollTop, count, recordHeight);
    DivMonotone(scrollTop, scrollTop + viewportHeight, recordHeight);
    DivMonotone(0, scrollTop + viewportHeight, recordHeight);
  }

  /** Scrolling further down never moves either end of the window up. */
  lemma RangeMonotone(count: nat, top1: int, top2: int, viewportHeight: int,
                      recordHeight: nat, bufferSize: nat)
    requires recordHeight > 0 && count > 0 && top1 <= top2
    ensures VisibleRange(count, top1, viewportHeight, recordHeight, bufferSize).value.start
         <= VisibleRange(count, top2, viewportHeight, recordHeight, bufferSize).value.start
    ensures VisibleRange(count, top1, viewportHeight, recordHeight, bufferSize).value.end
         <= VisibleRange(count, top2, viewportHeight, recordHeight, bufferSize).value.end
  {
    DivMonotone(top1, top2, recordHeight);
    DivMonotone(top1 + viewportHeight, top2 + viewportHeight, recordHeight);
  }

  /** Every record whose row overlaps the viewport [scrollTop, scrollTop + viewportHeight)
      lies inside the window. */
  lemma RangeCoversViewport(count: nat, scrollTop: int, viewportHeight: int,
                            recordHeight: nat, bufferSize: nat, idx: int)
    requires recordHeight > 0 && 0 <= idx < count
    requires idx * recordHeight < scrollTop + viewportHeight
    requires scrollTop < (idx + 1) * recordHeight
    ensures VisibleRange(count, scrollTop, viewportHeight, recordHeight, bufferSize).value.start <= idx
    ensures idx <= VisibleRange(count, scrollTop, viewportHeight, recordHeight, bufferSize).value.end
  {
    DivMonotone(idx * recordHeight, scrollTop + viewportHeight, recordHeight);
    assert (idx * recordHeight) / recordHeight == idx by {
      DivOfMultiple(idx, recordHeight);
    }
    DivMonotone(scrollTop, (idx + 1) * recordHeight - 1, recordHeight);
    assert ((idx + 1) * recordHeight - 1) / recordHeight == idx by {
      DivBelowMultiple(idx + 1, recordHeight);
    }
  }

  lemma DivOfMultiple(q: int, d: int)
    requires 0 < d
    ensures (q * d) / d == q
  {
    DivUnique(q * d, d, q, 0);
  }

  lemma DivBelowMultiple(q: int, d: int)
    requires 0 < d
    ensures (q * d - 1) / d == q - 1
  {
    assert q * d - 1 == d * (q - 1) + (d - 1);
    DivUnique(q * d - 1, d, q - 1, d - 1);
  }

  /** Euclidean division has a unique quotient. */
  lemma DivUnique(a: int, d: int, q: int, r: int)
    requires 0 < d && a == d * q + r && 0 <= r < d
    ensures a / d == q
  {
    var q', r' := a / d, a % d;
    assert d * q' + r' == d * q + r;
    assert d * q' < d * (q + 1);
    assert d * q < d * (q' + 1);
    MulLessCancel(d, q', q + 1);
    MulLessCancel(d, q, q' + 1);
  }

  /** 2500 records of 110 px, a buffer of 100, an 800 px viewport scrolled to 5500 px
      (here in tenths of a pixel): records 0 to 157. */
  lemma RangeExample()
    ensures VisibleRange(2500, 55000, 8000, 1100, 100) == Some(Window(0, 157))
  {
  }

  /** The records updateVisibleItems keeps: slice(startIndex, endIndex + 1) of the store. */
  function Visible<T>(all: seq<T>, scrollTop: int, viewportHeight: int,
                      recordHeight: nat, bufferSize: nat): (r: seq<T>)
    requires recordHeight > 0
    ensures all == [] ==> r == []
    ensures |r| <= |all|
  {
    match VisibleRange(|all|, scrollTop, viewportHeight, recordHeight, bufferSize)
    case None => []
    case Some(w) => Slice(all, w.start, w.end + 1)
  }

  /** Within the content, the kept records are exactly the window's records, in order. */
  lemma VisibleIsWindow<T>(all: seq<T>, scrollTop: int, viewportHeight: int,
                           recordHeight: nat, bufferSize: nat)
    requires recordHeight > 0 && all != []
    requires 0 <= scrollTop <= |all| * recordHeight && 0 <= viewportHeight && 1 <= bufferSize
    ensures var w := VisibleRange(|all|, scrollTop, viewportHeight, recordHeight, bufferSize).value;
            var v := Visible(all, scrollTop, viewportHeight, recordHeight, bufferSize);
            |v| == w.end - w.start + 1 >= 1 &&
            forall k :: 0 <= k < |v| ==> v[k] == all[w.start + k]
  {
    RangeNonEmpty(|all|, scrollTop, viewportHeight, recordHeight, bufferSize);
  }

  /** renderItems' placement: card k of the slice is absolutely positioned at the top of
      row start + k. */
  predicate PlacedFrom(tops: seq<int>, start: int, recordHeight: int)
  {
    forall k :: 0 <= k < |tops| ==> tops[k] == (start + k) * recordHeight
  }

  /** Placed cards are stacked without gap or overlap: each is one row below the previous,
      so their tops strictly increase. */
  lemma CardsStacked(tops: seq<int>, start: int, recordHeight: int)
    requires recordHeight > 0 && PlacedFrom(tops, start, recordHeight)
    ensures forall k :: 0 <= k < |tops| - 1 ==> tops[k + 1] == tops[k] + recordHeight
    ensures forall j, k :: 0 <= j < k < |tops| ==> tops[j] < tops[k]
  {
    forall j, k | 0 <= j < k < |tops| ensures tops[j] < tops[k] {
      assert tops[k] - tops[j] == (k - j) * recordHeight;
      assert (k - j) * recordHeight >= recordHeight by { MulAtLeast(k - j, recordHeight); }
    }
  }

  lemma MulAtLeast(m: int, d: int)
    requires m >= 1 && d > 0
    ensures m * d >= d
  {
    assert m * d == (m - 1) * d + d;
  }

  /** Cards of a window inside the store lie wholly on the surface, whose height is
      count rows. */
  lemma CardsInsideSurface(tops: seq<int>, start: int, recordHeight: int, count: int)
    requires recordHeight > 0 && PlacedFrom(tops, start, recordHeight)
    requires 0 <= start && start + |tops| <= count
    ensures forall k :: 0 <= k < |tops| ==> 0 <= tops[k] && tops[k] + recordHeight <= count * recordHeight
  {
    forall k | 0 <= k < |tops| ensures 0 <= tops[k] && tops[k] + recordHeight <= count * recordHeight {
      assert tops[k] + recordHeight == (start + k + 1) * recordHeight;
      assert count * recordHeight - (start + k + 1) * recordHeight == (count - start - k - 1) * recordHeight;
    }
  }
}
