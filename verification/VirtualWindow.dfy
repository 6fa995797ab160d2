/**
 The virtual window of a long list: which rows are rendered around the viewport, and
 the blank space that stands for the others. Pixels are real numbers.
 */
module VirtualWindow {
  const OVERSCAN := 12

  function Max(a: real, b: real): real {
    if a >= b then a else b
  }

  /** Where row `i` begins: the height of all rows before it. */
  function Top(uids: seq<string>, height: string -> real, i: nat): real
    requires i <= |uids|
  {
    if i == 0 then 0.0 else Top(uids, height, i - 1) + height(uids[i - 1])
  }

  function Overscan(estimate: real): real {
    Max(estimate, 1.0) * OVERSCAN as real
  }

  function WindowStart(estimate: real, scrollTop: real): real {
    Max(scrollTop - Overscan(estimate), 0.0)
  }

  function WindowEnd(estimate: real, scrollTop: real, viewport: real): real {
    scrollTop + viewport + Overscan(estimate)
  }

  /** Row `i` reaches into the window, or is an empty row that stands inside it. */
  predicate InWindow(uids: seq<string>, height: string -> real, i: nat, start: real, end: real)
    requires i < |uids|
  {
    Top(uids, height, i) < end && (Top(uids, height, i + 1) > start || Top(uids, height, i) >= start)
  }

  ghost predicate HeightsInRange(uids: seq<string>, height: string -> real, tallest: real) {
    forall u <- uids :: 0.0 <= height(u) <= tallest
  }

  lemma {:induction false} TopsRise(uids: seq<string>, height: string -> real, tallest: real, i: nat, j: nat)
    requires HeightsInRange(uids, height, tallest) && i <= j <= |uids|
    ensures 0.0 <= Top(uids, height, i) <= Top(uids, height, j)
    decreases j
  {
    if i < j {
      TopsRise(uids, height, tallest, i, j - 1);
      assert height(uids[j - 1]) >= 0.0;
    } else if j > 0 {
      TopsRise(uids, height, tallest, i - 1, j - 1);
      assert height(uids[j - 1]) >= 0.0;
    }
  }

  /** Row `i` ends before the window starts. */
  predicate Passed(uids: seq<string>, height: string -> real, i: nat, start: real)
    requires i < |uids|
  {
    Top(uids, height, i + 1) <= start && (Top(uids, height, i) < start || height(uids[i]) != 0.0)
  }

  /** Where the two loops stop, for heights of any sign. */
  predicate Stops(uids: seq<string>, height: string -> real, first: nat, last: nat, start: real, end: real) {
    && first <= last <= |uids|
    && (forall i | 0 <= i < first :: Passed(uids, height, i, start))
    && (first < |uids| ==> !Passed(uids, height, first, start))
    && (forall i | first <= i < last :: Top(uids, height, i) < end)
    && (last < |uids| ==> Top(uids, height, last) >= end)
  }

  /** For heights that are not negative, the loops stop at the two ends of the window. */
  lemma StopsAtTheWindow(
    uids: seq<string>, height: string -> real, tallest: real, first: nat, last: nat, start: real, end: real, i: nat)
    requires HeightsInRange(uids, height, tallest) && Stops(uids, height, first, last, start, end) && i < |uids|
    ensures first <= i < last <==> InWindow(uids, height, i, start, end)
  {
    assert height(uids[i]) >= 0.0;
    if i < first {
      assert Passed(uids, height, i, start);
    } else if i < last {
      TopsRise(uids, height, tallest, first, i);
      TopsRise(uids, height, tallest, first + 1, i + 1);
    } else {
      TopsRise(uids, height, tallest, last, i);
    }
  }

  /** The rendered rows stay short: the viewport, the overscan on both sides, and the two rows cut by the edges. */
  lemma RenderedExtentIsBounded(
    uids: seq<string>, height: string -> real, tallest: real,
    estimate: real, scrollTop: real, viewport: real, first: nat, last: nat)
    requires HeightsInRange(uids, height, tallest) && tallest >= 0.0 && viewport >= 0.0
    requires Stops(uids, height, first, last, WindowStart(estimate, scrollTop), WindowEnd(estimate, scrollTop, viewport))
    ensures Top(uids, height, last) - Top(uids, height, first)
          < viewport + 2.0 * Overscan(estimate) + 2.0 * tallest
  {
    if first < last {
      assert height(uids[first]) <= tallest && height(uids[last - 1]) <= tallest;
      assert Top(uids, height, last - 1) < WindowEnd(estimate, scrollTop, viewport);
    }
  }

  method WindowLayout(uids: seq<string>, height: string -> real, estimate: real, scrollTop: real, viewport: real)
    returns (first: nat, last: nat, before: real, after: real)
    ensures Stops(uids, height, first, last, WindowStart(estimate, scrollTop), WindowEnd(estimate, scrollTop, viewport))
    ensures before == Top(uids, height, first)
    ensures after == Top(uids, height, |uids|) - Top(uids, height, last)
  {
    var overscan := Max(estimate, 1.0) * OVERSCAN as real;
    var windowStart := Max(scrollTop - overscan, 0.0);
    var windowEnd := scrollTop + viewport + overscan;

    first, before := 0, 0.0;
    while first < |uids|
      invariant first <= |uids| && before == Top(uids, height, first) && before <= windowStart
      invariant forall i | 0 <= i < first :: Passed(uids, height, i, windowStart)
    {
      var rowHeight := height(uids[first]);
      if rowHeight == 0.0 && before >= windowStart {
        break;
      }
      if before + rowHeight > windowStart {
        break;
      }
      before := before + rowHeight;
      first := first + 1;
    }

    last := first;
    var throughWindow := before;
    while last < |uids| && throughWindow < windowEnd
      invariant first <= last <= |uids| && throughWindow == Top(uids, height, last)
      invariant forall i | first <= i < last :: Top(uids, height, i) < windowEnd
    {
      throughWindow := throughWindow + height(uids[last]);
      last := last + 1;
    }

    after := 0.0;
    for i := last to |uids|
      invariant after == Top(uids, height, i) - Top(uids, height, last)
    {
      after := after + height(uids[i]);
    }
  }

  function RowHeight(heights: map<string, real>, collapsed: set<string>, estimate: real, uid: string): real {
    if uid in collapsed then 0.0 else if uid in heights then heights[uid] else estimate
  }

  function HeightOf(heights: map<string, real>, collapsed: set<string>, estimate: real): string -> real {
    (uid: string) => RowHeight(heights, collapsed, estimate, uid)
  }

  /** A collapsed row adds nothing, a measured one what was measured, any other the estimate. */
  lemma RowsAddTheirHeights(
    uids: seq<string>, heights: map<string, real>, collapsed: set<string>, estimate: real, i: nat)
    requires i < |uids|
    ensures var added := Top(uids, HeightOf(heights, collapsed, estimate), i + 1)
                       - Top(uids, HeightOf(heights, collapsed, estimate), i);
      && (uids[i] in collapsed ==> added == 0.0)
      && (uids[i] !in collapsed && uids[i] in heights ==> added == heights[uids[i]])
      && (uids[i] !in collapsed && uids[i] !in heights ==> added == estimate)
  {
  }

  /** Twelve rows of the estimated height, or of one pixel, on either side of what is on screen. */
  predicate NearScreen(top: real, bottom: real, estimate: real, scrollTop: real, viewport: real) {
    var margin := 12.0 * if estimate > 1.0 then estimate else 1.0;
    top < scrollTop + viewport + margin && bottom > scrollTop - margin
  }

  /** Of the rows that take up room the window holds exactly those on screen or near it. */
  lemma WindowCoversTheScreen(
    uids: seq<string>, height: string -> real, tallest: real, i: nat, estimate: real, scrollTop: real, viewport: real)
    requires HeightsInRange(uids, height, tallest) && i < |uids| && height(uids[i]) > 0.0
    ensures InWindow(uids, height, i, WindowStart(estimate, scrollTop), WindowEnd(estimate, scrollTop, viewport))
       <==> NearScreen(Top(uids, height, i), Top(uids, height, i + 1), estimate, scrollTop, viewport)
  {
    TopsRise(uids, height, tallest, i, i + 1);
  }

  /**
   The layout of measured rows, with collapsed ones empty. Blank space and rendered
   rows add up to the whole list; a row is rendered exactly when it is in the window, and
   one that takes up room exactly when it is on screen or near it.
   */
  method VariableWindowLayout(
      uids: seq<string>, heights: map<string, real>, collapsed: set<string>, estimate: real,
      scrollTop: real, viewport: real)
    returns (first: nat, last: nat, before: real, after: real)
    requires estimate >= 0.0 && viewport >= 0.0 && forall u <- heights :: heights[u] >= 0.0
    ensures first <= last <= |uids|
    ensures var height := HeightOf(heights, collapsed, estimate);
      && before + (Top(uids, height, last) - Top(uids, height, first)) + after == Top(uids, height, |uids|)
      && before == Top(uids, height, first)
      && (forall i: nat | i < |uids| :: first <= i < last <==>
           InWindow(uids, height, i, WindowStart(estimate, scrollTop), WindowEnd(estimate, scrollTop, viewport)))
      && (forall i: nat | i < |uids| && height(uids[i]) > 0.0 :: first <= i < last <==>
           NearScreen(Top(uids, height, i), Top(uids, height, i + 1), estimate, scrollTop, viewport))
      && (forall tallest | tallest >= 0.0 && HeightsInRange(uids, height, tallest) ::
            Top(uids, height, last) - Top(uids, height, first)
            < viewport + 2.0 * Overscan(estimate) + 2.0 * tallest)
  {
    var height := HeightOf(heights, collapsed, estimate);
    first, last, before, after := WindowLayout(uids, height, estimate, scrollTop, viewport);
    ghost var tall := Tallest(uids, height);
    forall i: nat | i < |uids| ensures first <= i < last <==>
      InWindow(uids, height, i, WindowStart(estimate, scrollTop), WindowEnd(estimate, scrollTop, viewport))
    {
      StopsAtTheWindow(uids, height, tall, first, last,
                       WindowStart(estimate, scrollTop), WindowEnd(estimate, scrollTop, viewport), i);
    }
    forall i: nat | i < |uids| && height(uids[i]) > 0.0 ensures first <= i < last <==>
      NearScreen(Top(uids, height, i), Top(uids, height, i + 1), estimate, scrollTop, viewport)
    {
      WindowCoversTheScreen(uids, height, tall, i, estimate, scrollTop, viewport);
    }
    forall tallest | tallest >= 0.0 && HeightsInRange(uids, height, tallest)
      ensures Top(uids, height, last) - Top(uids, height, first)
            < viewport + 2.0 * Overscan(estimate) + 2.0 * tallest
    {
      RenderedExtentIsBounded(uids, height, tallest, estimate, scrollTop, viewport, first, last);
    }
  }

  ghost function Tallest(uids: seq<string>, height: string -> real): (t: real)
    ensures t >= 0.0 && forall u <- uids :: height(u) <= t
  {
    if uids == [] then 0.0
    else
      var t := Tallest(uids[..|uids| - 1], height);
      assert uids == uids[..|uids| - 1] + [uids[|uids| - 1]];
      Max(t, height(uids[|uids| - 1]))
  }
}
