/** The stopping rule of the infinite-scroll strategy (`scrape_infinite_scroll`):
    the page heights the browser reports are an input. */
module Scrolling {

  /** The document height measured after `i` scroll actions: the `i`-th
      observation, or the last one once the observations run out (the page has
      stopped growing); an empty list stands for a page of height 0. */
  function HeightAt(heights: seq<int>, i: nat): int {
    if i < |heights| then heights[i]
    else if heights == [] then 0
    else heights[|heights| - 1]
  }

  /** Scroll action `i` brought no new content. */
  predicate NoGrowth(heights: seq<int>, i: nat)
    requires i >= 1
  {
    HeightAt(heights, i) == HeightAt(heights, i - 1)
  }

  /** The first scroll action, counting from `from`, after which the height did
      not change, given that none before `from` did. */
  function FirstRepeatFrom(heights: seq<int>, from: nat): (k: nat)
    requires from >= 1
    requires forall j :: 1 <= j < from ==> !NoGrowth(heights, j)
    ensures from <= k && NoGrowth(heights, k)
    ensures forall j :: 1 <= j < k ==> !NoGrowth(heights, j)
    decreases |heights| - from
  {
    if NoGrowth(heights, from) then from
    else
      assert from < |heights|;
      FirstRepeatFrom(heights, from + 1)
  }

  /** The first scroll action after which the height did not change. */
  function FirstRepeat(heights: seq<int>): (k: nat)
    ensures k >= 1 && NoGrowth(heights, k)
    ensures forall j :: 1 <= j < k ==> !NoGrowth(heights, j)
  {
    FirstRepeatFrom(heights, 1)
  }

  function Min(a: nat, b: nat): nat {
    if a <= b then a else b
  }

  /** The number of scroll actions the loop performs with `scrolls` iterations
      allowed: it stops at the first action that brought no growth. */
  function ScrollActions(heights: seq<int>, scrolls: nat): nat {
    Min(scrolls, FirstRepeat(heights))
  }

  /** A repeated height ends the scrolling at exactly that action. */
  lemma StopsAtFirstRepeat(heights: seq<int>, scrolls: nat, k: nat)
    requires 1 <= k <= scrolls && NoGrowth(heights, k)
    requires forall j :: 1 <= j < k ==> !NoGrowth(heights, j)
    ensures ScrollActions(heights, scrolls) == k
  {
  }

  /** A page that keeps growing is scrolled the full number of times. */
  lemma GrowingPageRunsOut(heights: seq<int>, scrolls: nat)
    requires forall j :: 1 <= j <= scrolls ==> !NoGrowth(heights, j)
    ensures ScrollActions(heights, scrolls) == scrolls
  {
  }

  /** Heights `[1000, 1000]` with five iterations allowed: one scroll, then stop. */
  lemma ExampleEarlyStop()
    ensures ScrollActions([1000, 1000], 5) == 1
  {
    StopsAtFirstRepeat([1000, 1000], 5, 1);
  }
}
