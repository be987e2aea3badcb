/** The "load more" state of src/components/lists/InfiniteGrid.tsx: a count of
    visible items, clamped into `[0, items.length]` whenever it is set or
    read, and advanced by `step` from the button or the scroll sentinel. */
module InfiniteGrid {
  import opened Wrappers

  const DefaultInitialCount := 12
  const DefaultStep := 12

  /** `Math.max(min, Math.min(max, n))`. */
  function Clamp(n: int, min: int, max: int): (r: int)
    ensures min <= max ==> min <= r <= max
    ensures min <= n <= max ==> r == n
    ensures n < min ==> r == min
    ensures min <= max && max < n ==> r == max
  {
    if min > (if max < n then max else n) then min
    else if max < n then max else n
  }

  /** Clamping is idempotent. */
  lemma ClampIdempotent(n: int, min: int, max: int)
    requires min <= max
    ensures Clamp(Clamp(n, min, max), min, max) == Clamp(n, min, max)
  {
  }

  /** What a render shows for the stored count: the first
      `clamp(count, 0, items.length)` items and how many are left. */
  function VisibleItems<T>(items: seq<T>, count: int): (r: seq<T>)
    ensures |r| == Clamp(count, 0, |items|)
    ensures r == items[..|r|]
    ensures count >= |items| ==> r == items
  {
    items[..Clamp(count, 0, |items|)]
  }

  function Remaining<T>(items: seq<T>, count: int): (n: nat)
    ensures n + |VisibleItems(items, count)| == |items|
  {
    |items| - Clamp(count, 0, |items|)
  }

  /** `hasMore`. */
  predicate HasMore<T>(items: seq<T>, count: int) {
    Clamp(count, 0, |items|) < |items|
  }

  /** The button shows exactly when some items are still hidden. */
  lemma HasMoreIff<T>(items: seq<T>, count: int)
    ensures HasMore(items, count) <==> Remaining(items, count) > 0
    ensures !HasMore(items, count) <==> VisibleItems(items, count) == items
  {
    if VisibleItems(items, count) == items {
      assert |VisibleItems(items, count)| == |items|;
    }
  }

  /** One load with a positive step shows more items while some are hidden,
      and never more than all of them. */
  lemma LoadMoreProgress<T>(items: seq<T>, count: int, step: int)
    requires 0 <= count <= |items| && step > 0
    ensures var next := Clamp(count + step, 0, |items|);
      && (HasMore(items, count) ==> |VisibleItems(items, next)| > |VisibleItems(items, count)|)
      && |VisibleItems(items, next)| <= |items|
      && (count + step >= |items| ==> !HasMore(items, next))
  {
  }

  /** After `k` loads with a positive step from `count`, the count is
      `clamp(count + k * step, 0, items.length)`; enough loads show all. */
  function AfterLoads(count: int, step: int, len: nat, k: nat): int {
    if k == 0 then count else Clamp(AfterLoads(count, step, len, k - 1) + step, 0, len)
  }

  lemma {:induction false} AfterLoadsValue(count: int, step: int, len: nat, k: nat)
    requires 0 <= count <= len && step > 0 && k > 0
    ensures AfterLoads(count, step, len, k) == Clamp(count + k * step, 0, len)
  {
    if k > 1 {
      AfterLoadsValue(count, step, len, k - 1);
    }
  }

  /** The grid's React state: the items of the current render and the stored
      `visibleCount`. */
  class Grid<T> {
    var items: seq<T>
    var visibleCount: int
    const step: int

    /** `useState(() => clamp(initialCount, 0, items.length))`. */
    constructor(items: seq<T>, initialCount: Option<int>, step: Option<int>)
      ensures this.items == items
      ensures this.step == step.GetOr(DefaultStep)
      ensures visibleCount == Clamp(initialCount.GetOr(DefaultInitialCount), 0, |items|)
      ensures 0 <= visibleCount <= |items|
    {
      this.items := items;
      this.step := step.GetOr(DefaultStep);
      visibleCount := Clamp(initialCount.GetOr(DefaultInitialCount), 0, |items|);
    }

    function Visible(): seq<T>
      reads this
    {
      VisibleItems(items, visibleCount)
    }

    /** `setVisibleCount((c) => clamp(c + step, 0, items.length))`, run by the
        button and by the sentinel coming into view. */
    method LoadMore()
      modifies this
      ensures items == old(items)
      ensures visibleCount == Clamp(old(visibleCount) + step, 0, |items|)
      ensures step > 0 && 0 <= old(visibleCount) <= |items| && HasMore(items, old(visibleCount))
        ==> |Visible()| > |old(Visible())|
    {
      var before := visibleCount;
      visibleCount := Clamp(visibleCount + step, 0, |items|);
      if step > 0 && 0 <= before <= |items| {
        LoadMoreProgress(items, before, step);
      }
    }

    /** A re-render with a new `items` prop keeps the stored count; the
        render clamps it to the new length. */
    method Rerender(newItems: seq<T>)
      modifies this
      ensures items == newItems
      ensures visibleCount == old(visibleCount)
      ensures |Visible()| <= |newItems|
    {
      items := newItems;
    }
  }
}
