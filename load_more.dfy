/**
 * The load-more trigger: given what the list currently lays out, decide
 * whether the next page should be requested. Kotlin `Int` is 32-bit and its
 * subtraction wraps around, so that is modelled explicitly.
 */
module LoadMore {
  import opened Wrappers

  const MinInt32: int := -0x8000_0000
  const MaxInt32: int := 0x7fff_ffff

  type Int32 = x: int | MinInt32 <= x <= MaxInt32

  /** Kotlin's `a - b` on `Int`: the exact difference, wrapped into 32 bits. */
  function Minus(a: Int32, b: Int32): (d: Int32)
    ensures MinInt32 <= a as int - b as int <= MaxInt32 ==> d == a - b
    ensures (d as int - (a as int - b as int)) % 0x1_0000_0000 == 0
  {
    var exact := a as int - b as int;
    if exact < MinInt32 then exact + 0x1_0000_0000
    else if exact > MaxInt32 then exact - 0x1_0000_0000
    else exact
  }

  /** The part of the list layout the trigger reads: the indices of the visible items, in order, and the item count. */
  datatype LayoutInfo = LayoutInfo(visibleItemsInfo: seq<Int32>, totalItemsCount: Int32)

  /** The index of the last visible item, if any item is visible. */
  function LastVisibleIndex(layoutInfo: LayoutInfo): (r: Option<Int32>)
    ensures r.Some? <==> layoutInfo.visibleItemsInfo != []
    ensures r.Some? ==> r.value == layoutInfo.visibleItemsInfo[|layoutInfo.visibleItemsInfo| - 1]
  {
    var visible := layoutInfo.visibleItemsInfo;
    if visible == [] then None else Some(visible[|visible| - 1])
  }

  /** The strategy, configured by how close to the end (in items) loading starts. */
  datatype DefaultLoadMoreStrategy = DefaultLoadMoreStrategy(boundary: Int32) {

    /** Load more once the last visible item is within `boundary` of the end. */
    function ShouldLoadMore(layoutInfo: LayoutInfo): (r: bool)
      ensures layoutInfo.visibleItemsInfo == [] ==> !r
      // with a non-negative count and boundary there is no wrap-around: the plain comparison
      ensures 0 <= layoutInfo.totalItemsCount && 0 <= boundary ==>
                (r <==> layoutInfo.visibleItemsInfo != []
                        && layoutInfo.visibleItemsInfo[|layoutInfo.visibleItemsInfo| - 1]
                           >= layoutInfo.totalItemsCount - boundary)
    {
      var lastVisibleItem := LastVisibleIndex(layoutInfo);
      var totalItemCount := layoutInfo.totalItemsCount;
      lastVisibleItem.Some? && lastVisibleItem.value >= Minus(totalItemCount, boundary)
    }
  }

  /** The strategy built with no argument. */
  const DefaultBoundary: Int32 := 5
  const Default := DefaultLoadMoreStrategy(DefaultBoundary)

  /** The default strategy fires exactly when the last visible index is at least the item count minus 5. */
  lemma DefaultFiresWithinFive(layoutInfo: LayoutInfo)
    requires 0 <= layoutInfo.totalItemsCount
    ensures Default.ShouldLoadMore(layoutInfo) <==>
              layoutInfo.visibleItemsInfo != []
              && layoutInfo.visibleItemsInfo[|layoutInfo.visibleItemsInfo| - 1] >= layoutInfo.totalItemsCount - 5
  {
  }

  /** Scrolling further never switches the trigger off: monotone in the last visible index. */
  lemma MonotoneInLastIndex(s: DefaultLoadMoreStrategy, before: LayoutInfo, after: LayoutInfo)
    requires before.visibleItemsInfo != [] && after.visibleItemsInfo != []
    requires before.totalItemsCount == after.totalItemsCount
    requires before.visibleItemsInfo[|before.visibleItemsInfo| - 1] <= after.visibleItemsInfo[|after.visibleItemsInfo| - 1]
    ensures s.ShouldLoadMore(before) ==> s.ShouldLoadMore(after)
  {
  }

  /** A larger boundary never switches the trigger off (for non-negative boundaries, where nothing wraps). */
  lemma MonotoneInBoundary(layoutInfo: LayoutInfo, b1: Int32, b2: Int32)
    requires 0 <= layoutInfo.totalItemsCount
    requires 0 <= b1 <= b2
    ensures DefaultLoadMoreStrategy(b1).ShouldLoadMore(layoutInfo) ==> DefaultLoadMoreStrategy(b2).ShouldLoadMore(layoutInfo)
  {
  }

  /** Only the last visible item matters: the other visible items never change the answer. */
  lemma OnlyLastVisibleMatters(s: DefaultLoadMoreStrategy, l1: LayoutInfo, l2: LayoutInfo)
    requires l1.totalItemsCount == l2.totalItemsCount
    requires LastVisibleIndex(l1) == LastVisibleIndex(l2)
    ensures s.ShouldLoadMore(l1) == s.ShouldLoadMore(l2)
  {
  }

  /**
   * With a boundary near the smallest `Int` the subtraction wraps: nothing is
   * within that "distance" of the end of a 10-item list, yet the trigger fires.
   */
  lemma WrapAroundAtExtremeBoundary()
    ensures LastVisibleIndex(LayoutInfo([0], 10)).value < 10 - MinInt32
    ensures DefaultLoadMoreStrategy(MinInt32).ShouldLoadMore(LayoutInfo([0], 10))
  {
  }
}
