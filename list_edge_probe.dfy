/**
 * The list-view adapter's edge probe: whether a list (ListView, GridView) is scrolled to
 * its very start or its very end, decided from its integer layout geometry.
 */
module ListEdgeProbe {
  /** A laid-out child's vertical extent, in the list's coordinates. */
  datatype Child = Child(top: int, bottom: int)

  /**
   * What the probe reads of an AbsListView: the laid-out children (the visible ones, in
   * order), the adapter position of the first of them, the number of items, the list's
   * height and its top and bottom list padding.
   */
  datatype ListGeometry = ListGeometry(
    children: seq<Child>,
    firstVisiblePosition: int,
    count: int,
    height: int,
    listPaddingTop: int,
    listPaddingBottom: int)

  /**
   * canScrollListUp: items before the first visible one, or the first child reaching above
   * the top padding. It reads the first child, so it is only asked when there is one.
   */
  function CanScrollListUp(g: ListGeometry): (r: bool)
    requires |g.children| > 0
    ensures r <==> g.firstVisiblePosition > 0 || g.children[0].top < g.listPaddingTop
  {
    var firstTop := g.children[0].top;
    var firstPosition := g.firstVisiblePosition;
    firstPosition > 0 || firstTop < g.listPaddingTop
  }

  /**
   * canScrollListDown: items after the last visible one, or the last child reaching below
   * the bottom padding. It reads the last child, so it is only asked when there is one.
   */
  function CanScrollListDown(g: ListGeometry): (r: bool)
    requires |g.children| > 0
    ensures r <==> g.firstVisiblePosition + |g.children| < g.count ||
                   g.children[|g.children| - 1].bottom > g.height - g.listPaddingBottom
  {
    var childCount := |g.children|;
    var lastPosition := g.firstVisiblePosition + childCount;
    var lastBottom := g.children[childCount - 1].bottom;
    lastPosition < g.count || lastBottom > g.height - g.listPaddingBottom
  }

  /**
   * isInAbsoluteStart: the list has children, none comes before the first visible one,
   * and the first child starts at or below the top padding. The child is only looked at
   * when there is one.
   */
  function IsInAbsoluteStart(g: ListGeometry): (r: bool)
    ensures r <==> |g.children| > 0 && g.firstVisiblePosition <= 0 && g.children[0].top >= g.listPaddingTop
    ensures |g.children| > 0 ==> (r <==> !CanScrollListUp(g))
  {
    |g.children| > 0 && !CanScrollListUp(g)
  }

  /**
   * isInAbsoluteEnd: the list has children, the visible ones reach the last item, and the
   * last child ends at or above the bottom padding.
   */
  function IsInAbsoluteEnd(g: ListGeometry): (r: bool)
    ensures r <==> |g.children| > 0 && g.firstVisiblePosition + |g.children| >= g.count &&
                   g.children[|g.children| - 1].bottom <= g.height - g.listPaddingBottom
    ensures |g.children| > 0 ==> (r <==> !CanScrollListDown(g))
  {
    |g.children| > 0 && !CanScrollListDown(g)
  }

  /** A list with no children is at neither edge, so it never starts an over-scroll. */
  lemma EmptyListIsAtNeitherEdge(g: ListGeometry)
    requires |g.children| == 0
    ensures !IsInAbsoluteStart(g) && !IsInAbsoluteEnd(g)
  {
  }

  /** A list that shows all its items within its padding is at both edges at once. */
  lemma FullyVisibleListIsAtBothEdges(g: ListGeometry)
    requires |g.children| > 0 && g.firstVisiblePosition == 0 && g.count == |g.children|
    requires g.children[0].top >= g.listPaddingTop
    requires g.children[|g.children| - 1].bottom <= g.height - g.listPaddingBottom
    ensures IsInAbsoluteStart(g) && IsInAbsoluteEnd(g)
  {
  }

  /** While the first item is scrolled out of the list, the list is never at its start. */
  lemma ScrolledListIsNotAtStart(g: ListGeometry)
    requires g.firstVisiblePosition > 0
    ensures !IsInAbsoluteStart(g)
  {
  }
}
