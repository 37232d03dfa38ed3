/**
 * Panels sorted by their `order` field with the comparator `a.order - b.order`,
 * as the panel manager, the dashboard categories and the recipe form's folder
 * list all do.
 */
module PanelOrder {
  import opened Wire
  import opened Domain
  import opened Sorting

  /**
   * The sort key of a panel. A `NaN` order makes the comparator inconsistent,
   * so any order is then allowed; the model sorts such panels as if their order were 0.
   */
  function OrderKey(p: Panel): int
  {
    if p.order.Int? then p.order.i else 0
  }

  /** `a` goes strictly before `b`: the comparator is negative. */
  function Before(a: Panel, b: Panel): bool
  {
    OrderKey(a) < OrderKey(b)
  }

  /** `[...panels].sort((a, b) => a.order - b.order)`: a new sequence, the input is untouched. */
  function SortPanels(panels: seq<Panel>): (sorted: seq<Panel>)
    ensures |sorted| == |panels|
    ensures multiset(sorted) == multiset(panels)
  {
    SortBy(panels, Before)
  }

  /** The sorted panels are the same panels, ascending by order. */
  lemma SortPanelsAscending(panels: seq<Panel>)
    ensures multiset(SortPanels(panels)) == multiset(panels)
    ensures forall i, j :: 0 <= i < j < |SortPanels(panels)| ==>
      OrderKey(SortPanels(panels)[i]) <= OrderKey(SortPanels(panels)[j])
  {
    assert StrictOrder(Before);
    SortBySorted(panels, Before);
  }

  /** Panels already in order are kept exactly as they are, ties included. */
  lemma SortPanelsKeepsOrdered(panels: seq<Panel>)
    requires forall i, j :: 0 <= i < j < |panels| ==> OrderKey(panels[i]) <= OrderKey(panels[j])
    ensures SortPanels(panels) == panels
  {
    SortByOfSorted(panels, Before);
  }
}
