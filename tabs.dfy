/**
 * The compound tabs of src/routes/compound/index.jsx: `Tabs` stores the
 * active index, each `Tab` sets it on click and is styled when it matches,
 * and `TabPanels` shows `children[activeTab]`.
 */
module Tabs {
  import opened Wrappers

  /** `index === activeTab`: whether a tab gets the active styling. */
  predicate IsActive(index: int, activeTab: int): (r: bool)
    ensures r <==> index == activeTab
  {
    index == activeTab
  }

  /** `children[activeTab]`: undefined for an index outside the panels. */
  function Panel<T>(children: seq<T>, activeTab: int): (r: Option<T>)
    ensures r.Some? <==> 0 <= activeTab < |children|
    ensures r.Some? ==> r.value == children[activeTab]
  {
    if 0 <= activeTab < |children| then Some(children[activeTab]) else None
  }

  /** The positions, among tabs with the given indices, of the tabs styled active. */
  function ActivePositions(indices: seq<int>, activeTab: int): set<nat>
  {
    set p: nat | p < |indices| && IsActive(indices[p], activeTab)
  }

  /** Tabs with distinct indices: at most one of them is active, since only one index is stored. */
  lemma AtMostOneActive(indices: seq<int>, activeTab: int)
    requires forall p, q :: 0 <= p < q < |indices| ==> indices[p] != indices[q]
    ensures |ActivePositions(indices, activeTab)| <= 1
  {
    var s := ActivePositions(indices, activeTab);
    if s != {} {
      var p :| p in s;
      assert s == {p};
    }
  }

  class Tabs {
    var activeTab: int

    /** `useState(0)`. */
    constructor ()
      ensures activeTab == 0
    {
      activeTab := 0;
    }

    /** The click handler of the `Tab` with `index`. */
    method Click(index: int)
      modifies this
      ensures activeTab == index
    {
      activeTab := index;
    }
  }

  /** A click on tab 2 of three makes tab 2 the only active one and shows the third panel; clicking it again changes nothing. */
  method ClickScenario()
  {
    var t := new Tabs();
    assert Panel(["one", "two", "three"], t.activeTab) == Some("one");
    t.Click(2);
    t.Click(2);
    assert IsActive(2, t.activeTab) && !IsActive(0, t.activeTab) && !IsActive(1, t.activeTab);
    assert Panel(["one", "two", "three"], t.activeTab) == Some("three");
    t.Click(3);
    assert Panel(["one", "two", "three"], t.activeTab) == None;
  }
}
