/** The fragment expand button (message-container.tsx and MessageItem.tsx): the expanded
    index becomes `null` when the clicked index is the expanded one, else that index. */
module ExpandToggle {
  import opened Wrappers

  function Toggle(expanded: Option<nat>, index: nat): (r: Option<nat>)
    ensures r.None? <==> expanded == Some(index)
    ensures r.Some? ==> r.value == index
  {
    if expanded == Some(index) then None else Some(index)
  }

  /** Clicking the same button twice restores the state exactly when nothing or that
      fragment was expanded; when another fragment was expanded, it ends collapsed. */
  lemma ToggleTwice(expanded: Option<nat>, index: nat)
    ensures Toggle(Toggle(expanded, index), index) == expanded <==> expanded.None? || expanded == Some(index)
    ensures Toggle(Toggle(expanded, index), index) == None <==> expanded != Some(index)
  {
  }
}
