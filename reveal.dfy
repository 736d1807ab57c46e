/** Progressive reveal shared by the projects and the experience sections:
    `showAll ? items : items.slice(0, limit)`, with a toggle button that is
    rendered only while more than `limit` items exist. */
module Reveal {

  function Min(a: nat, b: nat): nat {
    if a <= b then a else b
  }

  /** The items on screen: all of them when `showAll`, otherwise the first
      `limit` (JavaScript's `slice` clamps an end past the length). */
  function Shown<T>(items: seq<T>, limit: nat, showAll: bool): (r: seq<T>)
    ensures r <= items
    ensures |r| == if showAll then |items| else Min(limit, |items|)
  {
    if showAll then items else items[..Min(limit, |items|)]
  }

  /** The "View All" / "Show Less" button is rendered only when the list is longer than the limit. */
  predicate ToggleVisible<T>(items: seq<T>, limit: nat): (visible: bool)
    ensures visible <==> Shown(items, limit, false) != items
  {
    |items| > limit
  }

  /** Without the button the reveal flag makes no difference: everything is shown. */
  lemma HiddenToggleShowsAll<T>(items: seq<T>, limit: nat, showAll: bool)
    requires !ToggleVisible(items, limit)
    ensures Shown(items, limit, showAll) == items
  {
  }

  /** With the button present, the flag decides: truncated when unset, complete when set. */
  lemma VisibleToggleMatters<T>(items: seq<T>, limit: nat)
    requires ToggleVisible(items, limit)
    ensures Shown(items, limit, false) != Shown(items, limit, true)
    ensures |Shown(items, limit, false)| == limit
  {
  }
}
