/**
 * The scroll-container locator (content_script.js, findChatContainer).
 *
 * The page is abstracted to what the locator reads: whether a `main`
 * element exists and, for each element below it in document order, its
 * computed `overflow-y`, its `scrollHeight` and `clientHeight`, and whether
 * it is, or lies inside, a `figure` or an element with
 * `role="group"` (`closest` also tests the element itself).
 */
module ChatContainer {
  import opened Options

  /** The computed `overflow-y` of an element. */
  datatype Overflow = Visible | Hidden | Clip | Scroll | Auto

  /** One descendant of `main`, as the locator sees it. */
  datatype Element = Element(
    overflowY: Overflow,
    scrollHeight: int,
    clientHeight: int,
    insideFigure: bool,  // el.closest('figure') finds an element
    insideGroup: bool)   // el.closest('[role="group"]') finds an element

  /** The element the overlay is attached to. `Scroller(k)` is the k-th descendant of `main`. */
  datatype Container = Body | Main | Scroller(index: nat)

  /** Scrollers of at most this visible height are small widgets, not the chat. */
  const MinClientHeight := 300

  /** The five filter conditions of a candidate scroller. */
  predicate Qualifies(e: Element) {
    (e.overflowY == Auto || e.overflowY == Scroll)
    && e.scrollHeight > e.clientHeight
    && e.clientHeight > MinClientHeight
    && !e.insideFigure
    && !e.insideGroup
  }

  /**
   * `k` is the first element of a stable descending sort by `clientHeight`
   * of the qualifying elements: it qualifies, no qualifying element is
   * taller, and every qualifying element before it is strictly shorter.
   */
  ghost predicate IsChosen(els: seq<Element>, k: nat) {
    k < |els| && Qualifies(els[k])
    && (forall j :: 0 <= j < |els| && Qualifies(els[j]) ==> els[j].clientHeight <= els[k].clientHeight)
    && (forall j :: 0 <= j < k && Qualifies(els[j]) ==> els[j].clientHeight < els[k].clientHeight)
  }

  /** The tallest qualifying element of `els[from..]`, the earliest of equally tall ones. */
  function TallestFrom(els: seq<Element>, from: nat): (r: Option<nat>)
    requires from <= |els|
    ensures r.None? <==> forall j :: from <= j < |els| ==> !Qualifies(els[j])
    ensures r.Some? ==> from <= r.value < |els| && Qualifies(els[r.value])
    ensures r.Some? ==> forall j :: from <= j < |els| && Qualifies(els[j]) ==>
                          els[j].clientHeight <= els[r.value].clientHeight
    ensures r.Some? ==> forall j :: from <= j < r.value && Qualifies(els[j]) ==>
                          els[j].clientHeight < els[r.value].clientHeight
    decreases |els| - from
  {
    if from == |els| then None
    else
      var rest := TallestFrom(els, from + 1);
      if !Qualifies(els[from]) then rest
      else if rest.Some? && els[rest.value].clientHeight > els[from].clientHeight then rest
      else Some(from)
  }

  /**
   * findChatContainer: `Body` when the page has no `main`; `Main` when no
   * descendant of `main` qualifies; otherwise the tallest qualifying
   * descendant.
   */
  function FindChatContainer(main: Option<seq<Element>>): (c: Container)
    ensures c == Body <==> main.None?
    ensures c == Main <==> main.Some? && forall j :: 0 <= j < |main.value| ==> !Qualifies(main.value[j])
    ensures c.Scroller? ==> main.Some? && IsChosen(main.value, c.index)
  {
    match main
    case None => Body
    case Some(els) =>
      match TallestFrom(els, 0)
      case Some(k) => Scroller(k)
      case None => Main
  }
}
