/**
  The trips bottom panel's detent state machine: two detents, a drag-end
  transition with a fixed threshold, the derived panel height and the
  derived map hit-testing gate.
 */
module SheetDetent {

  /** The two stopping positions of the panel. */
  datatype Detent = Collapsed | Large

  /** The panel starts collapsed. */
  const InitialDetent: Detent := Collapsed

  /** Distance (in points) a drag must exceed, strictly, to move the panel. */
  const DragThreshold: real := 80.0

  /** The collapsed panel is never shorter than this. */
  const MinCollapsedHeight: real := 70.0

  /**
    Next detent once a drag ends with vertical translation `translation`
    (negative means upwards). Only an upward drag past the threshold from
    `Collapsed`, or a downward drag past it from `Large`, moves the panel.
   */
  function AfterDrag(d: Detent, translation: real): (r: Detent)
    ensures d == Collapsed && translation < -DragThreshold ==> r == Large
    ensures d == Large && translation > DragThreshold ==> r == Collapsed
    ensures r != d <==> (d == Collapsed && translation < -DragThreshold) || (d == Large && translation > DragThreshold)
  {
    if translation < -DragThreshold && d == Collapsed then Large
    else if translation > DragThreshold && d == Large then Collapsed
    else d
  }

  /** The detent after a whole series of completed drags, oldest first. */
  function AfterDrags(d: Detent, translations: seq<real>): Detent
    decreases |translations|
  {
    if translations == [] then d
    else AfterDrags(AfterDrag(d, translations[0]), translations[1..])
  }

  /** Panel height for container height `availableHeight`. */
  function Height(d: Detent, availableHeight: real): (r: real)
    ensures d == Collapsed ==> r >= MinCollapsedHeight && r >= 0.12 * availableHeight
    ensures d == Collapsed ==> r == MinCollapsedHeight || r == 0.12 * availableHeight
    ensures d == Large ==> 4.0 * r == 3.0 * availableHeight
  {
    match d
    case Collapsed => if 70.0 >= availableHeight * 0.12 then 70.0 else availableHeight * 0.12
    case Large => availableHeight * 0.75
  }

  /** The map under the panel accepts touches unless the panel is large. */
  predicate MapAcceptsTouches(d: Detent)
  {
    d != Large
  }

  predicate IsCollapsed(d: Detent)
  {
    d == Collapsed
  }

  /** Threshold exactness: a drag of exactly the threshold does not move the panel. */
  lemma DragAtThresholdIsIgnored()
    ensures AfterDrag(Collapsed, -80.0) == Collapsed
    ensures AfterDrag(Large, 80.0) == Large
    ensures AfterDrag(Collapsed, -81.0) == Large
    ensures AfterDrag(Large, 81.0) == Collapsed
  {
  }

  /** Drags in the wrong direction for the current detent never move it. */
  lemma WrongDirectionIsIgnored(d: Detent, translation: real)
    requires (d == Collapsed && translation >= 0.0) || (d == Large && translation <= 0.0)
    ensures AfterDrag(d, translation) == d
  {
  }

  /** A drag that moved the panel is undone by the opposite drag. */
  lemma OppositeDragRestores(d: Detent, translation: real)
    requires AfterDrag(d, translation) != d
    ensures AfterDrag(AfterDrag(d, translation), -translation) == d
  {
  }

  /** Drags that stay within the threshold, in any number, leave the detent alone. */
  lemma {:induction false} SmallDragsAreIgnored(d: Detent, translations: seq<real>)
    requires forall i :: 0 <= i < |translations| ==> -DragThreshold <= translations[i] <= DragThreshold
    ensures AfterDrags(d, translations) == d
    decreases |translations|
  {
    if translations != [] {
      assert AfterDrag(d, translations[0]) == d;
      SmallDragsAreIgnored(d, translations[1..]);
    }
  }

  /** Collapsed height is at most the large height exactly when the container is at least 280/3 tall. */
  lemma CollapsedNotAboveLargeIff(availableHeight: real)
    ensures Height(Collapsed, availableHeight) <= Height(Large, availableHeight) <==> availableHeight >= 280.0 / 3.0
  {
  }

  /** In a 50-point container the collapsed panel is taller than the large one. */
  lemma CollapsedAboveLargeInShortContainer()
    ensures Height(Collapsed, 50.0) == 70.0
    ensures Height(Large, 50.0) == 37.5
    ensures Height(Collapsed, 50.0) > Height(Large, 50.0)
  {
  }

  /** Both heights grow with the container. */
  lemma HeightMonotone(d: Detent, h1: real, h2: real)
    requires h1 <= h2
    ensures Height(d, h1) <= Height(d, h2)
  {
  }
}
