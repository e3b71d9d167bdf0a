/**
 * Properties of the Java revision that relate several of its operations:
 * the release rules, that a panel at rest keeps its state on release, the
 * distance the gesture listener compares with its threshold, and which
 * views a non-animated open or close moves.
 */
module JavaProperties {
  import opened Geometry
  import opened Platform
  import opened DragRules
  import opened JavaRevision

  /**
   * The release rules for a known edge: a fling to the right opens a
   * left-edge panel and closes a right-edge one, a fling to the left does
   * the opposite, and without a fling the main view's position against the
   * pivot decides.
   */
  lemma ReleaseRules(edge: int, xvelDp: int, minFling: int, main: Rect, pivot: int)
    requires KnownEdge(edge)
    ensures var d := ReleaseDecision(edge, xvelDp, minFling, main, pivot).value;
      var velRight := VelRightExceeded(xvelDp, minFling);
      var velLeft := VelLeftExceeded(xvelDp, minFling);
      (velRight ==> (d == OpenPanel <==> edge == DRAG_EDGE_LEFT)) &&
      (!velRight && velLeft ==> (d == OpenPanel <==> edge == DRAG_EDGE_RIGHT)) &&
      (!velRight && !velLeft ==>
         (d == OpenPanel <==> if edge == DRAG_EDGE_RIGHT then main.right < pivot else main.left >= pivot))
  {
  }

  /**
   * A release without a fling leaves a panel at rest where it is: a fully
   * open one stays open, and a closed one stays closed once the right view
   * is wide enough for the halfway point to differ from the closed position
   * (two pixels for the left edge, one for the right edge).
   */
  lemma ReleaseKeepsRestingState(edge: int, mainClose: Rect, views: Views, xvelDp: int, minFling: int, main: Rect)
    requires KnownEdge(edge) && views.right.Some?
    requires !VelRightExceeded(xvelDp, minFling) && !VelLeftExceeded(xvelDp, minFling)
    ensures HalfwayPivot(edge, mainClose, views).Ok?
    ensures var w := views.right.value.Width();
      var d := ReleaseDecision(edge, xvelDp, minFling, main, HalfwayPivot(edge, mainClose, views).value);
      (edge == DRAG_EDGE_LEFT && w >= 0 && main.left == mainClose.left + w ==> d == Some(OpenPanel)) &&
      (edge == DRAG_EDGE_LEFT && w >= 2 && main.left == mainClose.left ==> d == Some(ClosePanel)) &&
      (edge == DRAG_EDGE_RIGHT && w >= 1 && main.right == mainClose.right - w ==> d == Some(OpenPanel)) &&
      (edge == DRAG_EDGE_RIGHT && w >= 0 && main.right == mainClose.right ==> d == Some(ClosePanel))
  {
    ReleaseRules(edge, xvelDp, minFling, main, HalfwayPivot(edge, mainClose, views).value);
  }

  /** Clamping a clamped position changes nothing. */
  lemma ClampIdempotent(edge: int, mainClose: Rect, views: Views, childLeft: int, left: int)
    requires Clamp(edge, mainClose, views, childLeft, left).Ok?
    ensures var c := Clamp(edge, mainClose, views, childLeft, left).value;
      Clamp(edge, mainClose, views, childLeft, c) == Ok(c)
  {
  }

  /**
   * At every position the clamp allows, with the main view keeping its
   * closed width, the distance `onScroll` compares with the threshold is
   * between 0 and half the right view's width, and 0 at either end of the
   * travel.
   */
  lemma DistanceAtClampedPosition(edge: int, mainClose: Rect, views: Views)
    requires KnownEdge(edge) && views.main.Some? && views.right.Some?
    requires views.main.value.Width() == mainClose.Width() && views.right.value.Width() >= 0
    requires var openLeft := MainOpenLeft(edge, mainClose, views).value;
      Min(mainClose.left, openLeft) <= views.main.value.left <= Max(mainClose.left, openLeft)
    ensures DistToClosestEdge(edge, mainClose, views).Ok?
    ensures var d := DistToClosestEdge(edge, mainClose, views).value;
      var openLeft := MainOpenLeft(edge, mainClose, views).value;
      0 <= d && 2 * d <= views.right.value.Width() &&
      (views.main.value.left == mainClose.left || views.main.value.left == openLeft ==> d == 0)
  {
    var main := views.main.value;
    var w := views.right.value.Width();
    if edge == DRAG_EDGE_RIGHT {
      assert mainClose.right - w <= main.right <= mainClose.right;
    }
  }

  /**
   * After `onLayout` completes, the main view sits at the open rectangle
   * exactly when the layout was open before, and at the closed one
   * otherwise; the right view sits at its closed rectangle either way,
   * since it opens where it is.
   */
  lemma LayoutRestoresPosition(laid: seq<View>, slots: Slots, open: bool, rects: Rects)
    requires SlotsWithin(slots, |laid|) && SlotsDistinct(slots)
    requires rects.rightOpen == rects.rightClose
    ensures var r := if open then Apply(laid, slots, rects.mainOpen, rects.rightOpen)
                     else Apply(laid, slots, rects.mainClose, rects.rightClose);
      var views := ViewsOf(r, slots);
      (slots.main.Some? ==> views.main == Some(if open then rects.mainOpen else rects.mainClose)) &&
      (slots.right.Some? ==> views.right == Some(rects.rightClose)) &&
      |r| == |laid|
  {
  }
}
