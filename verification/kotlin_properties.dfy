/**
 * Properties of the Kotlin revision that relate several of its operations:
 * the release rules, where the left-to-right pivot puts the snap point,
 * the distance the gesture listener compares with its threshold, and which
 * views a non-animated open or close moves.
 */
module KotlinProperties {
  import opened Geometry
  import opened Platform
  import opened DragRules
  import opened KotlinRevision

  /**
   * The `when` labels: dragging from both edges is the value 3, the left
   * view's guard compares the edge with 0, and only the right and both-edges
   * values carry the right bit.
   */
  lemma EdgeConstants()
    ensures DRAG_EDGE_BOTH == 3 && LEFT_VIEW_GUARD == 0
    ensures !HasRightBit(DRAG_EDGE_LEFT) && HasRightBit(DRAG_EDGE_RIGHT) && HasRightBit(DRAG_EDGE_BOTH)
    ensures !HasRightBit(LEFT_VIEW_GUARD)
    ensures !KnownEdge(LEFT_VIEW_GUARD)
  {
  }

  /**
   * The release rules for a known edge: a fling to the right opens a panel
   * revealed left to right and closes one revealed right to left, a fling to
   * the left does the opposite, and without a fling the main view's position
   * against the pivot decides.
   */
  lemma ReleaseRules(edge: int, dragDist: int, xvelDp: int, minFling: int, main: Rect, pivot: int)
    requires KnownEdge(edge)
    ensures var d := ReleaseDecision(edge, dragDist, xvelDp, minFling, main, pivot).value;
      var rtl := OpensRightToLeft(edge, dragDist);
      var velRight := VelRightExceeded(xvelDp, minFling);
      var velLeft := VelLeftExceeded(xvelDp, minFling);
      (velRight ==> (d == OpenPanel <==> !rtl)) &&
      (!velRight && velLeft ==> (d == OpenPanel <==> rtl)) &&
      (!velRight && !velLeft ==> (d == OpenPanel <==> if rtl then main.right < pivot else main.left >= pivot))
  {
  }

  /**
   * A panel revealed right to left stays where it rests when released
   * without a fling: closed stays closed, and fully open stays open once the
   * revealed view is at least one pixel wide.
   */
  lemma RightToLeftReleaseKeepsRestingState(edge: int, mainClose: Rect, views: Views, dragDist: int,
                                            xvelDp: int, minFling: int, main: Rect)
    requires OpensRightToLeft(edge, dragDist) && views.right.Some?
    requires !VelRightExceeded(xvelDp, minFling) && !VelLeftExceeded(xvelDp, minFling)
    ensures HalfwayPivot(edge, mainClose, views, dragDist).Ok?
    ensures var pivot := HalfwayPivot(edge, mainClose, views, dragDist).value;
      var d := ReleaseDecision(edge, dragDist, xvelDp, minFling, main, pivot);
      var w := views.right.value.Width();
      (main.right == mainClose.right && w >= 0 ==> d == Some(ClosePanel)) &&
      (main.right == mainClose.right - w && w >= 1 ==> d == Some(OpenPanel))
  {
    assert PivotSlot(edge, dragDist) == RightView && PivotFromRightEdge(edge, dragDist);
    assert KnownEdge(edge);
    ReleaseRules(edge, dragDist, xvelDp, minFling, main, HalfwayPivot(edge, mainClose, views, dragDist).value);
  }

  /**
   * The left-to-right pivot is measured from the closed main view's right
   * edge, so a release without a fling opens only when the main view's left
   * has passed that point. Whenever the main view is wider than the
   * revealed width minus `width / 2`, that point is beyond the main view's
   * travel: every clamped position closes, the fully open one included.
   */
  lemma LeftToRightReleaseQuirk(edge: int, mainClose: Rect, views: Views, dragDist: int,
                                                    xvelDp: int, minFling: int, main: Rect)
    requires edge == DRAG_EDGE_LEFT || (edge == DRAG_EDGE_BOTH && !DraggingFromRightToLeft(dragDist))
    requires ViewIn(views, RevealedSlot(edge, dragDist)).Some?
    requires !VelRightExceeded(xvelDp, minFling) && !VelLeftExceeded(xvelDp, minFling)
    ensures HalfwayPivot(edge, mainClose, views, dragDist).Ok?
    ensures var w := ViewIn(views, RevealedSlot(edge, dragDist)).value.Width();
      var pivot := HalfwayPivot(edge, mainClose, views, dragDist).value;
      var d := ReleaseDecision(edge, dragDist, xvelDp, minFling, main, pivot);
      (d == Some(OpenPanel) <==> main.left >= mainClose.right + Half(w)) &&
      (w >= 0 && w - Half(w) < mainClose.Width() && main.left <= mainClose.left + w ==> d == Some(ClosePanel)) &&
      (w >= 0 && main.left == mainClose.left + w ==> (d == Some(OpenPanel) <==> w - Half(w) >= mainClose.Width()))
  {
    EdgeConstants();
    assert PivotSlot(edge, dragDist) == RevealedSlot(edge, dragDist);
    assert !PivotFromRightEdge(edge, dragDist);
    var w := ViewIn(views, RevealedSlot(edge, dragDist)).value.Width();
    var pivot := HalfwayPivot(edge, mainClose, views, dragDist).value;
    assert pivot == mainClose.right + Half(w);
    ReleaseRules(edge, dragDist, xvelDp, minFling, main, pivot);
    assert !OpensRightToLeft(edge, dragDist);
  }

  /** Clamping a clamped position changes nothing. */
  lemma ClampIdempotent(edge: int, mainClose: Rect, views: Views, dragDist: int, childLeft: int, left: int)
    requires Clamp(edge, mainClose, views, dragDist, childLeft, left).Ok?
    ensures var c := Clamp(edge, mainClose, views, dragDist, childLeft, left).value;
      Clamp(edge, mainClose, views, dragDist, childLeft, c) == Ok(c)
  {
  }

  /**
   * At every position the clamp allows, with the main view keeping its
   * closed width, the distance `onScroll` compares with the threshold is
   * between 0 and half the revealed view's width, and 0 at either end of the
   * travel. A left-edge layout always reports 0.
   */
  lemma DistanceAtClampedPosition(edge: int, mainClose: Rect, views: Views, dragDist: int)
    requires KnownEdge(edge) && views.main.Some?
    requires ViewIn(views, RevealedSlot(edge, dragDist)).Some?
    requires views.main.value.Width() == mainClose.Width()
    requires ViewIn(views, RevealedSlot(edge, dragDist)).value.Width() >= 0
    requires var openLeft := MainOpenLeft(edge, mainClose, views, dragDist).value;
      Min(mainClose.left, openLeft) <= views.main.value.left <= Max(mainClose.left, openLeft)
    ensures DistToClosestEdge(edge, mainClose, views, dragDist).Ok?
    ensures var d := DistToClosestEdge(edge, mainClose, views, dragDist).value;
      var w := ViewIn(views, RevealedSlot(edge, dragDist)).value.Width();
      var openLeft := MainOpenLeft(edge, mainClose, views, dragDist).value;
      0 <= d && 2 * d <= w &&
      (views.main.value.left == mainClose.left || views.main.value.left == openLeft ==> d == 0) &&
      (edge == DRAG_EDGE_LEFT ==> d == 0)
  {
    var main := views.main.value;
    var w := ViewIn(views, RevealedSlot(edge, dragDist)).value.Width();
    if OpensRightToLeft(edge, dragDist) {
      assert RevealedSlot(edge, dragDist) == RightView;
      assert mainClose.right - w <= main.right <= mainClose.right;
    } else if edge == DRAG_EDGE_BOTH {
      assert RevealedSlot(edge, dragDist) == LeftView;
      assert mainClose.left <= main.left <= mainClose.left + w;
    }
  }

  /**
   * For every edge the layout has a branch for, the left view is never
   * positioned: a non-animated `open`/`close` leaves the child in the left
   * slot as it was, and `initRects` leaves the left view's rectangles.
   */
  lemma KnownEdgeNeverMovesLeftView(cs: seq<View>, slots: Slots, edge: int, main: Rect,
                                                       right: Rect, left: Rect)
    requires KnownEdge(edge) && SlotsWithin(slots, |cs|) && SlotsDistinct(slots) && slots.left.Some?
    ensures Apply(cs, slots, edge, main, right, left)[slots.left.value] == cs[slots.left.value]
  {
    EdgeConstants();
  }

  lemma KnownEdgeKeepsLeftRects(edge: int, views: Views, dragDist: int, prev: Rects)
    requires KnownEdge(edge) && RectsAfterInit(edge, views, dragDist, prev).Ok?
    ensures var r := RectsAfterInit(edge, views, dragDist, prev).value;
      r.leftClose == prev.leftClose && r.leftOpen == prev.leftOpen
  {
    EdgeConstants();
  }

  /**
   * After `onLayout` completes, the main view sits at the open rectangle
   * exactly when the layout was open before, and at the closed one
   * otherwise; for a known edge the left view stays where the layout loop
   * put it.
   */
  lemma LayoutRestoresPosition(laid: seq<View>, slots: Slots, edge: int, open: bool, rects: Rects)
    requires SlotsWithin(slots, |laid|) && SlotsDistinct(slots)
    ensures var r := if open then Apply(laid, slots, edge, rects.mainOpen, rects.rightOpen, rects.leftOpen)
                     else Apply(laid, slots, edge, rects.mainClose, rects.rightClose, rects.leftClose);
      var views := ViewsOf(r, slots);
      (slots.main.Some? ==> views.main == Some(if open then rects.mainOpen else rects.mainClose)) &&
      (KnownEdge(edge) ==> views.left == ViewsOf(laid, slots).left) &&
      |r| == |laid|
  {
    var main := if open then rects.mainOpen else rects.mainClose;
    var right := if open then rects.rightOpen else rects.rightClose;
    var left := if open then rects.leftOpen else rects.leftClose;
    if KnownEdge(edge) && slots.left.Some? {
      KnownEdgeNeverMovesLeftView(laid, slots, edge, main, right, left);
    }
  }

  /**
   * `draggingFromRightToLeft` read after the events of one gesture: the
   * finger is left of where it went down exactly when the accumulated
   * distance is negative.
   */
  lemma DraggingDirectionSinceDown(t: Tracking, down: TouchEvent, rest: seq<TouchEvent>)
    requires down.action == Down && NoDown(rest)
    ensures var lastX := if rest == [] then down.x else rest[|rest| - 1].x;
      DraggingFromRightToLeft(Track(t, [down] + rest).dragDist) <==> lastX < down.x
  {
    DragDistanceSinceDown(t, down, rest);
  }
}
