/**
 * Drag and touch rules that both revisions share: where the dragged main view
 * may go, how far it is from an edge, which way a release snaps, and how
 * a gesture is told apart from a click.
 */
module DragRules {
  import opened Geometry
  import opened Platform

  // ---------------------------------------------------------------- clamping

  /**
   * Clamp for a panel revealed by dragging right to left: the main view's
   * left stays between the open position `closeLeft - width` and the closed
   * position `closeLeft`.
   */
  function ClampForRightEdge(left: int, closeLeft: int, width: int): (r: int)
    ensures r >= closeLeft - width
    ensures width >= 0 ==> r <= closeLeft
    ensures closeLeft - width <= left <= closeLeft ==> r == left
    ensures width >= 0 && left < closeLeft - width ==> r == closeLeft - width
    ensures width >= 0 && left > closeLeft ==> r == closeLeft
  {
    Max(Min(left, closeLeft), closeLeft - width)
  }

  /**
   * Clamp for a panel revealed by dragging left to right: the main view's
   * left stays between the closed position `closeLeft` and the open position
   * `closeLeft + width`.
   */
  function ClampForLeftEdge(left: int, closeLeft: int, width: int): (r: int)
    ensures r >= closeLeft
    ensures width >= 0 ==> r <= closeLeft + width
    ensures closeLeft <= left <= closeLeft + width ==> r == left
    ensures width >= 0 && left < closeLeft ==> r == closeLeft
    ensures width >= 0 && left > closeLeft + width ==> r == closeLeft + width
  {
    Max(Min(left, closeLeft + width), closeLeft)
  }

  // ------------------------------------------------------ distance to edges

  /**
   * How far the main view's right edge is from the nearer of its closed
   * position and its fully open position `mainClose.right - width`.
   */
  function DistForRightEdge(mainClose: Rect, main: Rect, width: int): (d: int)
    ensures mainClose.right - width <= main.right <= mainClose.right ==> 0 <= d && 2 * d <= width
    ensures width >= 0 && (main.right == mainClose.right || main.right == mainClose.right - width) ==> d == 0
    ensures d <= mainClose.right - main.right
    ensures d <= main.right - (mainClose.right - width)
    ensures d == mainClose.right - main.right || d == main.right - (mainClose.right - width)
  {
    var pivotLeft := mainClose.right - width;
    Min(main.right - pivotLeft, mainClose.right - main.right)
  }

  /**
   * How far the main view's left edge is from the nearer of its closed
   * position and its fully open position `mainClose.left + width`.
   */
  function DistForLeftEdge(mainClose: Rect, main: Rect, width: int): (d: int)
    ensures mainClose.left <= main.left <= mainClose.left + width ==> 0 <= d && 2 * d <= width
    ensures width >= 0 && (main.left == mainClose.left || main.left == mainClose.left + width) ==> d == 0
    ensures d <= main.left - mainClose.left
    ensures d <= mainClose.left + width - main.left
    ensures d == main.left - mainClose.left || d == mainClose.left + width - main.left
  {
    var pivotRight := mainClose.left + width;
    Min(main.left - mainClose.left, pivotRight - main.left)
  }

  // ------------------------------------------------------------------ pivots

  /**
   * The halfway pivot for a panel revealed right to left: the midpoint of the
   * main view's right edge travel, rounded toward the closed side.
   */
  function PivotForRightEdge(mainClose: Rect, width: int): (p: int)
    ensures width >= 0 ==> mainClose.right - width <= p <= mainClose.right
    ensures width >= 0 ==> 0 <= 2 * p - (2 * mainClose.right - width) <= 1
  {
    mainClose.right - Half(width)
  }

  // ----------------------------------------------------------------- release

  /** `xvel` in dp per second reached the fling threshold to the right. */
  predicate VelRightExceeded(xvelDp: int, minFlingVelocity: int)
  {
    xvelDp >= minFlingVelocity
  }

  /** `xvel` in dp per second reached the fling threshold to the left. */
  predicate VelLeftExceeded(xvelDp: int, minFlingVelocity: int)
  {
    xvelDp <= -minFlingVelocity
  }

  /** `onViewReleasedForLeftEdge`: what a release does when the panel opens left to right. */
  function ReleaseForLeftEdge(velRight: bool, velLeft: bool, mainLeft: int, pivot: int): (d: Decision)
    ensures d == OpenPanel <==> velRight || (!velLeft && mainLeft >= pivot)
  {
    if velRight then OpenPanel
    else if velLeft then ClosePanel
    else if mainLeft < pivot then ClosePanel
    else OpenPanel
  }

  /** `onViewReleasedForRightEdge`: what a release does when the panel opens right to left. */
  function ReleaseForRightEdge(velRight: bool, velLeft: bool, mainRight: int, pivot: int): (d: Decision)
    ensures d == OpenPanel <==> !velRight && (velLeft || mainRight < pivot)
  {
    if velRight then ClosePanel
    else if velLeft then OpenPanel
    else if mainRight < pivot then OpenPanel
    else ClosePanel
  }

  /** Whether `onEdgeDragStarted` captures the main view for an edge touch. */
  function EdgeDragCaptures(locked: bool, edge: int, edgeFlags: int): (c: bool)
    ensures c ==> !locked
    ensures c ==> (edge == DRAG_EDGE_RIGHT && edgeFlags == EDGE_LEFT) || (edge == DRAG_EDGE_LEFT && edgeFlags == EDGE_RIGHT)
    ensures !locked && edge == DRAG_EDGE_RIGHT && edgeFlags == EDGE_LEFT ==> c
    ensures !locked && edge == DRAG_EDGE_LEFT && edgeFlags == EDGE_RIGHT ==> c
  {
    if locked then false
    else
      var edgeStartLeft := edge == DRAG_EDGE_RIGHT && edgeFlags == EDGE_LEFT;
      var edgeStartRight := edge == DRAG_EDGE_LEFT && edgeFlags == EDGE_RIGHT;
      edgeStartLeft || edgeStartRight
  }

  // ------------------------------------------------------------ touch events

  /** `accumulateDragDist`: a down event restarts the distance, any other adds the step since `prevX`. */
  function AccumulateStep(dragDist: int, prevX: int, ev: TouchEvent): (d: int)
    ensures ev.action == Down ==> d == 0
    ensures ev.action != Down ==> d - dragDist == ev.x - prevX
  {
    if ev.action == Down then 0 else dragDist + (ev.x - prevX)
  }

  /** `couldBecomeClick`: the touch is on the main view and has not moved by the touch slop. */
  function CouldBecomeClick(main: Rect, ev: TouchEvent, dragDist: int, touchSlop: int): (c: bool)
    ensures c <==> main.left <= ev.x <= main.right && main.top <= ev.y <= main.bottom &&
                   -touchSlop < dragDist < touchSlop
  {
    Contains(main, ev.x, ev.y) && !(Abs(dragDist) >= touchSlop)
  }

  /** The value `onInterceptTouchEvent` returns once it has updated the drag distance. */
  function InterceptDecision(couldBecomeClick: bool, state: DragState, isScrolling: bool): (r: bool)
    ensures couldBecomeClick ==> !r
    ensures state == Dragging ==> !r
    ensures state == Idle && !isScrolling ==> !r
    ensures !couldBecomeClick && state == Settling ==> r
    ensures !couldBecomeClick && state == Idle && isScrolling ==> r
  {
    var settling := state == Settling;
    var idleAfterScrolled := state == Idle && isScrolling;
    !couldBecomeClick && (settling || idleAfterScrolled)
  }

  /** The drag distance and last x that successive intercepted events leave behind. */
  datatype Tracking = Tracking(dragDist: int, prevX: int)

  /**
   * Runs the `accumulateDragDist` / `prevX := ev.x` pair of
   * `onInterceptTouchEvent` over a sequence of events.
   */
  function Track(t: Tracking, evs: seq<TouchEvent>): Tracking
    decreases |evs|
  {
    if evs == [] then t
    else Track(Tracking(AccumulateStep(t.dragDist, t.prevX, evs[0]), evs[0].x), evs[1..])
  }

  predicate NoDown(evs: seq<TouchEvent>)
  {
    forall i :: 0 <= i < |evs| ==> evs[i].action != Down
  }

  /** Without a down event, the distance grows by exactly how far x moved since `prevX`. */
  lemma {:induction false} TrackWithoutDown(t: Tracking, evs: seq<TouchEvent>)
    requires evs != [] && NoDown(evs)
    ensures Track(t, evs).prevX == evs[|evs| - 1].x
    ensures Track(t, evs).dragDist == t.dragDist + evs[|evs| - 1].x - t.prevX
    decreases |evs|
  {
    var t' := Tracking(AccumulateStep(t.dragDist, t.prevX, evs[0]), evs[0].x);
    if |evs| > 1 {
      assert NoDown(evs[1..]) by {
        forall i | 0 <= i < |evs[1..]| ensures evs[1..][i].action != Down {
          assert evs[1..][i] == evs[i + 1];
        }
      }
      TrackWithoutDown(t', evs[1..]);
      assert evs[1..][|evs[1..]| - 1] == evs[|evs| - 1];
    } else {
      assert Track(t', evs[1..]) == t';
    }
  }

  /**
   * Across the events of one gesture — a down event followed by events that
   * are not — the drag distance is the latest x minus the x of the down event.
   */
  lemma {:induction false} DragDistanceSinceDown(t: Tracking, down: TouchEvent, rest: seq<TouchEvent>)
    requires down.action == Down && NoDown(rest)
    ensures var e := Track(t, [down] + rest);
      e.dragDist == e.prevX - down.x && e.prevX == (if rest == [] then down.x else rest[|rest| - 1].x)
  {
    var evs := [down] + rest;
    assert evs[0] == down && evs[1..] == rest;
    var t' := Tracking(0, down.x);
    assert Track(t, evs) == Track(t', rest);
    if rest != [] {
      TrackWithoutDown(t', rest);
    }
  }
}
