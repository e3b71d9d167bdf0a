/**
 * The Java revision of the swipe-reveal layout: two children (the right
 * view and the main view on top), and a `dragFromEdge` of left or right.
 * Every getter reads the right view; the left view and its rectangles are
 * declared but never used.
 */
module JavaRevision {
  import opened Geometry
  import opened Platform
  import opened DragRules
  import opened LayoutRules

  /** The edge values the `switch` statements have a case for. */
  predicate KnownEdge(edge: int)
  {
    edge == DRAG_EDGE_LEFT || edge == DRAG_EDGE_RIGHT
  }

  /** The main view's horizontal offset from its closed to its open position. */
  function OpenOffset(edge: int, width: int): int
  {
    if edge == DRAG_EDGE_RIGHT then -width else width
  }

  /** The child indices `onFinishInflate` stores, by child count. */
  function InflatedSlots(count: nat): (s: Slots)
    ensures SlotsWithin(s, count) && SlotsDistinct(s)
    ensures s.main.Some? <==> count >= 1
    ensures s.main.Some? ==> s.main.value == (if count >= 2 then 1 else 0)
    ensures s.right.Some? <==> count >= 2
    ensures s.right.Some? ==> s.right.value == 0
    ensures s.left.None?
  {
    if count >= 2 then Slots(Some(1), Some(0), None)
    else if count == 1 then Slots(Some(0), None, None)
    else Slots(None, None, None)
  }

  // --------------------------------------------------------------- getters

  /** `getMainOpenLeft` once the right view's width has been read. */
  function OpenLeftWith(edge: int, mainClose: Rect, rightWidth: int): int
  {
    if edge == DRAG_EDGE_LEFT then mainClose.left + rightWidth
    else if edge == DRAG_EDGE_RIGHT then mainClose.left - rightWidth
    else 0
  }

  /** `getMainOpenLeft`: the right view is read only for a known edge. */
  function MainOpenLeft(edge: int, mainClose: Rect, views: Views): (r: Result<int>)
    ensures !KnownEdge(edge) ==> r == Ok(0)
    ensures KnownEdge(edge) ==> (r.Ok? <==> views.right.Some?)
    ensures KnownEdge(edge) && r.Ok? ==> r.value == mainClose.left + OpenOffset(edge, views.right.value.Width())
  {
    if KnownEdge(edge) then
      var right :- Need(views.right, RightView);
      Ok(OpenLeftWith(edge, mainClose, right.Width()))
    else
      Ok(0)
  }

  /** `getMainOpenTop`. */
  function MainOpenTop(edge: int, mainClose: Rect): (t: int)
    ensures KnownEdge(edge) ==> t == mainClose.top
    ensures !KnownEdge(edge) ==> t == 0
  {
    if KnownEdge(edge) then mainClose.top else 0
  }

  /**
   * `getDistToClosestEdge`: the distance from the nearer end of the main
   * view's travel, 0 for an unknown edge.
   */
  function DistToClosestEdge(edge: int, mainClose: Rect, views: Views): (r: Result<int>)
    ensures !KnownEdge(edge) ==> r == Ok(0)
    ensures KnownEdge(edge) ==> (r.Ok? <==> views.main.Some? && views.right.Some?)
    ensures edge == DRAG_EDGE_LEFT && r.Ok? ==>
      r.value == DistForLeftEdge(mainClose, views.main.value, views.right.value.Width())
    ensures edge == DRAG_EDGE_RIGHT && r.Ok? ==>
      r.value == DistForRightEdge(mainClose, views.main.value, views.right.value.Width())
  {
    if edge == DRAG_EDGE_LEFT then
      var right :- Need(views.right, RightView);
      var main :- Need(views.main, MainView);
      Ok(DistForLeftEdge(mainClose, main, right.Width()))
    else if edge == DRAG_EDGE_RIGHT then
      var right :- Need(views.right, RightView);
      var main :- Need(views.main, MainView);
      Ok(DistForRightEdge(mainClose, main, right.Width()))
    else
      Ok(0)
  }

  /**
   * The left-edge halfway pivot: the midpoint of the main view's left edge
   * travel, rounded toward the closed side.
   */
  function PivotForLeftEdge(mainClose: Rect, width: int): (p: int)
    ensures width >= 0 ==> mainClose.left <= p <= mainClose.left + width
    ensures width >= 0 ==> 0 <= (2 * mainClose.left + width) - 2 * p <= 1
  {
    mainClose.left + Half(width)
  }

  /** `getHalfwayPivotHorizontal`: every edge but the left one takes the right-edge formula. */
  function HalfwayPivot(edge: int, mainClose: Rect, views: Views): (r: Result<int>)
    ensures r.Ok? <==> views.right.Some?
    ensures r.Ok? && edge == DRAG_EDGE_LEFT ==> r.value == PivotForLeftEdge(mainClose, views.right.value.Width())
    ensures r.Ok? && edge != DRAG_EDGE_LEFT ==> r.value == PivotForRightEdge(mainClose, views.right.value.Width())
  {
    var right :- Need(views.right, RightView);
    if edge == DRAG_EDGE_LEFT then Ok(PivotForLeftEdge(mainClose, right.Width()))
    else Ok(PivotForRightEdge(mainClose, right.Width()))
  }

  // ------------------------------------------------------- drag callbacks

  /**
   * `clampViewPositionHorizontal`: for a known edge the main view's left
   * stays between its closed left and its open left, and a position already
   * in that range is kept; any other edge keeps the child where it is.
   */
  function Clamp(edge: int, mainClose: Rect, views: Views, childLeft: int, left: int): (r: Result<int>)
    ensures !KnownEdge(edge) ==> r == Ok(childLeft)
    ensures KnownEdge(edge) ==> (r.Ok? <==> views.right.Some?)
    ensures KnownEdge(edge) && r.Ok? && views.right.value.Width() >= 0 ==>
      var openLeft := MainOpenLeft(edge, mainClose, views).value;
      (Min(mainClose.left, openLeft) <= left <= Max(mainClose.left, openLeft) ==> r.value == left) &&
      Min(mainClose.left, openLeft) <= r.value <= Max(mainClose.left, openLeft)
  {
    if edge == DRAG_EDGE_RIGHT then
      var right :- Need(views.right, RightView);
      Ok(ClampForRightEdge(left, mainClose.left, right.Width()))
    else if edge == DRAG_EDGE_LEFT then
      var right :- Need(views.right, RightView);
      Ok(ClampForLeftEdge(left, mainClose.left, right.Width()))
    else
      Ok(childLeft)
  }

  /** The `switch (dragEdge)` of `onViewReleased`. An unknown edge does nothing. */
  function ReleaseDecision(edge: int, xvelDp: int, minFlingVelocity: int, main: Rect, pivot: int): (d: Option<Decision>)
    ensures d.Some? <==> KnownEdge(edge)
  {
    var velRight := VelRightExceeded(xvelDp, minFlingVelocity);
    var velLeft := VelLeftExceeded(xvelDp, minFlingVelocity);
    if edge == DRAG_EDGE_RIGHT then Some(ReleaseForRightEdge(velRight, velLeft, main.right, pivot))
    else if edge == DRAG_EDGE_LEFT then Some(ReleaseForLeftEdge(velRight, velLeft, main.left, pivot))
    else None
  }

  // ------------------------------------------------------------ initRects

  /**
   * The rectangles after `initRects`: both views' closed rectangles are
   * their current bounds, the right view opens where it is, and the main
   * view opens moved sideways by the right view's width. The left view's
   * rectangles are left as they were.
   */
  function RectsAfterInit(edge: int, views: Views, prev: Rects): (r: Result<Rects>)
    ensures r.Ok? <==> views.main.Some? && views.right.Some?
    ensures r.Ok? ==> r.value.mainClose == views.main.value && r.value.rightClose == views.right.value
    ensures r.Ok? ==> r.value.rightOpen == r.value.rightClose
    ensures r.Ok? && KnownEdge(edge) ==>
      r.value.mainOpen == Translate(views.main.value, OpenOffset(edge, views.right.value.Width()))
    ensures r.Ok? && !KnownEdge(edge) ==>
      r.value.mainOpen == Rect(0, 0, views.main.value.Width(), views.main.value.Height())
    ensures r.Ok? ==> r.value.leftClose == prev.leftClose && r.value.leftOpen == prev.leftOpen
  {
    var mainClose :- Need(views.main, MainView);
    var rightClose :- Need(views.right, RightView);
    var openLeft := OpenLeftWith(edge, mainClose, rightClose.Width());
    var openTop := MainOpenTop(edge, mainClose);
    var mainOpen := Rect(openLeft, openTop, openLeft + mainClose.Width(), openTop + mainClose.Height());
    var rightOpen := Rect(rightClose.left, rightClose.top, rightClose.left + rightClose.Width(),
                          rightClose.top + rightClose.Height());
    Ok(Rects(mainClose, mainOpen, rightClose, rightOpen, prev.leftClose, prev.leftOpen))
  }

  // ------------------------------------------------------------- onLayout

  /** What `onLayout` does to a child: its bounds, and its `match_parent` parameters. */
  function LayoutChild(edge: int, f: Frame, p: Padding, v: View): (c: View)
    ensures c.measuredWidth == v.measuredWidth && c.measuredHeight == v.measuredHeight
    ensures c.params == MatchParentExtent(v, f, p).params
    ensures !KnownEdge(edge) ==> c.bounds == EMPTY
    ensures KnownEdge(edge) ==> c.bounds.top <= MaxBottom(f, p) && c.bounds.bottom <= MaxBottom(f, p)
    ensures edge == DRAG_EDGE_RIGHT ==> c.bounds.left >= p.left && c.bounds.right >= p.left
    ensures edge == DRAG_EDGE_LEFT ==> c.bounds.left <= MaxRight(f, p) && c.bounds.right <= MaxRight(f, p)
    ensures var e := MatchParentExtent(v, f, p);
      edge == DRAG_EDGE_RIGHT ==> c.bounds == RightAlignedBounds(f, p, e.width, e.height)
    ensures var e := MatchParentExtent(v, f, p);
      edge == DRAG_EDGE_LEFT ==> c.bounds == LeftAlignedBounds(f, p, e.width, e.height)
  {
    var e := MatchParentExtent(v, f, p);
    var bounds :=
      if edge == DRAG_EDGE_RIGHT then RightAlignedBounds(f, p, e.width, e.height)
      else if edge == DRAG_EDGE_LEFT then LeftAlignedBounds(f, p, e.width, e.height)
      else EMPTY;
    v.(bounds := bounds, params := e.params)
  }

  /** The children after `onLayout`'s loop: every child is laid out alike. */
  function LaidOut(edge: int, f: Frame, p: Padding, cs: seq<View>): (r: seq<View>)
    ensures |r| == |cs|
    ensures forall i :: 0 <= i < |cs| ==> r[i] == LayoutChild(edge, f, p, cs[i])
  {
    seq(|cs|, i requires 0 <= i < |cs| => LayoutChild(edge, f, p, cs[i]))
  }

  /** The children after a non-animated `open`/`close`: the main view at `main`, the right view at `right`. */
  function Apply(cs: seq<View>, slots: Slots, main: Rect, right: Rect): (r: seq<View>)
    ensures |r| == |cs|
    ensures SlotsWithin(slots, |cs|) && SlotsDistinct(slots) ==>
      forall i :: 0 <= i < |cs| ==>
        (slots.main == Some(i) ==> r[i] == cs[i].(bounds := main)) &&
        (slots.right == Some(i) ==> r[i] == cs[i].(bounds := right)) &&
        (slots.main != Some(i) && slots.right != Some(i) ==> r[i] == cs[i])
  {
    Place(Place(cs, slots.main, main), slots.right, right)
  }

  // ---------------------------------------------------------------- class

  class SwipeRevealLayout {
    const dragEdge: int
    const minFlingVelocity: int
    const minDistRequestDisallowParent: int
    const padding: Padding

    var children: seq<View>
    var slots: Slots

    var rectMainClose: Rect
    var rectMainOpen: Rect
    var rectRightClose: Rect
    var rectRightOpen: Rect
    var rectLeftClose: Rect
    var rectLeftOpen: Rect

    /** Whether the layout was last opened rather than closed; `onLayout` restores it. */
    var isOpenBeforeInit: bool
    var isScrolling: bool
    /**
     * Read by the drag callbacks. The constructor clears it and every method that
     * changes state ensures it unchanged, so in this class it is always false
     * and the locked branches are never taken after construction.
     */
    var lockDrag: bool
    var dragDist: int
    var prevX: int
    var hasDisallowed: bool
    var slideTarget: Option<(int, int)>
    var measuredWidth: int
    var measuredHeight: int

    ghost predicate Valid()
      reads this`children, this`slots
    {
      SlotsWithin(slots, |children|) && SlotsDistinct(slots)
    }

    function CurrentViews(): Views
      reads this`children, this`slots
    {
      ViewsOf(children, slots)
    }

    function CurrentRects(): Rects
      reads this`rectMainClose, this`rectMainOpen, this`rectRightClose, this`rectRightOpen,
            this`rectLeftClose, this`rectLeftOpen
    {
      Rects(rectMainClose, rectMainOpen, rectRightClose, rectRightOpen, rectLeftClose, rectLeftOpen)
    }

    /** `isDragLocked()`. */
    function IsDragLocked(): bool
      reads this`lockDrag
    {
      lockDrag
    }

    /** `open`/`close` complete normally: the views they lay out are assigned. */
    predicate CanReposition(animation: bool)
      reads this`children, this`slots
    {
      CurrentViews().main.Some? && (animation || CurrentViews().right.Some?)
    }

    /** The two-argument constructor and `init`. */
    constructor (attrs: Option<Attributes>, children: seq<View>, padding: Padding)
      ensures Valid()
      ensures dragEdge == (if attrs.Some? && attrs.value.dragFromEdge.Some? then attrs.value.dragFromEdge.value
                           else DRAG_EDGE_LEFT)
      ensures minFlingVelocity == DEFAULT_MIN_FLING_VELOCITY
      ensures minDistRequestDisallowParent == (if attrs.Some? then DEFAULT_MIN_DIST_REQUEST_DISALLOW_PARENT else 0)
      ensures this.children == children && this.padding == padding
      ensures slots == Slots(None, None, None) && CurrentRects() == NO_RECTS
      ensures !isOpenBeforeInit && !IsDragLocked() && !isScrolling && !hasDisallowed
      ensures dragDist == 0 && prevX == -1 && slideTarget == None
      ensures measuredWidth == 0 && measuredHeight == 0
    {
      dragEdge := if attrs.Some? && attrs.value.dragFromEdge.Some? then attrs.value.dragFromEdge.value else DRAG_EDGE_LEFT;
      minFlingVelocity := DEFAULT_MIN_FLING_VELOCITY;
      minDistRequestDisallowParent := if attrs.Some? then DEFAULT_MIN_DIST_REQUEST_DISALLOW_PARENT else 0;
      this.children := children;
      this.padding := padding;
      slots := Slots(None, None, None);
      rectMainClose, rectMainOpen, rectRightClose := EMPTY, EMPTY, EMPTY;
      rectRightOpen, rectLeftClose, rectLeftOpen := EMPTY, EMPTY, EMPTY;
      isOpenBeforeInit, isScrolling, lockDrag, hasDisallowed := false, false, false, false;
      dragDist, prevX := 0, -1;
      slideTarget := None;
      measuredWidth, measuredHeight := 0, 0;
    }

    /**
     * `onFinishInflate`, which the toolkit calls once, before any slot is
     * assigned: with two or more children the first is the right view and
     * the second the main view; a single child is the main view.
     */
    method OnFinishInflate()
      requires Valid() && slots == Slots(None, None, None)
      modifies this`slots
      ensures unchanged(this`lockDrag)
      ensures Valid()
      ensures slots == InflatedSlots(|children|)
    {
      if |children| >= 2 {
        slots := slots.(right := Some(0), main := Some(1));
      } else if |children| == 1 {
        slots := slots.(main := Some(0));
      }
    }

    /** The shared body of `open` and `close` after the flag is set. */
    method Reposition(animation: bool, main: Rect, right: Rect) returns (o: Outcome)
      modifies this`children, this`slideTarget
      ensures unchanged(this`lockDrag)
      ensures |children| == |old(children)|
      ensures animation ==> children == old(children)
      ensures o.Pass? <==> old(CanReposition(animation))
      ensures o.Pass? && animation ==> slideTarget == Some((main.left, main.top))
      ensures o.Pass? && !animation ==> slideTarget == None && children == Apply(old(children), slots, main, right)
    {
      var views := CurrentViews();
      if animation {
        if views.main.None? {
          return Fail(MissingView(MainView));
        }
        slideTarget := Some((main.left, main.top));
      } else {
        slideTarget := None;
        if views.main.None? {
          return Fail(MissingView(MainView));
        }
        children := Place(children, slots.main, main);
        if views.right.None? {
          return Fail(MissingView(RightView));
        }
        children := Place(children, slots.right, right);
      }
      o := Pass;
    }

    /** `open`: remembers the open state and moves the views to their open rectangles. */
    method Open(animation: bool) returns (o: Outcome)
      requires Valid()
      modifies this`isOpenBeforeInit, this`children, this`slideTarget
      ensures unchanged(this`lockDrag)
      ensures Valid() && isOpenBeforeInit
      ensures animation ==> children == old(children)
      ensures o.Pass? <==> old(CanReposition(animation))
      ensures o.Pass? && animation ==> slideTarget == Some((rectMainOpen.left, rectMainOpen.top))
      ensures o.Pass? && !animation ==>
        slideTarget == None && children == Apply(old(children), slots, rectMainOpen, rectRightOpen)
    {
      isOpenBeforeInit := true;
      o := Reposition(animation, rectMainOpen, rectRightOpen);
    }

    /** `close`: remembers the closed state and moves the views to their closed rectangles. */
    method Close(animation: bool) returns (o: Outcome)
      requires Valid()
      modifies this`isOpenBeforeInit, this`children, this`slideTarget
      ensures unchanged(this`lockDrag)
      ensures Valid() && !isOpenBeforeInit
      ensures animation ==> children == old(children)
      ensures o.Pass? <==> old(CanReposition(animation))
      ensures o.Pass? && animation ==> slideTarget == Some((rectMainClose.left, rectMainClose.top))
      ensures o.Pass? && !animation ==>
        slideTarget == None && children == Apply(old(children), slots, rectMainClose, rectRightClose)
    {
      isOpenBeforeInit := false;
      o := Reposition(animation, rectMainClose, rectRightClose);
    }

    /** `initRects`. */
    method InitRects() returns (o: Outcome)
      requires Valid()
      modifies this`rectMainClose, this`rectMainOpen, this`rectRightClose, this`rectRightOpen
      ensures unchanged(this`lockDrag)
      ensures Valid()
      ensures var r := RectsAfterInit(dragEdge, CurrentViews(), old(CurrentRects()));
        (o.Pass? <==> r.Ok?) && (r.Ok? ==> CurrentRects() == r.value)
    {
      var views := CurrentViews();
      if views.main.None? {
        return Fail(MissingView(MainView));
      }
      var main := views.main.value;
      rectMainClose := main;
      if views.right.None? {
        return Fail(MissingView(RightView));
      }
      var right := views.right.value;
      rectRightClose := right;
      var openLeft := OpenLeftWith(dragEdge, rectMainClose, right.Width());
      var openTop := MainOpenTop(dragEdge, rectMainClose);
      rectMainOpen := Rect(openLeft, openTop, openLeft + main.Width(), openTop + main.Height());
      rectRightOpen := Rect(rectRightClose.left, rectRightClose.top,
                            rectRightClose.left + right.Width(), rectRightClose.top + right.Height());
      o := Pass;
    }

    /** The loop of `onLayout`. */
    method LayoutChildren(f: Frame)
      modifies this`children
      ensures unchanged(this`lockDrag)
      ensures children == LaidOut(dragEdge, f, padding, old(children))
    {
      ghost var laid := LaidOut(dragEdge, f, padding, children);
      var index := 0;
      while index < |children|
        invariant 0 <= index <= |children| == |laid|
        invariant forall j :: 0 <= j < index ==> children[j] == laid[j]
        invariant forall j :: index <= j < |children| ==> children[j] == old(children)[j]
      {
        children := children[index := LayoutChild(dragEdge, f, padding, children[index])];
        index := index + 1;
      }
      assert children == laid;
    }

    /**
     * `onLayout`: lays every child out, records the rectangles, then puts the
     * views back in the position `isOpenBeforeInit` remembers.
     */
    method OnLayout(f: Frame) returns (o: Outcome)
      requires Valid()
      modifies this`children, this`rectMainClose, this`rectMainOpen, this`rectRightClose, this`rectRightOpen,
               this`isOpenBeforeInit, this`slideTarget
      ensures unchanged(this`lockDrag)
      ensures Valid()
      ensures var laid := LaidOut(dragEdge, f, padding, old(children));
        var r := RectsAfterInit(dragEdge, ViewsOf(laid, slots), old(CurrentRects()));
        (o.Pass? <==> r.Ok?) &&
        (o.Pass? ==>
           isOpenBeforeInit == old(isOpenBeforeInit) && CurrentRects() == r.value && slideTarget == None &&
           children == (if isOpenBeforeInit then Apply(laid, slots, rectMainOpen, rectRightOpen)
                        else Apply(laid, slots, rectMainClose, rectRightClose)))
    {
      LayoutChildren(f);
      o := SettleLayout();
    }

    /** The end of `onLayout`: `initRects`, then `open(false)` or `close(false)` by `isOpenBeforeInit`. */
    method SettleLayout() returns (o: Outcome)
      requires Valid()
      modifies this`children, this`rectMainClose, this`rectMainOpen, this`rectRightClose, this`rectRightOpen,
               this`isOpenBeforeInit, this`slideTarget
      ensures unchanged(this`lockDrag)
      ensures Valid()
      ensures var r := RectsAfterInit(dragEdge, old(CurrentViews()), old(CurrentRects()));
        (o.Pass? <==> r.Ok?) &&
        (o.Pass? ==>
           isOpenBeforeInit == old(isOpenBeforeInit) && CurrentRects() == r.value && slideTarget == None &&
           children == (if isOpenBeforeInit then Apply(old(children), slots, rectMainOpen, rectRightOpen)
                        else Apply(old(children), slots, rectMainClose, rectRightClose)))
    {
      o := InitRects();
      if o.Fail? {
        return;
      }
      if isOpenBeforeInit {
        o := Open(false);
      } else {
        o := Close(false);
      }
    }

    /** `onMeasure`: sets the measured dimension, or raises with fewer than two children. */
    method OnMeasure(first: seq<Size>, second: seq<Size>, widthMode: MeasureMode, heightMode: MeasureMode,
                     params: LayoutParams) returns (r: Result<Size>)
      requires |first| == |children| && |second| == |children|
      modifies this`measuredWidth, this`measuredHeight
      ensures unchanged(this`lockDrag)
      ensures |children| < 2 ==> r == Failure(TooFewChildren)
      ensures |children| >= 2 ==> r == Ok(MeasuredDimension(first, second, widthMode, heightMode, padding, params))
      ensures r.Ok? ==> measuredWidth == r.value.width && measuredHeight == r.value.height
      ensures r.Failure? ==> measuredWidth == old(measuredWidth) && measuredHeight == old(measuredHeight)
    {
      r := Measure(first, second, widthMode, heightMode, padding, params);
      if r.Ok? {
        measuredWidth, measuredHeight := r.value.width, r.value.height;
      }
    }

    /** `accumulateDragDist`. */
    method AccumulateDragDist(ev: TouchEvent)
      modifies this`dragDist
      ensures unchanged(this`lockDrag)
      ensures dragDist == AccumulateStep(old(dragDist), prevX, ev)
    {
      if ev.action == Down {
        dragDist := 0;
        return;
      }
      var signedDraggedDistance := ev.x - prevX;
      dragDist := dragDist + signedDraggedDistance;
    }

    /**
     * `onInterceptTouchEvent`, after the drag helper and the gesture detector
     * have seen the event: while locked it defers to the superclass
     * (`superResult`); otherwise it updates the drag distance and intercepts
     * unless the event could still become a click.
     */
    method OnInterceptTouchEvent(ev: TouchEvent, dragState: DragState, touchSlop: int, superResult: bool)
      returns (r: Result<bool>)
      modifies this`dragDist, this`prevX
      ensures unchanged(this`lockDrag)
      ensures IsDragLocked() ==> r == Ok(superResult) && dragDist == old(dragDist) && prevX == old(prevX)
      ensures !IsDragLocked() ==>
        var main := CurrentViews().main;
        dragDist == AccumulateStep(old(dragDist), old(prevX), ev) &&
        (main.None? ==> r == Failure(MissingView(MainView)) && prevX == old(prevX)) &&
        (main.Some? ==>
           prevX == ev.x &&
           r == Ok(InterceptDecision(CouldBecomeClick(main.value, ev, dragDist, touchSlop), dragState, isScrolling)))
    {
      if IsDragLocked() {
        return Ok(superResult);
      }
      AccumulateDragDist(ev);
      var main := CurrentViews().main;
      if main.None? {
        return Failure(MissingView(MainView));
      }
      var couldBecomeClick := CouldBecomeClick(main.value, ev, dragDist, touchSlop);
      prevX := ev.x;
      r := Ok(InterceptDecision(couldBecomeClick, dragState, isScrolling));
    }

    /**
     * `onViewReleased` with the horizontal velocity already in dp per second:
     * opens or closes with animation by the release rule of the edge.
     */
    method OnViewReleased(xvelDp: int) returns (o: Outcome)
      requires Valid()
      modifies this`isOpenBeforeInit, this`children, this`slideTarget
      ensures unchanged(this`lockDrag)
      ensures Valid() && children == old(children)
      ensures var views := CurrentViews();
        var pivot := HalfwayPivot(dragEdge, rectMainClose, views);
        (o.Pass? <==> pivot.Ok? && (KnownEdge(dragEdge) ==> views.main.Some?)) &&
        (o.Pass? ==>
           match (if KnownEdge(dragEdge) then ReleaseDecision(dragEdge, xvelDp, minFlingVelocity, views.main.value, pivot.value)
                  else None)
           case None => isOpenBeforeInit == old(isOpenBeforeInit) && slideTarget == old(slideTarget)
           case Some(OpenPanel) => isOpenBeforeInit && slideTarget == Some((rectMainOpen.left, rectMainOpen.top))
           case Some(ClosePanel) => !isOpenBeforeInit && slideTarget == Some((rectMainClose.left, rectMainClose.top)))
    {
      var views := CurrentViews();
      var pivot := HalfwayPivot(dragEdge, rectMainClose, views);
      if pivot.Failure? {
        return Fail(pivot.error);
      }
      if !KnownEdge(dragEdge) {
        return Pass;
      }
      if views.main.None? {
        return Fail(MissingView(MainView));
      }
      var decision := ReleaseDecision(dragEdge, xvelDp, minFlingVelocity, views.main.value, pivot.value);
      if decision == Some(OpenPanel) {
        o := Open(true);
      } else {
        o := Close(true);
      }
    }

    /** `tryCaptureView`: captures the main view unless locked, and always answers false. */
    method TryCaptureView() returns (r: Result<Capture>)
      ensures IsDragLocked() ==> r == Ok(Capture(false, false))
      ensures !IsDragLocked() ==> (r.Ok? <==> CurrentViews().main.Some?)
      ensures !IsDragLocked() && r.Ok? ==> r.value == Capture(false, true)
      ensures r.Ok? ==> !r.value.accepted
    {
      if lockDrag {
        return Ok(Capture(false, false));
      }
      if CurrentViews().main.None? {
        return Failure(MissingView(MainView));
      }
      r := Ok(Capture(false, true));
    }

    /** `onEdgeDragStarted`: whether the main view is captured for a touch at `edgeFlags`. */
    method OnEdgeDragStarted(edgeFlags: int) returns (r: Result<bool>)
      ensures !EdgeDragCaptures(IsDragLocked(), dragEdge, edgeFlags) ==> r == Ok(false)
      ensures EdgeDragCaptures(IsDragLocked(), dragEdge, edgeFlags) ==>
        (r.Ok? <==> CurrentViews().main.Some?) && (r.Ok? ==> r.value)
    {
      if lockDrag {
        return Ok(false);
      }
      var edgeStartLeft := dragEdge == DRAG_EDGE_RIGHT && edgeFlags == EDGE_LEFT;
      var edgeStartRight := dragEdge == DRAG_EDGE_LEFT && edgeFlags == EDGE_RIGHT;
      if edgeStartLeft || edgeStartRight {
        if CurrentViews().main.None? {
          return Failure(MissingView(MainView));
        }
        return Ok(true);
      }
      r := Ok(false);
    }

    /** The gesture listener's `onDown`. */
    method OnDown() returns (consumed: bool)
      modifies this`isScrolling, this`hasDisallowed
      ensures unchanged(this`lockDrag)
      ensures consumed && !isScrolling && !hasDisallowed
    {
      isScrolling := false;
      hasDisallowed := false;
      consumed := true;
    }

    /** The gesture listener's `onFling`. */
    method OnFling() returns (consumed: bool)
      modifies this`isScrolling
      ensures unchanged(this`lockDrag)
      ensures !consumed && isScrolling
    {
      isScrolling := true;
      consumed := false;
    }

    /**
     * The gesture listener's `onScroll`: marks the gesture as scrolling and,
     * when there is a parent, returns what it asks of
     * `requestDisallowInterceptTouchEvent`.
     */
    method OnScroll(hasParent: bool) returns (r: Result<Option<bool>>)
      modifies this`isScrolling, this`hasDisallowed
      ensures unchanged(this`lockDrag)
      ensures isScrolling
      ensures !hasParent ==> r == Ok(None) && hasDisallowed == old(hasDisallowed)
      ensures hasParent && old(hasDisallowed) ==> r == Ok(Some(true)) && hasDisallowed
      ensures hasParent && !old(hasDisallowed) ==>
        var d := DistToClosestEdge(dragEdge, rectMainClose, CurrentViews());
        (d.Failure? ==> r == Failure(d.error) && !hasDisallowed) &&
        (d.Ok? ==> r == Ok(Some(d.value >= minDistRequestDisallowParent)) &&
                   hasDisallowed == (d.value >= minDistRequestDisallowParent))
    {
      isScrolling := true;
      if !hasParent {
        return Ok(None);
      }
      var shouldDisallow: bool;
      if !hasDisallowed {
        var d := DistToClosestEdge(dragEdge, rectMainClose, CurrentViews());
        if d.Failure? {
          return Failure(d.error);
        }
        shouldDisallow := d.value >= minDistRequestDisallowParent;
        if shouldDisallow {
          hasDisallowed := true;
        }
      } else {
        shouldDisallow := true;
      }
      r := Ok(Some(shouldDisallow));
    }
  }
}
