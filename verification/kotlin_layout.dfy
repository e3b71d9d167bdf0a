/**
 * The Kotlin revision of the swipe-reveal layout: up to three children (a
 * right view, a left view and the main view on top), and a `dragFromEdge`
 * that may name the left edge, the right edge or both.
 *
 * The getters the source computes from its fields are functions of the
 * fields' values; the callbacks that change the layout's state are methods
 * of the `SwipeRevealLayout` class.
 */
module KotlinRevision {
  import opened Geometry
  import opened Platform
  import opened DragRules
  import opened LayoutRules

  /** `DRAG_EDGE_LEFT or DRAG_EDGE_RIGHT`, the `when` label for dragging from both edges. */
  const DRAG_EDGE_BOTH: int := ((DRAG_EDGE_LEFT as bv32) | (DRAG_EDGE_RIGHT as bv32)) as int

  /**
   * The right-hand side of the guard `dragEdge == DRAG_EDGE_LEFT and DRAG_EDGE_RIGHT`
   * that decides whether the left view is positioned. The infix `and` binds
   * tighter than `==`, so the edge is compared with `1 and 2`, which is 0.
   */
  const LEFT_VIEW_GUARD: int := ((DRAG_EDGE_LEFT as bv32) & (DRAG_EDGE_RIGHT as bv32)) as int

  /** The edge values the `when` expressions have a branch for. */
  predicate KnownEdge(edge: int)
  {
    edge == DRAG_EDGE_LEFT || edge == DRAG_EDGE_RIGHT || edge == DRAG_EDGE_BOTH
  }

  /** `draggingFromRightToLeft`. */
  predicate DraggingFromRightToLeft(dragDist: int)
  {
    dragDist < 0
  }

  /** The panel opens right to left: a right-edge layout, or both edges with a leftward drag so far. */
  predicate OpensRightToLeft(edge: int, dragDist: int)
  {
    edge == DRAG_EDGE_RIGHT || (edge == DRAG_EDGE_BOTH && DraggingFromRightToLeft(dragDist))
  }

  /**
   * The view whose width is the main view's travel: the left view only when
   * both edges are enabled and the drag goes left to right. A left-edge
   * layout measures its travel by the view in the right slot.
   */
  function RevealedSlot(edge: int, dragDist: int): Slot
  {
    if edge == DRAG_EDGE_BOTH && !DraggingFromRightToLeft(dragDist) then LeftView else RightView
  }

  /** The main view's horizontal offset from its closed to its open position. */
  function OpenOffset(edge: int, dragDist: int, width: int): int
  {
    if OpensRightToLeft(edge, dragDist) then -width else width
  }

  // ------------------------------------------------------- onFinishInflate

  /** The child indices `onFinishInflate` stores, by child count. */
  function InflatedSlots(count: nat): (s: Slots)
    ensures SlotsWithin(s, count) && SlotsDistinct(s)
    ensures 1 <= count <= 3 <==> s.main.Some?
    ensures s.main.Some? ==> s.main.value == count - 1
    ensures s.right.Some? <==> count == 2 || count == 3
    ensures s.right.Some? ==> s.right.value == 0
    ensures s.left.Some? <==> count == 3
    ensures s.left.Some? ==> s.left.value == 1
  {
    if count == 3 then Slots(Some(2), Some(0), Some(1))
    else if count == 2 then Slots(Some(1), Some(0), None)
    else if count == 1 then Slots(Some(0), None, None)
    else Slots(None, None, None)
  }

  // --------------------------------------------------------------- getters

  /** `mainOpenLeft`: where the main view's left edge is when the panel is open. */
  function MainOpenLeft(edge: int, mainClose: Rect, views: Views, dragDist: int): (r: Result<int>)
    ensures !KnownEdge(edge) ==> r == Ok(0)
    ensures KnownEdge(edge) ==> (r.Ok? <==> ViewIn(views, RevealedSlot(edge, dragDist)).Some?)
    ensures KnownEdge(edge) && r.Failure? ==> r.error == MissingView(RevealedSlot(edge, dragDist))
    ensures KnownEdge(edge) && r.Ok? ==>
      r.value == mainClose.left + OpenOffset(edge, dragDist, ViewIn(views, RevealedSlot(edge, dragDist)).value.Width())
  {
    if edge == DRAG_EDGE_BOTH then
      if DraggingFromRightToLeft(dragDist) then
        var right :- Need(views.right, RightView);
        Ok(mainClose.left - right.Width())
      else
        var left :- Need(views.left, LeftView);
        Ok(mainClose.left + left.Width())
    else if edge == DRAG_EDGE_LEFT then
      var right :- Need(views.right, RightView);
      Ok(mainClose.left + right.Width())
    else if edge == DRAG_EDGE_RIGHT then
      var right :- Need(views.right, RightView);
      Ok(mainClose.left - right.Width())
    else
      Ok(0)
  }

  /** `mainOpenTop`. */
  function MainOpenTop(edge: int, mainClose: Rect): (t: int)
    ensures KnownEdge(edge) ==> t == mainClose.top
    ensures !KnownEdge(edge) ==> t == 0
  {
    if KnownEdge(edge) then mainClose.top else 0
  }

  /**
   * The rectangle `rectMainOpen.set(...)` receives: the main view's size at
   * `mainOpenLeft`, `mainOpenTop`. For a known edge it is the closed
   * rectangle moved sideways by the revealed view's width.
   */
  function MainOpenRect(edge: int, mainClose: Rect, views: Views, dragDist: int): (r: Result<Rect>)
    ensures r.Ok? <==> views.main.Some? && (KnownEdge(edge) ==> ViewIn(views, RevealedSlot(edge, dragDist)).Some?)
    ensures r.Ok? ==> r.value.Width() == views.main.value.Width() && r.value.Height() == views.main.value.Height()
    ensures r.Ok? && KnownEdge(edge) ==>
      r.value.top == mainClose.top &&
      r.value.left == mainClose.left + OpenOffset(edge, dragDist, ViewIn(views, RevealedSlot(edge, dragDist)).value.Width())
    ensures r.Ok? && !KnownEdge(edge) ==> r.value.left == 0 && r.value.top == 0
  {
    var openLeft :- MainOpenLeft(edge, mainClose, views, dragDist);
    var main :- Need(views.main, MainView);
    var openTop := MainOpenTop(edge, mainClose);
    Ok(Rect(openLeft, openTop, openLeft + main.Width(), openTop + main.Height()))
  }

  function DistRightEdge(mainClose: Rect, views: Views): Result<int>
  {
    var right :- Need(views.right, RightView);
    var main :- Need(views.main, MainView);
    Ok(DistForRightEdge(mainClose, main, right.Width()))
  }

  function DistLeftEdge(mainClose: Rect, views: Views, slot: Slot): Result<int>
  {
    var revealed :- Need(ViewIn(views, slot), slot);
    var main :- Need(views.main, MainView);
    Ok(DistForLeftEdge(mainClose, main, revealed.Width()))
  }

  /**
   * `distToClosestEdge`. The `DRAG_EDGE_LEFT` branch computes the distance
   * but does not return it, so a left-edge layout reports 0 (after reading
   * the views, which may raise).
   */
  function DistToClosestEdge(edge: int, mainClose: Rect, views: Views, dragDist: int): (r: Result<int>)
    ensures !KnownEdge(edge) ==> r == Ok(0)
    ensures KnownEdge(edge) ==>
      (r.Ok? <==> views.main.Some? && ViewIn(views, RevealedSlot(edge, dragDist)).Some?)
    ensures edge == DRAG_EDGE_LEFT && r.Ok? ==> r.value == 0
    ensures OpensRightToLeft(edge, dragDist) && r.Ok? ==>
      r.value == DistForRightEdge(mainClose, views.main.value, views.right.value.Width())
    ensures edge == DRAG_EDGE_BOTH && !DraggingFromRightToLeft(dragDist) && r.Ok? ==>
      r.value == DistForLeftEdge(mainClose, views.main.value, views.left.value.Width())
  {
    if edge == DRAG_EDGE_BOTH then
      if DraggingFromRightToLeft(dragDist) then DistRightEdge(mainClose, views)
      else DistLeftEdge(mainClose, views, LeftView)
    else if edge == DRAG_EDGE_LEFT then
      var discarded :- DistLeftEdge(mainClose, views, RightView);
      Ok(0)
    else if edge == DRAG_EDGE_RIGHT then
      DistRightEdge(mainClose, views)
    else
      Ok(0)
  }

  /**
   * `halfwayPivotHorizontalForLeftEdge`: measured from the closed main view's
   * RIGHT edge, so the pivot lies at or beyond the closed right edge.
   */
  function PivotForLeftEdge(mainClose: Rect, width: int): (p: int)
    ensures width >= 0 ==> mainClose.right <= p <= mainClose.right + width
    ensures width >= 0 ==> 0 <= 2 * (p - mainClose.right) <= width
    ensures width >= 0 ==> 0 <= (2 * mainClose.right + width) - 2 * p <= 1
  {
    mainClose.right + Half(width)
  }

  /** Whether `halfwayPivotHorizontal` takes the right-edge formula. */
  predicate PivotFromRightEdge(edge: int, dragDist: int)
  {
    edge == DRAG_EDGE_RIGHT || (edge != DRAG_EDGE_LEFT && DraggingFromRightToLeft(dragDist))
  }

  /** The view whose width `halfwayPivotHorizontal` halves. */
  function PivotSlot(edge: int, dragDist: int): Slot
  {
    if edge != DRAG_EDGE_LEFT && edge != DRAG_EDGE_RIGHT && !DraggingFromRightToLeft(dragDist) then LeftView else RightView
  }

  /**
   * `halfwayPivotHorizontal`: any edge other than left or right (both edges,
   * or an unknown value) takes the formula the drag direction picks.
   */
  function HalfwayPivot(edge: int, mainClose: Rect, views: Views, dragDist: int): (r: Result<int>)
    ensures r.Ok? <==> ViewIn(views, PivotSlot(edge, dragDist)).Some?
    ensures r.Failure? ==> r.error == MissingView(PivotSlot(edge, dragDist))
    ensures r.Ok? && PivotFromRightEdge(edge, dragDist) ==>
      r.value == PivotForRightEdge(mainClose, views.right.value.Width())
    ensures r.Ok? && !PivotFromRightEdge(edge, dragDist) ==>
      r.value == PivotForLeftEdge(mainClose, ViewIn(views, PivotSlot(edge, dragDist)).value.Width())
  {
    if edge == DRAG_EDGE_LEFT then
      var right :- Need(views.right, RightView);
      Ok(PivotForLeftEdge(mainClose, right.Width()))
    else if edge == DRAG_EDGE_RIGHT then
      var right :- Need(views.right, RightView);
      Ok(PivotForRightEdge(mainClose, right.Width()))
    else if DraggingFromRightToLeft(dragDist) then
      var right :- Need(views.right, RightView);
      Ok(PivotForRightEdge(mainClose, right.Width()))
    else
      var left :- Need(views.left, LeftView);
      Ok(PivotForLeftEdge(mainClose, left.Width()))
  }

  // ------------------------------------------------------- drag callbacks

  /**
   * `clampViewPositionHorizontal`: for a known edge the main view's left
   * stays between its closed left and its open left, and a position already
   * in that range is kept; any other edge keeps the child where it is.
   */
  function Clamp(edge: int, mainClose: Rect, views: Views, dragDist: int, childLeft: int, left: int): (r: Result<int>)
    ensures !KnownEdge(edge) ==> r == Ok(childLeft)
    ensures KnownEdge(edge) ==> (r.Ok? <==> ViewIn(views, RevealedSlot(edge, dragDist)).Some?)
    ensures KnownEdge(edge) && r.Ok? ==>
      var openLeft := MainOpenLeft(edge, mainClose, views, dragDist).value;
      ViewIn(views, RevealedSlot(edge, dragDist)).value.Width() >= 0 ==>
        (Min(mainClose.left, openLeft) <= left <= Max(mainClose.left, openLeft) ==> r.value == left) &&
        Min(mainClose.left, openLeft) <= r.value <= Max(mainClose.left, openLeft)
  {
    if edge == DRAG_EDGE_RIGHT then
      var right :- Need(views.right, RightView);
      Ok(ClampForRightEdge(left, mainClose.left, right.Width()))
    else if edge == DRAG_EDGE_LEFT then
      var right :- Need(views.right, RightView);
      Ok(ClampForLeftEdge(left, mainClose.left, right.Width()))
    else if edge == DRAG_EDGE_BOTH then
      if DraggingFromRightToLeft(dragDist) then
        var right :- Need(views.right, RightView);
        Ok(ClampForRightEdge(left, mainClose.left, right.Width()))
      else
        var leftView :- Need(views.left, LeftView);
        Ok(ClampForLeftEdge(left, mainClose.left, leftView.Width()))
    else
      Ok(childLeft)
  }

  /**
   * The `when (dragEdge)` of `onViewReleased`: which release rule applies,
   * given the released main view and the pivot. An unknown edge does nothing.
   */
  function ReleaseDecision(edge: int, dragDist: int, xvelDp: int, minFlingVelocity: int,
                           main: Rect, pivot: int): (d: Option<Decision>)
    ensures d.Some? <==> KnownEdge(edge)
  {
    var velRight := VelRightExceeded(xvelDp, minFlingVelocity);
    var velLeft := VelLeftExceeded(xvelDp, minFlingVelocity);
    if edge == DRAG_EDGE_BOTH then
      if DraggingFromRightToLeft(dragDist)
      then Some(ReleaseForRightEdge(velRight, velLeft, main.right, pivot))
      else Some(ReleaseForLeftEdge(velRight, velLeft, main.left, pivot))
    else if edge == DRAG_EDGE_RIGHT then Some(ReleaseForRightEdge(velRight, velLeft, main.right, pivot))
    else if edge == DRAG_EDGE_LEFT then Some(ReleaseForLeftEdge(velRight, velLeft, main.left, pivot))
    else None
  }

  // ------------------------------------------------------------ initRects

  /** The right view's closed rectangle and the open one built from `rightOpenLeft` and `secOpenTop`. */
  function RightRects(views: Views): Result<(Rect, Rect)>
  {
    var right :- Need(views.right, RightView);
    Ok((right, Rect(right.left, right.top, right.left + right.Width(), right.top + right.Height())))
  }

  /**
   * The left view's closed rectangle and the open one built from
   * `leftOpenRight` (the closed LEFT edge) and `secOpenTop` (the right view's
   * closed top).
   */
  function LeftRects(views: Views, rightClose: Rect): Result<(Rect, Rect)>
  {
    var leftView :- Need(views.left, LeftView);
    Ok((leftView, Rect(leftView.left, rightClose.top, leftView.left + leftView.Width(),
                       rightClose.top + leftView.Height())))
  }

  /**
   * The six rectangles after `initRects`, from the views' current bounds and
   * the rectangles before it. The right view's rectangles are only set when
   * the edge has the right bit, the left view's only when the edge is 0.
   */
  function RectsAfterInit(edge: int, views: Views, dragDist: int, prev: Rects): (r: Result<Rects>)
    ensures r.Ok? <==>
      views.main.Some? && (KnownEdge(edge) ==> ViewIn(views, RevealedSlot(edge, dragDist)).Some?) &&
      (HasRightBit(edge) ==> views.right.Some?) && (edge == LEFT_VIEW_GUARD ==> views.left.Some?)
    ensures r.Ok? ==> r.value.mainClose == views.main.value
    ensures r.Ok? && KnownEdge(edge) ==>
      r.value.mainOpen == Translate(views.main.value,
                                    OpenOffset(edge, dragDist, ViewIn(views, RevealedSlot(edge, dragDist)).value.Width()))
    ensures r.Ok? && !KnownEdge(edge) ==>
      r.value.mainOpen == Rect(0, 0, views.main.value.Width(), views.main.value.Height())
    ensures r.Ok? && HasRightBit(edge) ==>
      r.value.rightClose == views.right.value && r.value.rightOpen == r.value.rightClose
    ensures r.Ok? && !HasRightBit(edge) ==>
      r.value.rightClose == prev.rightClose && r.value.rightOpen == prev.rightOpen
    ensures r.Ok? && edge == LEFT_VIEW_GUARD ==>
      var l := views.left.value;
      r.value.leftClose == l &&
      r.value.leftOpen == Rect(l.left, prev.rightClose.top, l.right, prev.rightClose.top + l.Height())
    ensures r.Ok? && edge != LEFT_VIEW_GUARD ==>
      r.value.leftClose == prev.leftClose && r.value.leftOpen == prev.leftOpen
  {
    var mainClose :- Need(views.main, MainView);
    var mainOpen :- MainOpenRect(edge, mainClose, views, dragDist);
    var right :- if HasRightBit(edge) then RightRects(views) else Ok((prev.rightClose, prev.rightOpen));
    var left :- if edge == LEFT_VIEW_GUARD then LeftRects(views, right.0) else Ok((prev.leftClose, prev.leftOpen));
    Ok(Rects(mainClose, mainOpen, right.0, right.1, left.0, left.1))
  }

  // ------------------------------------------------------------- onLayout

  /** What `onLayout` does to the child at `index`: its bounds, and its `match_parent` parameters. */
  function LayoutChild(edge: int, index: nat, f: Frame, p: Padding, v: View): (c: View)
    ensures c.measuredWidth == v.measuredWidth && c.measuredHeight == v.measuredHeight
    ensures c.params == MatchParentExtent(v, f, p).params
    ensures !KnownEdge(edge) ==> c.bounds == EMPTY
    ensures KnownEdge(edge) ==> c.bounds.top <= MaxBottom(f, p) && c.bounds.bottom <= MaxBottom(f, p)
    ensures edge == DRAG_EDGE_RIGHT || (edge == DRAG_EDGE_BOTH && index == 0) ==>
      c.bounds.left >= p.left && c.bounds.right >= p.left
    ensures edge == DRAG_EDGE_LEFT || (edge == DRAG_EDGE_BOTH && index != 0) ==>
      c.bounds.left <= MaxRight(f, p) && c.bounds.right <= MaxRight(f, p)
    ensures var e := MatchParentExtent(v, f, p);
      edge == DRAG_EDGE_RIGHT || (edge == DRAG_EDGE_BOTH && index == 0) ==>
        c.bounds == RightAlignedBounds(f, p, e.width, e.height)
    ensures var e := MatchParentExtent(v, f, p);
      edge == DRAG_EDGE_LEFT || (edge == DRAG_EDGE_BOTH && index != 0) ==>
        c.bounds == LeftAlignedBounds(f, p, e.width, e.height)
  {
    var e := MatchParentExtent(v, f, p);
    var bounds :=
      if edge == DRAG_EDGE_BOTH then
        if index == 0 then RightAlignedBounds(f, p, e.width, e.height)
        else LeftAlignedBounds(f, p, e.width, e.height)
      else if edge == DRAG_EDGE_RIGHT then RightAlignedBounds(f, p, e.width, e.height)
      else if edge == DRAG_EDGE_LEFT then LeftAlignedBounds(f, p, e.width, e.height)
      else EMPTY;
    v.(bounds := bounds, params := e.params)
  }

  /** The children after `onLayout`'s loop. */
  function LaidOut(edge: int, f: Frame, p: Padding, cs: seq<View>): (r: seq<View>)
    ensures |r| == |cs|
    ensures forall i :: 0 <= i < |cs| ==> r[i] == LayoutChild(edge, i, f, p, cs[i])
  {
    seq(|cs|, i requires 0 <= i < |cs| => LayoutChild(edge, i, f, p, cs[i]))
  }

  /**
   * The children after a non-animated `open`/`close`: the main view at
   * `main`, the right view at `right` when the edge has the right bit, the
   * left view at `left` when the edge is 0.
   */
  function Apply(cs: seq<View>, slots: Slots, edge: int, main: Rect, right: Rect, left: Rect): (r: seq<View>)
    ensures |r| == |cs|
    ensures SlotsWithin(slots, |cs|) && SlotsDistinct(slots) ==>
      forall i :: 0 <= i < |cs| ==>
        (slots.main == Some(i) ==> r[i] == cs[i].(bounds := main)) &&
        (slots.right == Some(i) ==> r[i] == if HasRightBit(edge) then cs[i].(bounds := right) else cs[i]) &&
        (slots.left == Some(i) ==> r[i] == if edge == LEFT_VIEW_GUARD then cs[i].(bounds := left) else cs[i]) &&
        (slots.main != Some(i) && slots.right != Some(i) && slots.left != Some(i) ==> r[i] == cs[i])
  {
    var a := Place(cs, slots.main, main);
    var b := if HasRightBit(edge) then Place(a, slots.right, right) else a;
    if edge == LEFT_VIEW_GUARD then Place(b, slots.left, left) else b
  }

  // ---------------------------------------------------------------- class

  class SwipeRevealLayout {
    const dragEdge: int
    const minFlingVelocity: int
    const minDistRequestDisallowParent: int
    const padding: Padding

    /** The children, in order, and the indices `onFinishInflate` stored for the three views. */
    var children: seq<View>
    var slots: Slots

    var rectMainClose: Rect
    var rectMainOpen: Rect
    var rectRightClose: Rect
    var rectRightOpen: Rect
    var rectLeftClose: Rect
    var rectLeftOpen: Rect

    var isOpen: bool
    var isScrolling: bool
    var isDragLocked: bool
    var dragDist: int
    var prevX: int

    /** The gesture listener's `hasDisallowed`. */
    var hasDisallowed: bool

    /** Where the drag helper was last asked to slide the main view; `None` once aborted. */
    var slideTarget: Option<(int, int)>

    var measuredWidth: int
    var measuredHeight: int

    /** The drag lock follows the open state; the slots name distinct children. */
    ghost predicate Valid()
      reads this`isOpen, this`isDragLocked, this`children, this`slots
    {
      isOpen == isDragLocked && SlotsWithin(slots, |children|) && SlotsDistinct(slots)
    }

    function CurrentViews(): Views
      reads this`children, this`slots
    {
      ViewsOf(children, slots)
    }

    function CurrentRects(): Rects
      reads this`rectMainClose, this`rectMainOpen, this`rectRightClose, this`rectRightOpen,
            this`rectLeftClose, this`rectLeftOpen
    {
      Rects(rectMainClose, rectMainOpen, rectRightClose, rectRightOpen, rectLeftClose, rectLeftOpen)
    }

    /** `open`/`close` complete normally: the views they lay out are assigned. */
    predicate CanReposition(animation: bool)
      reads this`children, this`slots
    {
      var views := CurrentViews();
      views.main.Some? &&
      (animation || ((HasRightBit(dragEdge) ==> views.right.Some?) && (dragEdge == LEFT_VIEW_GUARD ==> views.left.Some?)))
    }

    /** `init`: styled attributes set the edge and the disallow distance. */
    constructor (attrs: Option<Attributes>, children: seq<View>, padding: Padding)
      ensures Valid()
      ensures dragEdge == (if attrs.Some? && attrs.value.dragFromEdge.Some? then attrs.value.dragFromEdge.value
                           else DRAG_EDGE_LEFT)
      ensures minFlingVelocity == DEFAULT_MIN_FLING_VELOCITY
      ensures minDistRequestDisallowParent == (if attrs.Some? then DEFAULT_MIN_DIST_REQUEST_DISALLOW_PARENT else 0)
      ensures this.children == children && this.padding == padding
      ensures slots == Slots(None, None, None) && CurrentRects() == NO_RECTS
      ensures !isOpen && !isDragLocked && !isScrolling && !hasDisallowed
      ensures dragDist == 0 && prevX == -1 && slideTarget == None
      ensures measuredWidth == 0 && measuredHeight == 0
    {
      dragEdge := if attrs.Some? && attrs.value.dragFromEdge.Some? then attrs.value.dragFromEdge.value else DRAG_EDGE_LEFT;
      minFlingVelocity := DEFAULT_MIN_FLING_VELOCITY;
      minDistRequestDisallowParent := if attrs.Some? then DEFAULT_MIN_DIST_REQUEST_DISALLOW_PARENT else 0;
      this.children := children;
      this.padding := padding;
      slots := Slots(None, None, None);
      rectMainClose, rectMainOpen, rectRightClose := EMPTY, EMPTY, EMPTY;
      rectRightOpen, rectLeftClose, rectLeftOpen := EMPTY, EMPTY, EMPTY;
      isOpen, isScrolling, isDragLocked, hasDisallowed := false, false, false, false;
      dragDist, prevX := 0, -1;
      slideTarget := None;
      measuredWidth, measuredHeight := 0, 0;
    }

    /**
     * `onFinishInflate`, which the toolkit calls once, before any slot is
     * assigned: assigns the view slots by child count; any other count
     * assigns none.
     */
    method OnFinishInflate()
      requires Valid() && slots == Slots(None, None, None)
      modifies this`slots
      ensures Valid()
      ensures slots == InflatedSlots(|children|)
    {
      var count := |children|;
      if count == 3 {
        slots := slots.(right := Some(0), left := Some(1), main := Some(2));
      } else if count == 2 {
        slots := slots.(right := Some(0), main := Some(1));
      } else if count == 1 {
        slots := slots.(main := Some(0));
      }
    }

    /**
     * The shared body of `open` and `close` after the flag is set: slide the
     * main view to `main`, or abort the drag helper and lay the views out at
     * the given rectangles.
     */
    method Reposition(animation: bool, main: Rect, right: Rect, left: Rect) returns (o: Outcome)
      modifies this`children, this`slideTarget
      ensures |children| == |old(children)|
      ensures animation ==> children == old(children)
      ensures o.Pass? <==> old(CanReposition(animation))
      ensures o.Pass? && animation ==> slideTarget == Some((main.left, main.top)) && children == old(children)
      ensures o.Pass? && !animation ==>
        slideTarget == None && children == Apply(old(children), slots, dragEdge, main, right, left)
    {
      var views := CurrentViews();
      if animation {
        if views.main.None? {
          return Fail(MissingView(MainView));
        }
        slideTarget := Some((main.left, main.top));
      } else {
        slideTarget := None;
        if views.main.None? {
          return Fail(MissingView(MainView));
        }
        children := Place(children, slots.main, main);
        if HasRightBit(dragEdge) {
          if views.right.None? {
            return Fail(MissingView(RightView));
          }
          children := Place(children, slots.right, right);
        }
        if dragEdge == LEFT_VIEW_GUARD {
          if views.left.None? {
            return Fail(MissingView(LeftView));
          }
          children := Place(children, slots.left, left);
        }
      }
      o := Pass;
    }

    /** `open`: marks the layout open, moves the views to their open rectangles and locks the drag. */
    method Open(animation: bool) returns (o: Outcome)
      requires Valid()
      modifies this`isOpen, this`isDragLocked, this`children, this`slideTarget
      ensures isOpen && |children| == |old(children)|
      ensures animation ==> children == old(children)
      ensures o.Pass? <==> old(CanReposition(animation))
      ensures o.Pass? ==> Valid() && isDragLocked
      ensures o.Fail? ==> isDragLocked == old(isDragLocked)
      ensures o.Pass? && animation ==>
        slideTarget == Some((rectMainOpen.left, rectMainOpen.top)) && children == old(children)
      ensures o.Pass? && !animation ==>
        slideTarget == None && children == Apply(old(children), slots, dragEdge, rectMainOpen, rectRightOpen, rectLeftOpen)
    {
      isOpen := true;
      o := Reposition(animation, rectMainOpen, rectRightOpen, rectLeftOpen);
      if o.Pass? {
        isDragLocked := true;
      }
    }

    /** `close`: marks the layout closed, moves the views to their closed rectangles and unlocks the drag. */
    method Close(animation: bool) returns (o: Outcome)
      requires Valid()
      modifies this`isOpen, this`isDragLocked, this`children, this`slideTarget
      ensures !isOpen && |children| == |old(children)|
      ensures animation ==> children == old(children)
      ensures o.Pass? <==> old(CanReposition(animation))
      ensures o.Pass? ==> Valid() && !isDragLocked
      ensures o.Fail? ==> isDragLocked == old(isDragLocked)
      ensures o.Pass? && animation ==>
        slideTarget == Some((rectMainClose.left, rectMainClose.top)) && children == old(children)
      ensures o.Pass? && !animation ==>
        slideTarget == None && children == Apply(old(children), slots, dragEdge, rectMainClose, rectRightClose, rectLeftClose)
    {
      isOpen := false;
      o := Reposition(animation, rectMainClose, rectRightClose, rectLeftClose);
      if o.Pass? {
        isDragLocked := false;
      }
    }

    /** `resetLayout`: closes an open layout without animation. */
    method ResetLayout() returns (o: Outcome)
      requires Valid()
      modifies this`isOpen, this`isDragLocked, this`children, this`slideTarget
      ensures !isOpen
      ensures o.Pass? ==> Valid() && !isDragLocked
      ensures !old(isOpen) ==> o.Pass? && children == old(children) && slideTarget == old(slideTarget)
      ensures old(isOpen) ==> (o.Pass? <==> old(CanReposition(false)))
    {
      o := Pass;
      if isOpen {
        o := Close(false);
      }
    }

    /** `initRects`: records the closed and open rectangles from the views' current bounds. */
    method InitRects() returns (o: Outcome)
      requires Valid()
      modifies this`rectMainClose, this`rectMainOpen, this`rectRightClose, this`rectRightOpen,
               this`rectLeftClose, this`rectLeftOpen
      ensures Valid()
      ensures var r := RectsAfterInit(dragEdge, CurrentViews(), dragDist, old(CurrentRects()));
        (o.Pass? <==> r.Ok?) && (r.Ok? ==> CurrentRects() == r.value)
    {
      var views := CurrentViews();
      if views.main.None? {
        return Fail(MissingView(MainView));
      }
      rectMainClose := views.main.value;
      var mainOpen := MainOpenRect(dragEdge, rectMainClose, views, dragDist);
      if mainOpen.Failure? {
        return Fail(mainOpen.error);
      }
      rectMainOpen := mainOpen.value;
      if HasRightBit(dragEdge) {
        if views.right.None? {
          return Fail(MissingView(RightView));
        }
        var right := views.right.value;
        rectRightClose := right;
        rectRightOpen := Rect(rectRightClose.left, rectRightClose.top,
                              rectRightClose.left + right.Width(), rectRightClose.top + right.Height());
      }
      if dragEdge == LEFT_VIEW_GUARD {
        if views.left.None? {
          return Fail(MissingView(LeftView));
        }
        var leftView := views.left.value;
        rectLeftClose := leftView;
        rectLeftOpen := Rect(rectLeftClose.left, rectRightClose.top,
                             rectLeftClose.left + leftView.Width(), rectRightClose.top + leftView.Height());
      }
      o := Pass;
    }

    /** The loop of `onLayout`: each child gets the bounds its index and the edge call for. */
    method LayoutChildren(f: Frame)
      modifies this`children
      ensures children == LaidOut(dragEdge, f, padding, old(children))
    {
      ghost var laid := LaidOut(dragEdge, f, padding, children);
      var index := 0;
      while index < |children|
        invariant 0 <= index <= |children| == |laid|
        invariant forall j :: 0 <= j < index ==> children[j] == laid[j]
        invariant forall j :: index <= j < |children| ==> children[j] == old(children)[j]
      {
        children := children[index := LayoutChild(dragEdge, index, f, padding, children[index])];
        index := index + 1;
      }
      assert children == laid;
    }

    /**
     * `onLayout`: lays every child out, records the rectangles, then puts the
     * views in the open or closed position the layout was in before.
     */
    method OnLayout(f: Frame) returns (o: Outcome)
      requires Valid()
      modifies this`children, this`rectMainClose, this`rectMainOpen, this`rectRightClose, this`rectRightOpen,
               this`rectLeftClose, this`rectLeftOpen, this`isOpen, this`isDragLocked, this`slideTarget
      ensures var laid := LaidOut(dragEdge, f, padding, old(children));
        var r := RectsAfterInit(dragEdge, ViewsOf(laid, slots), dragDist, old(CurrentRects()));
        (o.Pass? <==> r.Ok?) &&
        (o.Pass? ==>
           Valid() && isOpen == old(isOpen) && CurrentRects() == r.value && slideTarget == None &&
           children == (if isOpen then Apply(laid, slots, dragEdge, rectMainOpen, rectRightOpen, rectLeftOpen)
                        else Apply(laid, slots, dragEdge, rectMainClose, rectRightClose, rectLeftClose)))
    {
      LayoutChildren(f);
      o := SettleLayout();
    }

    /** The end of `onLayout`: `initRects`, then `open(false)` or `close(false)` by the current state. */
    method SettleLayout() returns (o: Outcome)
      requires Valid()
      modifies this`children, this`rectMainClose, this`rectMainOpen, this`rectRightClose, this`rectRightOpen,
               this`rectLeftClose, this`rectLeftOpen, this`isOpen, this`isDragLocked, this`slideTarget
      ensures var r := RectsAfterInit(dragEdge, old(CurrentViews()), dragDist, old(CurrentRects()));
        (o.Pass? <==> r.Ok?) &&
        (o.Pass? ==>
           Valid() && isOpen == old(isOpen) && CurrentRects() == r.value && slideTarget == None &&
           children == (if isOpen then Apply(old(children), slots, dragEdge, rectMainOpen, rectRightOpen, rectLeftOpen)
                        else Apply(old(children), slots, dragEdge, rectMainClose, rectRightClose, rectLeftClose)))
    {
      o := InitRects();
      if o.Fail? {
        return;
      }
      o := RestorePosition();
    }

    /** `open(false)` or `close(false)`, by the current state. */
    method RestorePosition() returns (o: Outcome)
      requires Valid() && CanReposition(false)
      modifies this`isOpen, this`isDragLocked, this`children, this`slideTarget
      ensures o.Pass? && Valid() && isOpen == old(isOpen) && slideTarget == None
      ensures children == (if isOpen then Apply(old(children), slots, dragEdge, rectMainOpen, rectRightOpen, rectLeftOpen)
                           else Apply(old(children), slots, dragEdge, rectMainClose, rectRightClose, rectLeftClose))
    {
      if isOpen {
        o := Open(false);
      } else {
        o := Close(false);
      }
    }

    /** `onMeasure`: sets the measured dimension, or raises with fewer than two children. */
    method OnMeasure(first: seq<Size>, second: seq<Size>, widthMode: MeasureMode, heightMode: MeasureMode,
                     params: LayoutParams) returns (r: Result<Size>)
      requires |first| == |children| && |second| == |children|
      modifies this`measuredWidth, this`measuredHeight
      ensures |children| < 2 ==> r == Failure(TooFewChildren)
      ensures |children| >= 2 ==> r == Ok(MeasuredDimension(first, second, widthMode, heightMode, padding, params))
      ensures r.Ok? ==> measuredWidth == r.value.width && measuredHeight == r.value.height
      ensures r.Failure? ==> measuredWidth == old(measuredWidth) && measuredHeight == old(measuredHeight)
    {
      r := Measure(first, second, widthMode, heightMode, padding, params);
      if r.Ok? {
        measuredWidth, measuredHeight := r.value.width, r.value.height;
      }
    }

    /** `accumulateDragDist`. */
    method AccumulateDragDist(ev: TouchEvent)
      modifies this`dragDist
      ensures dragDist == AccumulateStep(old(dragDist), prevX, ev)
    {
      if ev.action == Down {
        dragDist := 0;
        return;
      }
      var signedDraggedDistance := ev.x - prevX;
      dragDist := dragDist + signedDraggedDistance;
    }

    /**
     * `onInterceptTouchEvent`, after the drag helper and the gesture detector
     * have seen the event (their effect is `dragState` and `isScrolling`).
     * A tap on the open, locked main view closes it and defers to the
     * superclass (`superResult`); otherwise the drag distance is updated and
     * the event is intercepted unless it could still become a click.
     */
    method OnInterceptTouchEvent(ev: TouchEvent, dragState: DragState, touchSlop: int, superResult: bool)
      returns (r: Result<bool>)
      requires Valid()
      modifies this`dragDist, this`prevX, this`isOpen, this`isDragLocked, this`children, this`slideTarget
      ensures Valid() && children == old(children)
      ensures var main := old(CurrentViews()).main;
        old(isDragLocked) && main.None? ==>
          r == Failure(MissingView(MainView)) && dragDist == old(dragDist) && prevX == old(prevX) &&
          isOpen == old(isOpen) && slideTarget == old(slideTarget)
      ensures var main := old(CurrentViews()).main;
        old(isDragLocked) && main.Some? && Contains(main.value, ev.x, ev.y) && old(isOpen) ==>
          r == Ok(superResult) && !isOpen && slideTarget == Some((rectMainClose.left, rectMainClose.top)) &&
          dragDist == old(dragDist) && prevX == old(prevX)
      ensures var main := old(CurrentViews()).main;
        !old(isDragLocked) || (main.Some? && !(Contains(main.value, ev.x, ev.y) && old(isOpen))) ==>
          isOpen == old(isOpen) && slideTarget == old(slideTarget) &&
          dragDist == AccumulateStep(old(dragDist), old(prevX), ev) &&
          (main.None? ==> r == Failure(MissingView(MainView)) && prevX == old(prevX)) &&
          (main.Some? ==>
             prevX == ev.x &&
             r == Ok(InterceptDecision(CouldBecomeClick(main.value, ev, dragDist, touchSlop), dragState, isScrolling)))
    {
      var main := CurrentViews().main;
      if isDragLocked {
        if main.None? {
          return Failure(MissingView(MainView));
        }
        if Contains(main.value, ev.x, ev.y) && isOpen {
          var o := Close(true);
          return Ok(superResult);
        }
      }
      AccumulateDragDist(ev);
      if main.None? {
        return Failure(MissingView(MainView));
      }
      var couldBecomeClick := CouldBecomeClick(main.value, ev, dragDist, touchSlop);
      prevX := ev.x;
      r := Ok(InterceptDecision(couldBecomeClick, dragState, isScrolling));
    }

    /**
     * `onViewReleased` with the horizontal velocity already in dp per second:
     * refreshes `rectMainOpen`, then opens or closes with animation by the
     * release rule of the edge.
     */
    method OnViewReleased(xvelDp: int) returns (o: Outcome)
      requires Valid()
      modifies this`rectMainOpen, this`isOpen, this`isDragLocked, this`children, this`slideTarget
      ensures Valid() && children == old(children)
      ensures var views := old(CurrentViews());
        var pivot := HalfwayPivot(dragEdge, rectMainClose, views, dragDist);
        var openRect := MainOpenRect(dragEdge, rectMainClose, views, dragDist);
        (o.Pass? <==> pivot.Ok? && openRect.Ok?) &&
        (o.Fail? ==> rectMainOpen == old(rectMainOpen) && isOpen == old(isOpen) && slideTarget == old(slideTarget)) &&
        (o.Pass? ==>
           rectMainOpen == openRect.value &&
           match ReleaseDecision(dragEdge, dragDist, xvelDp, minFlingVelocity, views.main.value, pivot.value)
           case None => isOpen == old(isOpen) && slideTarget == old(slideTarget)
           case Some(OpenPanel) => isOpen && slideTarget == Some((rectMainOpen.left, rectMainOpen.top))
           case Some(ClosePanel) => !isOpen && slideTarget == Some((rectMainClose.left, rectMainClose.top)))
    {
      var views := CurrentViews();
      var pivot := HalfwayPivot(dragEdge, rectMainClose, views, dragDist);
      if pivot.Failure? {
        return Fail(pivot.error);
      }
      var openRect := MainOpenRect(dragEdge, rectMainClose, views, dragDist);
      if openRect.Failure? {
        return Fail(openRect.error);
      }
      rectMainOpen := openRect.value;
      var decision := ReleaseDecision(dragEdge, dragDist, xvelDp, minFlingVelocity, views.main.value, pivot.value);
      o := Pass;
      if decision == Some(OpenPanel) {
        o := Open(true);
      } else if decision == Some(ClosePanel) {
        o := Close(true);
      }
    }

    /** `tryCaptureView`: captures the main view unless locked, and always answers false. */
    method TryCaptureView() returns (r: Result<Capture>)
      ensures isDragLocked ==> r == Ok(Capture(false, false))
      ensures !isDragLocked ==> (r.Ok? <==> CurrentViews().main.Some?)
      ensures !isDragLocked && r.Ok? ==> r.value == Capture(false, true)
      ensures r.Ok? ==> !r.value.accepted
    {
      if isDragLocked {
        return Ok(Capture(false, false));
      }
      if CurrentViews().main.None? {
        return Failure(MissingView(MainView));
      }
      r := Ok(Capture(false, true));
    }

    /** `onEdgeDragStarted`: whether the main view is captured for a touch at `edgeFlags`. */
    method OnEdgeDragStarted(edgeFlags: int) returns (r: Result<bool>)
      ensures !EdgeDragCaptures(isDragLocked, dragEdge, edgeFlags) ==> r == Ok(false)
      ensures EdgeDragCaptures(isDragLocked, dragEdge, edgeFlags) ==>
        (r.Ok? <==> CurrentViews().main.Some?) && (r.Ok? ==> r.value)
    {
      if isDragLocked {
        return Ok(false);
      }
      var edgeStartLeft := dragEdge == DRAG_EDGE_RIGHT && edgeFlags == EDGE_LEFT;
      var edgeStartRight := dragEdge == DRAG_EDGE_LEFT && edgeFlags == EDGE_RIGHT;
      if edgeStartLeft || edgeStartRight {
        if CurrentViews().main.None? {
          return Failure(MissingView(MainView));
        }
        return Ok(true);
      }
      r := Ok(false);
    }

    /** The gesture listener's `onDown`. */
    method OnDown() returns (consumed: bool)
      modifies this`isScrolling, this`hasDisallowed
      ensures consumed && !isScrolling && !hasDisallowed
    {
      isScrolling := false;
      hasDisallowed := false;
      consumed := true;
    }

    /** The gesture listener's `onFling`. */
    method OnFling() returns (consumed: bool)
      modifies this`isScrolling
      ensures !consumed && isScrolling
    {
      isScrolling := true;
      consumed := false;
    }

    /**
     * The gesture listener's `onScroll`: marks the gesture as scrolling and,
     * when there is a parent, returns what it asks of
     * `requestDisallowInterceptTouchEvent`. Once it has disallowed the
     * parent it keeps doing so until the next `onDown`.
     */
    method OnScroll(hasParent: bool) returns (r: Result<Option<bool>>)
      modifies this`isScrolling, this`hasDisallowed
      ensures isScrolling
      ensures !hasParent ==> r == Ok(None) && hasDisallowed == old(hasDisallowed)
      ensures hasParent && old(hasDisallowed) ==> r == Ok(Some(true)) && hasDisallowed
      ensures hasParent && !old(hasDisallowed) ==>
        var d := DistToClosestEdge(dragEdge, rectMainClose, CurrentViews(), dragDist);
        (d.Failure? ==> r == Failure(d.error) && !hasDisallowed) &&
        (d.Ok? ==> r == Ok(Some(d.value >= minDistRequestDisallowParent)) &&
                   hasDisallowed == (d.value >= minDistRequestDisallowParent))
    {
      isScrolling := true;
      if !hasParent {
        return Ok(None);
      }
      var shouldDisallow: bool;
      if !hasDisallowed {
        var d := DistToClosestEdge(dragEdge, rectMainClose, CurrentViews(), dragDist);
        if d.Failure? {
          return Failure(d.error);
        }
        shouldDisallow := d.value >= minDistRequestDisallowParent;
        if shouldDisallow {
          hasDisallowed := true;
        }
      } else {
        shouldDisallow := true;
      }
      r := Ok(Some(shouldDisallow));
    }
  }
}
