/**
 * The parts of the host UI toolkit that the layout reads: child views as
 * integer rectangles, touch events, the drag helper's state, measure modes,
 * and the exceptions a missing child view raises.
 */
module Platform {
  import opened Geometry

  datatype Option<T> = None | Some(value: T)

  /** `dragFromEdge` attribute values, identical in both revisions. */
  const DRAG_EDGE_LEFT: int := 0x1
  const DRAG_EDGE_RIGHT: int := 0x2

  /** Defaults both revisions install when styled attributes are present. */
  const DEFAULT_MIN_FLING_VELOCITY: int := 300
  const DEFAULT_MIN_DIST_REQUEST_DISALLOW_PARENT: int := 1

  /** `ViewDragHelper.EDGE_LEFT` and `ViewDragHelper.EDGE_RIGHT`. */
  const EDGE_LEFT: int := 1
  const EDGE_RIGHT: int := 2

  /** `LayoutParams.MATCH_PARENT`. */
  const MATCH_PARENT: int := -1

  /**
   * `(edge and DRAG_EDGE_RIGHT) != 0` on a 32-bit two's complement `Int`:
   * bit 1 of the value. Dafny's Euclidean `%` yields the two low bits of a
   * negative number exactly as two's complement does.
   */
  predicate HasRightBit(edge: int)
  {
    edge % 4 >= 2
  }

  /** The three child slots the layout keeps references to. */
  datatype Slot = MainView | RightView | LeftView

  /**
   * The exceptions the layout can raise: a slot read before it was assigned
   * (Kotlin `lateinit`, Java `null`), and `onMeasure`'s runtime error.
   */
  datatype Error = MissingView(slot: Slot) | TooFewChildren

  datatype Result<T> = Ok(value: T) | Failure(error: Error)
  {
    predicate IsFailure() { Failure? }

    function PropagateFailure<U>(): Result<U>
      requires Failure?
    {
      Failure(error)
    }

    function Extract(): T
      requires Ok?
    {
      value
    }
  }

  /** The completion of a state-changing callback: normal, or by an exception. */
  datatype Outcome = Pass | Fail(error: Error)

  /** Reads a slot's bounds, raising `MissingView` when it was never assigned. */
  function Need(v: Option<Rect>, slot: Slot): (r: Result<Rect>)
    ensures r.Ok? <==> v.Some?
    ensures r.Ok? ==> r.value == v.value
    ensures r.Failure? ==> r.error == MissingView(slot)
  {
    if v.Some? then Ok(v.value) else Failure(MissingView(slot))
  }

  /** Child indices that `onFinishInflate` stored in the three slots. */
  datatype Slots = Slots(main: Option<nat>, right: Option<nat>, left: Option<nat>)

  /** Every assigned slot names one of `count` children. */
  predicate SlotsWithin(s: Slots, count: nat)
  {
    (s.main.Some? ==> s.main.value < count) &&
    (s.right.Some? ==> s.right.value < count) &&
    (s.left.Some? ==> s.left.value < count)
  }

  /** No two slots hold the same child. */
  predicate SlotsDistinct(s: Slots)
  {
    (s.main.Some? && s.right.Some? ==> s.main != s.right) &&
    (s.main.Some? && s.left.Some? ==> s.main != s.left) &&
    (s.right.Some? && s.left.Some? ==> s.right != s.left)
  }

  /** The current bounds of the views held in the three slots. */
  datatype Views = Views(main: Option<Rect>, right: Option<Rect>, left: Option<Rect>)

  function ViewIn(views: Views, slot: Slot): Option<Rect>
  {
    match slot
    case MainView => views.main
    case RightView => views.right
    case LeftView => views.left
  }

  /** A child's `width`/`height` layout parameters. */
  datatype LayoutParams = LayoutParams(width: int, height: int)

  /** A child view: its laid-out bounds, its measured size and its layout parameters. */
  datatype View = View(bounds: Rect, measuredWidth: int, measuredHeight: int, params: Option<LayoutParams>)

  function SlotBounds(children: seq<View>, slot: Option<nat>): Option<Rect>
  {
    if slot.Some? && slot.value < |children| then Some(children[slot.value].bounds) else None
  }

  function ViewsOf(children: seq<View>, slots: Slots): Views
  {
    Views(SlotBounds(children, slots.main), SlotBounds(children, slots.right), SlotBounds(children, slots.left))
  }

  /** `View.layout(r)` on the child in `slot`; no child there, nothing moves. */
  function Place(children: seq<View>, slot: Option<nat>, r: Rect): (cs: seq<View>)
    ensures |cs| == |children|
    ensures slot.Some? && slot.value < |children| ==> cs[slot.value] == children[slot.value].(bounds := r)
    ensures forall i :: 0 <= i < |children| && slot != Some(i) ==> cs[i] == children[i]
  {
    if slot.Some? && slot.value < |children|
    then children[slot.value := children[slot.value].(bounds := r)]
    else children
  }

  /** The six closed/open rectangles of the main, right and left views. */
  datatype Rects = Rects(mainClose: Rect, mainOpen: Rect, rightClose: Rect, rightOpen: Rect,
                         leftClose: Rect, leftOpen: Rect)

  const NO_RECTS: Rects := Rects(EMPTY, EMPTY, EMPTY, EMPTY, EMPTY, EMPTY)

  /** `ViewDragHelper.STATE_IDLE`, `STATE_DRAGGING`, `STATE_SETTLING`. */
  datatype DragState = Idle | Dragging | Settling

  /** Only `ACTION_DOWN` is told apart by the layout. */
  datatype Action = Down | Move | Up | Cancel

  /** A touch event; coordinates are integers rather than floats. */
  datatype TouchEvent = TouchEvent(action: Action, x: int, y: int)

  /** `MeasureSpec` modes. */
  datatype MeasureMode = Unspecified | Exactly | AtMost

  datatype Size = Size(width: int, height: int)

  /** The `l, t, r, b` arguments of `onLayout`. */
  datatype Frame = Frame(l: int, t: int, r: int, b: int)

  /** The container's padding. */
  datatype Padding = Padding(left: int, top: int, right: int, bottom: int)

  /** Styled attributes given to the layout: the optional `dragFromEdge` value. */
  datatype Attributes = Attributes(dragFromEdge: Option<int>)

  /** What a release asks of the layout. */
  datatype Decision = OpenPanel | ClosePanel

  /** What `tryCaptureView` does: its return value, and whether it captured the main view itself. */
  datatype Capture = Capture(accepted: bool, capturesMain: bool)
}
