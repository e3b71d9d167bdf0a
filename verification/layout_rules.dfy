/**
 * Layout and measure rules that both revisions share: where `onLayout` puts a
 * child, how `match_parent` children are resized, and how `onMeasure` turns
 * the children's measured sizes into the container's size.
 */
module LayoutRules {
  import opened Geometry
  import opened Platform

  // ------------------------------------------------------------- onLayout

  function MaxRight(f: Frame, p: Padding): int { Max(f.r - p.right - f.l, 0) }

  function MaxBottom(f: Frame, p: Padding): int { Max(f.b - p.bottom - f.t, 0) }

  /** The size `onLayout` gives a child, and its layout parameters afterwards. */
  datatype Extent = Extent(width: int, height: int, params: Option<LayoutParams>)

  /**
   * A `match_parent` dimension takes the padded frame's size, and that size
   * is written back into the child's layout parameters; any other dimension
   * keeps the measured size.
   */
  function MatchParentExtent(v: View, f: Frame, p: Padding): (e: Extent)
    ensures e.params.Some? <==> v.params.Some?
    ensures v.params.Some? && v.params.value.height == MATCH_PARENT ==>
      e.height == MaxBottom(f, p) - p.top && e.params.value.height == e.height
    ensures v.params.Some? && v.params.value.width == MATCH_PARENT ==>
      e.width == MaxRight(f, p) - p.left && e.params.value.width == e.width
    ensures (v.params.None? || v.params.value.height != MATCH_PARENT) ==>
      e.height == v.measuredHeight && (e.params.Some? ==> e.params.value.height == v.params.value.height)
    ensures (v.params.None? || v.params.value.width != MATCH_PARENT) ==>
      e.width == v.measuredWidth && (e.params.Some? ==> e.params.value.width == v.params.value.width)
  {
    var matchParentHeight := v.params.Some? && v.params.value.height == MATCH_PARENT;
    var matchParentWidth := v.params.Some? && v.params.value.width == MATCH_PARENT;
    var h := if matchParentHeight then MaxBottom(f, p) - p.top else v.measuredHeight;
    var w := if matchParentWidth then MaxRight(f, p) - p.left else v.measuredWidth;
    var params :=
      if v.params.Some?
      then Some(LayoutParams(if matchParentWidth then w else v.params.value.width,
                             if matchParentHeight then h else v.params.value.height))
      else None;
    Extent(w, h, params)
  }

  /**
   * Bounds of a child anchored at the left padding (the DRAG_EDGE_LEFT case):
   * every coordinate is capped by the padded frame's right and bottom, and a
   * child that fits starts at the padding and keeps its size.
   */
  function LeftAlignedBounds(f: Frame, p: Padding, w: int, h: int): (r: Rect)
    ensures r.left <= MaxRight(f, p) && r.right <= MaxRight(f, p)
    ensures r.top <= MaxBottom(f, p) && r.bottom <= MaxBottom(f, p)
    ensures w >= 0 ==> r.left <= r.right
    ensures h >= 0 ==> r.top <= r.bottom
    ensures p.left <= MaxRight(f, p) ==> r.left == p.left
    ensures w >= 0 && p.left + w <= MaxRight(f, p) ==> r.Width() == w
    ensures h >= 0 && p.top + h <= MaxBottom(f, p) ==> r.top == p.top && r.Height() == h
  {
    var maxRight := MaxRight(f, p);
    var maxBottom := MaxBottom(f, p);
    Rect(Min(p.left, maxRight), Min(p.top, maxBottom), Min(w + p.left, maxRight), Min(h + p.top, maxBottom))
  }

  /**
   * Bounds of a child anchored at the right padding (the DRAG_EDGE_RIGHT
   * case): it ends at the padded frame's right, left and right never fall
   * below the left padding, top and bottom are capped by the padded frame's
   * bottom, and a child that fits keeps its size.
   */
  function RightAlignedBounds(f: Frame, p: Padding, w: int, h: int): (r: Rect)
    ensures r.left >= p.left && r.right >= p.left
    ensures r.top <= MaxBottom(f, p) && r.bottom <= MaxBottom(f, p)
    ensures w >= 0 ==> r.left <= r.right
    ensures h >= 0 ==> r.top <= r.bottom
    ensures w >= 0 && f.r - p.right - f.l - w >= p.left ==> r.Width() == w
    ensures f.r - p.right - f.l >= p.left ==> r.right == f.r - p.right - f.l
    ensures f.r - p.right - f.l < p.left ==> r.right == p.left
    ensures h >= 0 && p.top + h <= MaxBottom(f, p) ==> r.top == p.top && r.Height() == h
  {
    var maxBottom := MaxBottom(f, p);
    Rect(Max(f.r - w - p.right - f.l, p.left), Min(p.top, maxBottom),
         Max(f.r - p.right - f.l, p.left), Min(h + p.top, maxBottom))
  }

  // ------------------------------------------------------------ onMeasure

  datatype Axis = Horizontal | Vertical

  function AlongAxis(s: Size, a: Axis): int
  {
    match a
    case Horizontal => s.width
    case Vertical => s.height
  }

  /** The largest of `init` and the sizes along `a`: `desired = max(child.measured, desired)` in a loop. */
  function Largest(s: seq<Size>, a: Axis, init: int): (m: int)
    ensures m >= init
    ensures forall i :: 0 <= i < |s| ==> AlongAxis(s[i], a) <= m
    ensures m == init || exists i :: 0 <= i < |s| && m == AlongAxis(s[i], a)
    decreases |s|
  {
    if s == [] then init
    else Max(AlongAxis(s[|s| - 1], a), Largest(s[..|s| - 1], a, init))
  }

  /**
   * One dimension's final size: `measured` is the size of the rebuilt
   * `MeasureSpec`, `desired` the padded content size.
   */
  function ResolveSize(mode: MeasureMode, measured: int, desired: int, matchParent: bool): (r: int)
    ensures mode == Exactly ==> r == measured
    ensures mode == AtMost ==> r <= measured
    ensures mode != Exactly && matchParent ==> r == measured
    ensures mode == AtMost && !matchParent ==> r == Min(desired, measured)
    ensures mode == Unspecified && !matchParent ==> r == desired
  {
    if mode == Exactly then measured
    else
      var d := if matchParent then measured else desired;
      if mode == AtMost then (if d > measured then measured else d) else d
  }

  /**
   * The size `onMeasure` sets, given the children's measured sizes after the
   * first and the second `measureChild` pass. The rebuilt `MeasureSpec` carries the
   * first pass's largest child, so that is the size `EXACTLY` and `AT_MOST`
   * resolve against.
   */
  function MeasuredDimension(first: seq<Size>, second: seq<Size>, widthMode: MeasureMode,
                             heightMode: MeasureMode, pad: Padding, params: LayoutParams): (r: Size)
    ensures widthMode == Exactly ==> r.width == Largest(first, Horizontal, 0)
    ensures heightMode == Exactly ==> r.height == Largest(first, Vertical, 0)
    ensures widthMode == AtMost ==> r.width <= Largest(first, Horizontal, 0)
    ensures heightMode == AtMost ==> r.height <= Largest(first, Vertical, 0)
    ensures widthMode == AtMost && pad.left + pad.right >= 0 ==> r.width == Largest(first, Horizontal, 0)
    ensures heightMode == AtMost && pad.top + pad.bottom >= 0 ==> r.height == Largest(first, Vertical, 0)
    ensures widthMode == Unspecified && params.width != MATCH_PARENT && pad.left + pad.right >= 0 ==>
      forall i :: 0 <= i < |second| ==> second[i].width <= r.width
    ensures heightMode == Unspecified && params.height != MATCH_PARENT && pad.top + pad.bottom >= 0 ==>
      forall i :: 0 <= i < |second| ==> second[i].height <= r.height
  {
    var measuredWidth := Largest(first, Horizontal, 0);
    var measuredHeight := Largest(first, Vertical, 0);
    var desiredWidth := Largest(second, Horizontal, measuredWidth) + pad.left + pad.right;
    var desiredHeight := Largest(second, Vertical, measuredHeight) + pad.top + pad.bottom;
    Size(ResolveSize(widthMode, measuredWidth, desiredWidth, params.width == MATCH_PARENT),
         ResolveSize(heightMode, measuredHeight, desiredHeight, params.height == MATCH_PARENT))
  }

  /**
   * One `for (i in 0 until childCount)` pass of `onMeasure` over the
   * children's measured sizes: `desired = max(child.measured, desired)`.
   */
  method LargestChild(s: seq<Size>, initWidth: int, initHeight: int) returns (desiredWidth: int, desiredHeight: int)
    ensures desiredWidth == Largest(s, Horizontal, initWidth)
    ensures desiredHeight == Largest(s, Vertical, initHeight)
  {
    desiredWidth, desiredHeight := initWidth, initHeight;
    var i := 0;
    while i < |s|
      invariant 0 <= i <= |s|
      invariant desiredWidth == Largest(s[..i], Horizontal, initWidth)
      invariant desiredHeight == Largest(s[..i], Vertical, initHeight)
    {
      assert s[..i + 1][..i] == s[..i];
      desiredWidth := Max(s[i].width, desiredWidth);
      desiredHeight := Max(s[i].height, desiredHeight);
      i := i + 1;
    }
    assert s[..i] == s;
  }

  /**
   * `onMeasure`'s computation: fails with fewer than two children, otherwise
   * takes the largest child over both measuring passes and resolves each
   * dimension against its mode. `first` and `second` are the children's
   * measured sizes after each `measureChild` pass.
   */
  method Measure(first: seq<Size>, second: seq<Size>, widthMode: MeasureMode, heightMode: MeasureMode,
                 pad: Padding, params: LayoutParams) returns (r: Result<Size>)
    requires |second| == |first|
    ensures |first| < 2 ==> r == Failure(TooFewChildren)
    ensures |first| >= 2 ==> r == Ok(MeasuredDimension(first, second, widthMode, heightMode, pad, params))
  {
    if |first| < 2 {
      return Failure(TooFewChildren);
    }
    var desiredWidth, desiredHeight := LargestChild(first, 0, 0);
    var measuredWidth := desiredWidth;
    var measuredHeight := desiredHeight;
    desiredWidth, desiredHeight := LargestChild(second, desiredWidth, desiredHeight);
    desiredWidth := desiredWidth + pad.left + pad.right;
    desiredHeight := desiredHeight + pad.top + pad.bottom;
    ghost var contentWidth, contentHeight := desiredWidth, desiredHeight;
    if widthMode == Exactly {
      desiredWidth := measuredWidth;
    } else {
      if params.width == MATCH_PARENT {
        desiredWidth := measuredWidth;
      }
      if widthMode == AtMost {
        desiredWidth := if desiredWidth > measuredWidth then measuredWidth else desiredWidth;
      }
    }
    assert desiredWidth == ResolveSize(widthMode, measuredWidth, contentWidth, params.width == MATCH_PARENT);
    if heightMode == Exactly {
      desiredHeight := measuredHeight;
    } else {
      if params.height == MATCH_PARENT {
        desiredHeight := measuredHeight;
      }
      if heightMode == AtMost {
        desiredHeight := if desiredHeight > measuredHeight then measuredHeight else desiredHeight;
      }
    }
    assert desiredHeight == ResolveSize(heightMode, measuredHeight, contentHeight, params.height == MATCH_PARENT);
    r := Ok(Size(desiredWidth, desiredHeight));
  }
}
