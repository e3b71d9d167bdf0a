# Swipe-reveal layout, modelled in Dafny

`SwipeRevealLayout` is an Android `ViewGroup`. It stacks a main view over one
or two secondary views (a right view, and in the Kotlin revision a left view).
The user drags the main view sideways to reveal a secondary view. When the
drag ends, the main view snaps fully open or fully closed, according to the
fling velocity or to where the main view is against a halfway pivot. The
repository has two revisions of the same class:

- `SwipeRevealLayout.kt`: up to three children, and a `dragFromEdge` of left, right or both;
- `SwipeRevealLayout.java`: two children, and a `dragFromEdge` of left or right.

The model keeps the source's form:

- Integer rectangles stand in for `android.graphics.Rect` and view bounds (`Geometry`).
- The toolkit's inputs are datatypes (`Platform`): child views, slots, touch events, measure modes.
- A missing child view is an error value, not an exception: `MissingView(slot)` for a `lateinit` or `null` slot, `TooFewChildren` for `onMeasure`'s runtime error.
- The getters and pure helpers the two revisions share (clamps, edge distances, release rules, layout and measure arithmetic) are functions in `DragRules` and `LayoutRules`.
- Each revision has its own module (`KotlinRevision`, `JavaRevision`). In it, the getters are functions of the fields' values, and the class `SwipeRevealLayout` has the mutable fields. Its callbacks (`open`, `close`, `initRects`, `onLayout`, `onMeasure`, `onInterceptTouchEvent`, `onViewReleased`, the gesture listener) are methods with `modifies` frames over the fields they assign.
- The `onLayout` and `onMeasure` loops are `while` loops with invariants. They are proved against the functions `LaidOut` and `Largest`.
- `KotlinProperties` and `JavaProperties` hold the lemmas that relate several operations.

The Kotlin revision's quirks are modelled as written:

- The guard `dragEdge == DRAG_EDGE_LEFT and DRAG_EDGE_RIGHT` compares the edge with `1 and 2`, which is 0. So the left view is positioned only for edge 0, an edge no other branch knows.
- `distToClosestEdge` computes the left-edge distance but does not return it, so a left-edge layout always reports 0.
- The left-to-right halfway pivot is `rectMainClose.right + width / 2`, measured from the closed RIGHT edge.
- `tryCaptureView` captures the main view but always answers `false`.

`LeftToRightReleaseQuirk` proves what the pivot means. A release without a fling opens only once the main view's left has passed `rectMainClose.right + width / 2`. When the main view is wider than the revealed width minus `width / 2`, that point is beyond the main view's travel, so every release without a fling closes the panel.

Where the code and its description differ, the model follows the code. `onMeasure` rebuilds its `MeasureSpec` from the largest child of the first measuring pass. `EXACTLY` and `AT_MOST` therefore resolve against that size, not against the size the parent passed in (`MeasuredDimension`).

The Kotlin `draggingFromRightToLeft` tests `dragDist < 0`. The Java revision has only `draggingFromLeftToRight`, which tests the opposite direction (`dragDist > 0`) and is never called.

## Model

| member | source | states |
|---|---|---|
| Geometry.Half | app/src/main/java/me/markosullivan/swiperevealactionbuttons/SwipeRevealLayout.kt:245-246 | `width / 2` truncates toward zero: for a non-negative width the remainder is 0 or 1, for a negative one 0 or -1 |
| Platform.Need | app/src/main/java/me/markosullivan/swiperevealactionbuttons/SwipeRevealLayout.kt:31-41 | reading a view slot succeeds exactly when it was assigned, and fails with that slot's `MissingView` otherwise |
| Platform.Place | app/src/main/java/me/markosullivan/swiperevealactionbuttons/SwipeRevealLayout.kt:659-664 | `View.layout` changes only the bounds of the child in the slot, keeping its measured size and parameters, and leaves every other child as it was |
| DragRules.ClampForRightEdge | app/src/main/java/me/markosullivan/swiperevealactionbuttons/SwipeRevealLayout.kt:386-391 | the result lies between the open left `closeLeft - width` and `closeLeft`; a left already in range is kept, one beyond either end goes to that end |
| DragRules.ClampForLeftEdge | app/src/main/java/me/markosullivan/swiperevealactionbuttons/SwipeRevealLayout.kt:393-398 | the result lies between `closeLeft` and the open left `closeLeft + width`; a left already in range is kept, one beyond either end goes to that end |
| DragRules.DistForRightEdge | app/src/main/java/me/markosullivan/swiperevealactionbuttons/SwipeRevealLayout.kt:214-220 | the distance is the smaller of the distances from the main view's right to the closed and to the open right; within the travel it is between 0 and half the width, and 0 at either end |
| DragRules.DistForLeftEdge | app/src/main/java/me/markosullivan/swiperevealactionbuttons/SwipeRevealLayout.kt:222-228 | the distance is the smaller of the distances from the main view's left to the closed and to the open left; within the travel it is between 0 and half the width, and 0 at either end |
| DragRules.ReleaseForLeftEdge | app/src/main/java/me/markosullivan/swiperevealactionbuttons/SwipeRevealLayout.kt:354-368 | a panel revealed left to right opens exactly on a right fling, or without a left fling once the main view's left reaches the pivot |
| DragRules.ReleaseForRightEdge | app/src/main/java/me/markosullivan/swiperevealactionbuttons/SwipeRevealLayout.kt:370-384 | a panel revealed right to left opens exactly without a right fling and either on a left fling or once the main view's right is left of the pivot |
| DragRules.AccumulateStep | app/src/main/java/me/markosullivan/swiperevealactionbuttons/SwipeRevealLayout.kt:804-815 | a down event resets the distance to 0; any other event adds how far x moved since `prevX` |
| DragRules.CouldBecomeClick | app/src/main/java/me/markosullivan/swiperevealactionbuttons/SwipeRevealLayout.kt:785-802 | an event can become a click exactly when it lies inside the main view, borders included, and the drag distance is less than the touch slop either way |
| DragRules.PivotForRightEdge | app/src/main/java/me/markosullivan/swiperevealactionbuttons/SwipeRevealLayout.kt:245 | the right-to-left pivot lies within the main view's right-edge travel, at its midpoint rounded toward the closed side |
| DragRules.EdgeDragCaptures | app/src/main/java/me/markosullivan/swiperevealactionbuttons/SwipeRevealLayout.kt:328-342 | an edge touch captures the main view exactly when the layout is unlocked and the touch starts at the edge opposite the revealed panel |
| DragRules.InterceptDecision | app/src/main/java/me/markosullivan/swiperevealactionbuttons/SwipeRevealLayout.kt:441-450 | the event is intercepted exactly when it cannot become a click and the helper is settling, or idle after a scroll |
| DragRules.TrackWithoutDown | app/src/main/java/me/markosullivan/swiperevealactionbuttons/SwipeRevealLayout.kt:804-815 | without a down event, successive `accumulateDragDist` / `prevX` updates add up to the last x minus the starting `prevX` |
| DragRules.DragDistanceSinceDown | app/src/main/java/me/markosullivan/swiperevealactionbuttons/SwipeRevealLayout.kt:804-815 | across one gesture (a down event, then none), the drag distance is the latest x minus the down event's x |
| LayoutRules.MatchParentExtent | app/src/main/java/me/markosullivan/swiperevealactionbuttons/SwipeRevealLayout.kt:492-513 | a `match_parent` dimension takes the padded frame's size and writes it back into the layout parameters; any other dimension keeps the measured size |
| LayoutRules.LeftAlignedBounds | app/src/main/java/me/markosullivan/swiperevealactionbuttons/SwipeRevealLayout.kt:536-541 | a left-anchored child stays within the padded frame's right and bottom, is never inverted for a non-negative size, and, when it fits, starts at the left and top padding and keeps its measured width and height |
| LayoutRules.RightAlignedBounds | app/src/main/java/me/markosullivan/swiperevealactionbuttons/SwipeRevealLayout.kt:529-534 | a right-anchored child ends at the padded frame's right (or at the left padding when that is further right), never passes the left padding, stays within the padded bottom, and, when it fits, keeps its measured width and starts at the top padding with its measured height |
| LayoutRules.Largest | app/src/main/java/me/markosullivan/swiperevealactionbuttons/SwipeRevealLayout.kt:575-606 | the result is at least the initial value, at least every child's size, and equal to one of them |
| LayoutRules.ResolveSize | app/src/main/java/me/markosullivan/swiperevealactionbuttons/SwipeRevealLayout.kt:612-636 | `EXACTLY` takes the measured size; `AT_MOST` never exceeds it; `match_parent` takes it; otherwise `AT_MOST` takes the smaller of content and measured size, `UNSPECIFIED` the content size |
| LayoutRules.MeasuredDimension | app/src/main/java/me/markosullivan/swiperevealactionbuttons/SwipeRevealLayout.kt:575-638 | `EXACTLY`, and `AT_MOST` with non-negative padding, yield the first pass's largest child; `UNSPECIFIED` without `match_parent` fits every child of the second pass |
| LayoutRules.LargestChild | app/src/main/java/me/markosullivan/swiperevealactionbuttons/SwipeRevealLayout.kt:575-606 | the loop over the children computes `Largest` in each dimension |
| LayoutRules.Measure | app/src/main/java/me/markosullivan/swiperevealactionbuttons/SwipeRevealLayout.kt:560-639 | fewer than two children raise; otherwise the result is `MeasuredDimension` of both passes |
| KotlinRevision.InflatedSlots | app/src/main/java/me/markosullivan/swiperevealactionbuttons/SwipeRevealLayout.kt:453-469 | three children give right 0, left 1, main 2; two give right 0, main 1; one gives main 0; any other count assigns nothing; the slots are distinct and within range |
| KotlinRevision.MainOpenLeft | app/src/main/java/me/markosullivan/swiperevealactionbuttons/SwipeRevealLayout.kt:100-119 | for a known edge, the closed left moved by the revealed view's width (the left view only for both edges dragged left to right), failing exactly when that view is missing; 0 for any other edge |
| KotlinRevision.MainOpenTop | app/src/main/java/me/markosullivan/swiperevealactionbuttons/SwipeRevealLayout.kt:122-131 | the open main view keeps its closed top for left, right or both edges, and sits at 0 for any other edge |
| KotlinRevision.MainOpenRect | app/src/main/java/me/markosullivan/swiperevealactionbuttons/SwipeRevealLayout.kt:100-131 | the open main rectangle has the main view's size, at the closed top and `mainOpenLeft` for a known edge, at the origin otherwise; it fails exactly when a view it reads is missing |
| KotlinRevision.DistToClosestEdge | app/src/main/java/me/markosullivan/swiperevealactionbuttons/SwipeRevealLayout.kt:192-228 | right to left: the right-edge distance; both edges left to right: the left-edge distance with the left view; left edge: 0, after reading both views; unknown edge: 0 |
| KotlinRevision.PivotForLeftEdge | app/src/main/java/me/markosullivan/swiperevealactionbuttons/SwipeRevealLayout.kt:246 | the left-to-right pivot is the closed RIGHT edge plus half the width, rounded toward the closed side, so it lies between that edge and that edge plus the width |
| KotlinRevision.HalfwayPivot | app/src/main/java/me/markosullivan/swiperevealactionbuttons/SwipeRevealLayout.kt:232-246 | left edge: left formula with the right view; right edge: right formula; any other edge: the formula the drag direction picks; fails exactly when the view it halves is missing |
| KotlinRevision.Clamp | app/src/main/java/me/markosullivan/swiperevealactionbuttons/SwipeRevealLayout.kt:269-287 | for a known edge the result lies between the closed and the open left and keeps a left already in range; it fails exactly when the revealed view is missing; any other edge keeps the child's left |
| KotlinRevision.ReleaseDecision | app/src/main/java/me/markosullivan/swiperevealactionbuttons/SwipeRevealLayout.kt:305-324 | a release rule applies exactly for a known edge |
| KotlinRevision.RectsAfterInit | app/src/main/java/me/markosullivan/swiperevealactionbuttons/SwipeRevealLayout.kt:731-783 | the main view closes where it is and opens translated by the offset; the right rectangles are set only with the right bit and open where they close; the left ones only for edge 0; otherwise earlier values stay; fails exactly when a view read is missing |
| KotlinRevision.LayoutChild | app/src/main/java/me/markosullivan/swiperevealactionbuttons/SwipeRevealLayout.kt:489-544 | child 0 of a both-edges layout and every child of a right-edge layout get `RightAlignedBounds`, the other children of a left- or both-edges layout `LeftAlignedBounds`, of the `match_parent`-resolved size; unknown edges give an empty rectangle; measured size kept |
| KotlinRevision.LaidOut | app/src/main/java/me/markosullivan/swiperevealactionbuttons/SwipeRevealLayout.kt:475-545 | every child is laid out by its index, and the count is kept |
| KotlinRevision.Apply | app/src/main/java/me/markosullivan/swiperevealactionbuttons/SwipeRevealLayout.kt:656-683 | a non-animated open or close moves the main view, the right view only with the right bit, the left view only for edge 0, and no other child; the count is kept |
| KotlinRevision.SwipeRevealLayout.constructor | app/src/main/java/me/markosullivan/swiperevealactionbuttons/SwipeRevealLayout.kt:821-839 | default left edge, fling threshold 300, disallow distance 1 only with styled attributes; closed, unlocked, no slots, empty rectangles |
| KotlinRevision.SwipeRevealLayout.OnFinishInflate | app/src/main/java/me/markosullivan/swiperevealactionbuttons/SwipeRevealLayout.kt:453-469 | the slots become `InflatedSlots` of the child count |
| KotlinRevision.SwipeRevealLayout.Reposition | app/src/main/java/me/markosullivan/swiperevealactionbuttons/SwipeRevealLayout.kt:654-684 | with animation, a slide of the main view to the target; without, the views are laid out by `Apply`; fails exactly when a view it lays out is missing |
| KotlinRevision.SwipeRevealLayout.Open | app/src/main/java/me/markosullivan/swiperevealactionbuttons/SwipeRevealLayout.kt:650-687 | marks the layout open, moves to the open rectangles, and locks the drag when it completes |
| KotlinRevision.SwipeRevealLayout.Close | app/src/main/java/me/markosullivan/swiperevealactionbuttons/SwipeRevealLayout.kt:692-729 | marks the layout closed, moves to the closed rectangles, and unlocks the drag when it completes |
| KotlinRevision.SwipeRevealLayout.ResetLayout | app/src/main/java/me/markosullivan/swiperevealactionbuttons/SwipeRevealLayout.kt:251-255 | the layout ends closed; a closed one is untouched; an open one is closed without animation |
| KotlinRevision.SwipeRevealLayout.InitRects | app/src/main/java/me/markosullivan/swiperevealactionbuttons/SwipeRevealLayout.kt:731-783 | the six rectangles become `RectsAfterInit` of the current views and the earlier rectangles |
| KotlinRevision.SwipeRevealLayout.LayoutChildren | app/src/main/java/me/markosullivan/swiperevealactionbuttons/SwipeRevealLayout.kt:475-545 | the loop leaves the children equal to `LaidOut` of the old children |
| KotlinRevision.SwipeRevealLayout.OnLayout | app/src/main/java/me/markosullivan/swiperevealactionbuttons/SwipeRevealLayout.kt:474-555 | lays out, records the rectangles, and puts the views back in the open or closed position the layout was in; the open state is kept |
| KotlinRevision.SwipeRevealLayout.SettleLayout | app/src/main/java/me/markosullivan/swiperevealactionbuttons/SwipeRevealLayout.kt:547-553 | `initRects`, then the non-animated `open` or `close` that matches the current state |
| KotlinRevision.SwipeRevealLayout.RestorePosition | app/src/main/java/me/markosullivan/swiperevealactionbuttons/SwipeRevealLayout.kt:549-553 | with every view present, the views move to the open or closed rectangles by the current state |
| KotlinRevision.SwipeRevealLayout.OnMeasure | app/src/main/java/me/markosullivan/swiperevealactionbuttons/SwipeRevealLayout.kt:560-639 | sets the measured size to `MeasuredDimension`, or raises with fewer than two children and keeps the old size |
| KotlinRevision.SwipeRevealLayout.AccumulateDragDist | app/src/main/java/me/markosullivan/swiperevealactionbuttons/SwipeRevealLayout.kt:804-815 | a down event resets the distance; any other event adds `x - prevX` |
| KotlinRevision.SwipeRevealLayout.OnInterceptTouchEvent | app/src/main/java/me/markosullivan/swiperevealactionbuttons/SwipeRevealLayout.kt:432-451 | a tap on the open, locked main view closes it with animation and defers to the superclass; otherwise the distance is updated, `prevX` set, and the result is `InterceptDecision` |
| KotlinRevision.SwipeRevealLayout.OnViewReleased | app/src/main/java/me/markosullivan/swiperevealactionbuttons/SwipeRevealLayout.kt:289-326 | refreshes the open main rectangle, then opens or closes with animation by `ReleaseDecision`; an unknown edge changes nothing further |
| KotlinRevision.SwipeRevealLayout.TryCaptureView | app/src/main/java/me/markosullivan/swiperevealactionbuttons/SwipeRevealLayout.kt:260-267 | a locked layout captures nothing; an unlocked one captures the main view; the answer is always false |
| KotlinRevision.SwipeRevealLayout.OnEdgeDragStarted | app/src/main/java/me/markosullivan/swiperevealactionbuttons/SwipeRevealLayout.kt:328-342 | captures the main view exactly when `EdgeDragCaptures` holds |
| KotlinRevision.SwipeRevealLayout.OnDown | app/src/main/java/me/markosullivan/swiperevealactionbuttons/SwipeRevealLayout.kt:149-153 | consumes the event and clears the scrolling and disallowed flags |
| KotlinRevision.SwipeRevealLayout.OnFling | app/src/main/java/me/markosullivan/swiperevealactionbuttons/SwipeRevealLayout.kt:155-161 | marks the gesture as scrolling and does not consume it |
| KotlinRevision.SwipeRevealLayout.OnScroll | app/src/main/java/me/markosullivan/swiperevealactionbuttons/SwipeRevealLayout.kt:163-187 | with a parent, asks it not to intercept once the distance to the closest edge reaches the threshold, and keeps asking until the next down event |
| KotlinProperties.EdgeConstants | app/src/main/java/me/markosullivan/swiperevealactionbuttons/SwipeRevealLayout.kt:666-675 | both edges is 3, the left-view guard compares with 0, and only the right and both-edges values have the right bit |
| KotlinProperties.ReleaseRules | app/src/main/java/me/markosullivan/swiperevealactionbuttons/SwipeRevealLayout.kt:354-384 | a right fling opens left to right and closes right to left, a left fling the opposite; otherwise the position against the pivot decides |
| KotlinProperties.RightToLeftReleaseKeepsRestingState | app/src/main/java/me/markosullivan/swiperevealactionbuttons/SwipeRevealLayout.kt:370-384 | right to left, a release without a fling keeps a closed panel closed and a fully open one open |
| KotlinProperties.LeftToRightReleaseQuirk | app/src/main/java/me/markosullivan/swiperevealactionbuttons/SwipeRevealLayout.kt:354-368 | left to right, a release without a fling opens exactly past `rectMainClose.right + width / 2`; for a main view wider than the revealed width minus `width / 2` every reachable position closes |
| KotlinProperties.ClampIdempotent | app/src/main/java/me/markosullivan/swiperevealactionbuttons/SwipeRevealLayout.kt:269-287 | clamping a clamped position returns it unchanged |
| KotlinProperties.DistanceAtClampedPosition | app/src/main/java/me/markosullivan/swiperevealactionbuttons/SwipeRevealLayout.kt:192-228 | at every clamped position the distance is between 0 and half the revealed width, 0 at either end, and always 0 for the left edge |
| KotlinProperties.KnownEdgeNeverMovesLeftView | app/src/main/java/me/markosullivan/swiperevealactionbuttons/SwipeRevealLayout.kt:675-682 | for left, right or both edges the left view is never moved by a non-animated open or close |
| KotlinProperties.KnownEdgeKeepsLeftRects | app/src/main/java/me/markosullivan/swiperevealactionbuttons/SwipeRevealLayout.kt:767-782 | for left, right or both edges `initRects` leaves the left view's rectangles as they were |
| KotlinProperties.LayoutRestoresPosition | app/src/main/java/me/markosullivan/swiperevealactionbuttons/SwipeRevealLayout.kt:547-553 | after `onLayout` the main view sits at its open rectangle if the layout was open and its closed one otherwise; a known edge leaves the left view in place |
| KotlinProperties.DraggingDirectionSinceDown | app/src/main/java/me/markosullivan/swiperevealactionbuttons/SwipeRevealLayout.kt:817-819 | after one gesture, `draggingFromRightToLeft` holds exactly when the latest x is left of the down event's x |
| JavaRevision.InflatedSlots | app/src/main/java/me/markosullivan/swiperevealactionbuttons/SwipeRevealLayout.java:161-172 | two or more children give right 0, main 1; one gives main 0; the left slot is never assigned |
| JavaRevision.MainOpenLeft | app/src/main/java/me/markosullivan/swiperevealactionbuttons/SwipeRevealLayout.java:397-409 | for a known edge, the closed left moved by the right view's width, failing exactly when the right view is missing; 0 otherwise |
| JavaRevision.MainOpenTop | app/src/main/java/me/markosullivan/swiperevealactionbuttons/SwipeRevealLayout.java:411-421 | the open main view keeps its closed top for the left and right edges, and sits at 0 for any other edge |
| JavaRevision.DistToClosestEdge | app/src/main/java/me/markosullivan/swiperevealactionbuttons/SwipeRevealLayout.java:566-586 | the left-edge or right-edge distance with the right view, failing exactly when a view is missing; 0 for other edges |
| JavaRevision.PivotForLeftEdge | app/src/main/java/me/markosullivan/swiperevealactionbuttons/SwipeRevealLayout.java:588-594 | the left-edge pivot lies within the main view's left-edge travel, at its midpoint rounded toward the closed side |
| JavaRevision.HalfwayPivot | app/src/main/java/me/markosullivan/swiperevealactionbuttons/SwipeRevealLayout.java:588-594 | the left edge takes the left formula, every other edge the right one; fails exactly when the right view is missing |
| JavaRevision.Clamp | app/src/main/java/me/markosullivan/swiperevealactionbuttons/SwipeRevealLayout.java:608-625 | for a known edge the result lies between the closed and the open left and keeps a left already in range; any other edge keeps the child's left |
| JavaRevision.ReleaseDecision | app/src/main/java/me/markosullivan/swiperevealactionbuttons/SwipeRevealLayout.java:628-664 | a release rule applies exactly for a known edge |
| JavaRevision.RectsAfterInit | app/src/main/java/me/markosullivan/swiperevealactionbuttons/SwipeRevealLayout.java:431-463 | main and right views close where they are; the right view opens where it closes; the main view opens translated by the offset; the left rectangles are untouched |
| JavaRevision.LayoutChild | app/src/main/java/me/markosullivan/swiperevealactionbuttons/SwipeRevealLayout.java:180-229 | right edge: `RightAlignedBounds`; left edge: `LeftAlignedBounds`, of the `match_parent`-resolved size; other edges: empty rectangle; measured size kept |
| JavaRevision.LaidOut | app/src/main/java/me/markosullivan/swiperevealactionbuttons/SwipeRevealLayout.java:179-230 | every child is laid out alike, and the count is kept |
| JavaRevision.Apply | app/src/main/java/me/markosullivan/swiperevealactionbuttons/SwipeRevealLayout.java:342-384 | a non-animated open or close moves the main view and the right view to their rectangles and no other child; the count is kept |
| JavaRevision.SwipeRevealLayout.constructor | app/src/main/java/me/markosullivan/swiperevealactionbuttons/SwipeRevealLayout.java:505-523 | default left edge, fling threshold 300, disallow distance 1 only with styled attributes; closed, unlocked, no slots |
| JavaRevision.SwipeRevealLayout.OnFinishInflate | app/src/main/java/me/markosullivan/swiperevealactionbuttons/SwipeRevealLayout.java:161-172 | the slots become `InflatedSlots` of the child count |
| JavaRevision.SwipeRevealLayout.Reposition | app/src/main/java/me/markosullivan/swiperevealactionbuttons/SwipeRevealLayout.java:339-357 | with animation, a slide of the main view; without, main and right views laid out by `Apply`; fails exactly when a view it lays out is missing |
| JavaRevision.SwipeRevealLayout.Open | app/src/main/java/me/markosullivan/swiperevealactionbuttons/SwipeRevealLayout.java:335-360 | remembers the open state and moves to the open rectangles |
| JavaRevision.SwipeRevealLayout.Close | app/src/main/java/me/markosullivan/swiperevealactionbuttons/SwipeRevealLayout.java:365-388 | remembers the closed state and moves to the closed rectangles |
| JavaRevision.SwipeRevealLayout.InitRects | app/src/main/java/me/markosullivan/swiperevealactionbuttons/SwipeRevealLayout.java:431-463 | the rectangles become `RectsAfterInit` of the current views |
| JavaRevision.SwipeRevealLayout.LayoutChildren | app/src/main/java/me/markosullivan/swiperevealactionbuttons/SwipeRevealLayout.java:179-230 | the loop leaves the children equal to `LaidOut` of the old children |
| JavaRevision.SwipeRevealLayout.OnLayout | app/src/main/java/me/markosullivan/swiperevealactionbuttons/SwipeRevealLayout.java:178-240 | lays out, records the rectangles, and restores the open or closed position `isOpenBeforeInit` remembers |
| JavaRevision.SwipeRevealLayout.SettleLayout | app/src/main/java/me/markosullivan/swiperevealactionbuttons/SwipeRevealLayout.java:232-238 | `initRects`, then the non-animated `open` or `close` that `isOpenBeforeInit` picks |
| JavaRevision.SwipeRevealLayout.OnMeasure | app/src/main/java/me/markosullivan/swiperevealactionbuttons/SwipeRevealLayout.java:246-323 | sets the measured size to `MeasuredDimension`, or raises with fewer than two children |
| JavaRevision.SwipeRevealLayout.AccumulateDragDist | app/src/main/java/me/markosullivan/swiperevealactionbuttons/SwipeRevealLayout.java:484-495 | a down event resets the distance; any other event adds `x - prevX` |
| JavaRevision.SwipeRevealLayout.OnInterceptTouchEvent | app/src/main/java/me/markosullivan/swiperevealactionbuttons/SwipeRevealLayout.java:139-159 | a locked layout defers to the superclass; otherwise the distance is updated, `prevX` set, and the result is `InterceptDecision` |
| JavaRevision.SwipeRevealLayout.OnViewReleased | app/src/main/java/me/markosullivan/swiperevealactionbuttons/SwipeRevealLayout.java:628-664 | opens or closes with animation by `ReleaseDecision`; fails exactly when the pivot's or the rule's view is missing |
| JavaRevision.SwipeRevealLayout.TryCaptureView | app/src/main/java/me/markosullivan/swiperevealactionbuttons/SwipeRevealLayout.java:598-605 | a locked layout captures nothing; an unlocked one captures the main view; the answer is always false |
| JavaRevision.SwipeRevealLayout.OnEdgeDragStarted | app/src/main/java/me/markosullivan/swiperevealactionbuttons/SwipeRevealLayout.java:667-683 | captures the main view exactly when `EdgeDragCaptures` holds |
| JavaRevision.SwipeRevealLayout.OnDown | app/src/main/java/me/markosullivan/swiperevealactionbuttons/SwipeRevealLayout.java:529-533 | consumes the event and clears the scrolling and disallowed flags |
| JavaRevision.SwipeRevealLayout.OnFling | app/src/main/java/me/markosullivan/swiperevealactionbuttons/SwipeRevealLayout.java:536-539 | marks the gesture as scrolling and does not consume it |
| JavaRevision.SwipeRevealLayout.OnScroll | app/src/main/java/me/markosullivan/swiperevealactionbuttons/SwipeRevealLayout.java:542-563 | with a parent, asks it not to intercept once the distance to the closest edge reaches the threshold, and keeps asking until the next down event |
| JavaProperties.ReleaseRules | app/src/main/java/me/markosullivan/swiperevealactionbuttons/SwipeRevealLayout.java:628-664 | a right fling opens a left-edge panel and closes a right-edge one, a left fling the opposite; otherwise the position against the pivot decides |
| JavaProperties.ReleaseKeepsRestingState | app/src/main/java/me/markosullivan/swiperevealactionbuttons/SwipeRevealLayout.java:628-664 | a release without a fling keeps a fully open panel open and a closed one closed |
| JavaProperties.ClampIdempotent | app/src/main/java/me/markosullivan/swiperevealactionbuttons/SwipeRevealLayout.java:608-625 | clamping a clamped position returns it unchanged |
| JavaProperties.DistanceAtClampedPosition | app/src/main/java/me/markosullivan/swiperevealactionbuttons/SwipeRevealLayout.java:566-586 | at every clamped position the distance is between 0 and half the right view's width, and 0 at either end |
| JavaProperties.LayoutRestoresPosition | app/src/main/java/me/markosullivan/swiperevealactionbuttons/SwipeRevealLayout.java:232-238 | after `onLayout` the main view sits at its open rectangle if the layout was open before and its closed one otherwise; the right view sits at its closed rectangle |

## Left out

- The drag helper and the gesture detector are toolkit code. Their effect on one event is an input: the helper's state, `isScrolling`, and for releases the velocity already converted to dp per second.
- `pxToDp` is left out for the same reason: it depends on the display density.
- Logging, `postInvalidateOnAnimation` and `onViewPositionChanged` only ask the toolkit to redraw. `computeScroll` advances the drag helper's settle animation, which moves the main view step by step; those steps are left out, and a slide is recorded only as its target (`slideTarget`). `requestDisallowInterceptTouchEvent` is recorded as the value `OnScroll` returns.
- `onTouchEvent` only forwards the event to the drag helper and the gesture detector.
- Saving and restoring instance state, and the `volatile`/`synchronized` fields, belong to the toolkit's lifecycle and threading, which the model does not have.
- `MeasureSpec` packing, `measureChild` and `setMinimumWidth`/`setMinimumHeight` are toolkit calls. The children's measured sizes after each pass are inputs of `OnMeasure`. `OnMeasure` does not write them back into the children, so in the model the sizes `OnLayout` lays out and the sizes `OnMeasure` measures are unrelated.
- MeasuredDimension: takes the rebuilt `MeasureSpec` to carry the largest child's size in every mode, `UNSPECIFIED` included. Toolkit versions that zero an `UNSPECIFIED` size are not modelled.
- The Java three-argument constructor skips `init`, so the drag helper and the gesture detector stay null. Only the callbacks that reach one of them (the drag and touch callbacks, and `open`/`close`, which call `dragHelper` before moving a view, so `onLayout` too, after its loop and `initRects`) would fail; `onFinishInflate` and `onMeasure` would not. That constructor is not modelled.
- Touch coordinates and the drag distance are floats in the source. The model uses integers.
- Coordinate and size arithmetic (`rectMainClose.left + rightView.width`, `desiredWidth + paddingLeft + paddingRight` and the like) is on unbounded integers. The source's 32-bit `Int` / `int` wrap-around on overflow is not modelled.
- After a `MissingView` failure the model states only which fields are untouched. The source has raised an exception at that point.
- `MainListAdapter` is not part of this model.
- The Java `draggingFromLeftToRight` is never called.
- OnFinishInflate: requires that no slot is assigned yet. The toolkit calls it once, before any slot exists.
- JavaRevision.SwipeRevealLayout: `lockDrag` has no setter in the source. The constructor clears it and every method that changes state ensures it unchanged, so it stays false.
