# MultiShrinkScroller scroll distribution, in Dafny

This project models the integer core of the Android Contacts QuickContact
`MultiShrinkScroller`. The surface stacks three regions:

- a transparent spacer above everything;
- a shrinkable header, the toolbar that holds the contact photo;
- a nested `ScrollView` of cards.

One composite coordinate, the *scroll*, tells how far the whole surface has
moved up. It is the spacer's closed part, plus how far the header has shrunk
below its scrollable maximum, plus the content offset. Scrolling to a new value
shares the signed difference among the regions:

- **Up:** close the spacer, then compress the header to its floor, then
  scroll the content.
- **Down:** scroll the content back, then grow the header to its ceiling,
  then open the spacer with whatever is left.

Around this sit the decision rules of the widget:

- whether a touch starts a drag;
- where a released drag snaps to (closing the spacer, or sliding the whole
  surface off the bottom);
- which listener notifications a scroll fires;
- which header animation a tap on the photo, or a shrinking card list,
  starts.

Modules:

- `Geometry`:
  - the fixed configuration (`Config`);
  - the three regions as a value (`Regions`);
  - the pure getters: composite scroll, snapping scroll, header floor and
    ceiling, overflow, distance to off-bottom, and maximum upward scroll.
- `Distribution`:
  - up, down and to-target scrolling as functions on `Regions`;
  - the invariants they keep: `InRange` (every region within its bounds) and
    `Stacked` (regions move one at a time);
  - drags as sequences of moves, and reversibility.
- `Decisions`:
  - the drag-start predicate and the release snap decision;
  - fullscreen notifications;
  - the photo-tap and shrink-target animation choices;
  - the entrance animation (see Findings).
- `Scroller`: the class `MultiShrinkScroller`.
  - Mutable fields: the spacer height, header height and content offset, the
    drag flags, the state of its `Scroller`, the listener and the log of
    notifications delivered to it.
  - Its scrolling methods do the same step-by-step updates as the source and
    are proved to compute the `Distribution` functions.
  - Its release methods are proved to take exactly the action `SnapDecision`
    names.
  - Its invariant `Valid` keeps the spacer non-negative and the content
    offset in range. It also guarantees `onScrolledOffBottom` is delivered at
    most once, and never while the listener is still attached.

Parameters:

- Layout-time values are fields of `Config`: resource dimensions, the header
  limits computed from the view's width, the measured view heights, the
  `ScrollView`'s maximum scroll, the touch slop, the minimum fling velocity,
  and whether the scroller has children.
- The fling distance the `Scroller` projects and the release velocity are
  parameters of `StopDrag`.
- Touch coordinates are integers.

## Model

| member | source | states |
|---|---|---|
| Geometry.MaximumScrollableHeaderHeight | src/com/android/contacts/widget/MultiShrinkScroller.java:626-628 | the header's ceiling, the maximum height in square mode and the intermediate height otherwise; a definition, given meaning by the ceiling clauses of `FullyCompressedHeaderHeight`, `ScrollDownRegions` and `ScrollUntilOffBottom` |
| Geometry.Scroll | src/com/android/contacts/widget/MultiShrinkScroller.java:618-624 | the composite scroll; a definition, given meaning by the exact-delta clauses of `ScrollUpRegions` and `ScrollDownRegions`, by `ScrollToRegions` reaching its target, and by `ScrollIgnoringOversizedHeader` |
| Geometry.OverflowingChildViewSize | src/com/android/contacts/widget/MultiShrinkScroller.java:789-793 | how much of the card container does not fit below a header of the given height; a definition, given meaning by `OverflowAtFloor` and by the existence condition of `ShrinkTarget` |
| Geometry.ScrollIgnoringOversizedHeader | src/com/android/contacts/widget/MultiShrinkScroller.java:641-647 | the snapping scroll is never below the composite scroll, and equals it exactly when the header is not above its scrollable maximum |
| Geometry.OverflowAtFloor | src/com/android/contacts/widget/MultiShrinkScroller.java:781-793 | at the header floor the cards still overflow only when the minimum header height (or the ceiling) stopped the compression; a floor strictly between the minimum and the ceiling is exactly the height at which the cards fit, with overflow 0 |
| Geometry.FullyCompressedHeaderHeight | src/com/android/contacts/widget/MultiShrinkScroller.java:781-784 | the header floor lies between min(minimum header, scrollable maximum) and the scrollable maximum, and has a closed form with no header term, so it does not depend on the current header |
| Geometry.ScrollUntilOffBottom | src/com/android/contacts/widget/MultiShrinkScroller.java:660-663 | the distance to off-bottom is at least viewport − spacer + content offset, with equality once the header is at its ceiling |
| Geometry.MaximumScrollUpwards | src/com/android/contacts/widget/MultiShrinkScroller.java:733-746 | the maximum upward scroll is at least the spacer's start height, and in single-panel mode it also covers the header's whole compressible range |
| Distribution.ScrollUpRegions | src/com/android/contacts/widget/MultiShrinkScroller.java:757-775 | the spacer ends ≥ 0 and never grows; the header never grows and stays at or above its floor; the header moves only once the spacer is closed, and the content only once the header is at its floor; the content stays in range; the composite scroll rises by at most delta, and by exactly delta unless every region is exhausted (spacer closed, header at its floor, content at its maximum) |
| Distribution.ScrollDownRegions | src/com/android/contacts/widget/MultiShrinkScroller.java:795-811 | the composite scroll moves by exactly delta; a header at or below its ceiling stays there, and one at or above it is left alone; from an in-range content offset, the spacer and the header only grow and the content only drops, staying ≥ 0; the header moves only once the content is at its top, and the spacer only once the header is also at its ceiling |
| Distribution.ScrollToRegions | src/com/android/contacts/widget/MultiShrinkScroller.java:550-555 | a target at or below the current scroll is reached exactly and never closes the spacer; a target above it is approached without overshooting and is reached unless every region is exhausted (spacer closed, header at its floor, content at its maximum); InRange and Stacked are preserved |
| Distribution.Drag | src/com/android/contacts/widget/MultiShrinkScroller.java:390-393 | a drag as the sequence of its move events, each scrolling to the current scroll plus the move; a definition, given meaning by `DragKeepsLayout`, `UpwardDragNeverDecreases` and `DownwardDragIsExact` |
| Distribution.DragKeepsLayout | src/com/android/contacts/widget/MultiShrinkScroller.java:390-393 | however many move events a drag has, every region stays in range and the regions stay stacked |
| Distribution.UpwardDragNeverDecreases | src/com/android/contacts/widget/MultiShrinkScroller.java:390-393 | a drag made of upward moves never lowers the composite scroll |
| Distribution.DownwardDragIsExact | src/com/android/contacts/widget/MultiShrinkScroller.java:390-393 | a drag made of downward moves shifts the composite scroll by exactly the sum of its moves and never shrinks the spacer |
| Distribution.ScrollDownThenUpRestores | src/com/android/contacts/widget/MultiShrinkScroller.java:550-555 | from any stacked position with a non-negative spacer, in-range content and a header at or above its floor (including a header a photo tap grew past its ceiling), scrolling down by any amount and back to the original scroll restores all three regions |
| Decisions.MotionShouldStartDrag | src/com/android/contacts/widget/MultiShrinkScroller.java:1021-1027 | a move starts a drag iff \|dy\| > touch slop and \|dx\| ≤ touch slop |
| Decisions.SnapDecision | src/com/android/contacts/widget/MultiShrinkScroller.java:479-512 | with p = snapping scroll + fling distance: snap to top iff 0 < p < spacer start height and the snapping scroll is not already at that height; scroll off bottom iff p < 0; at most one action; a top snap's scroll is never 0 and lands the snapping scroll on the spacer's start height |
| Decisions.SnapToTopClosesSpacer | src/com/android/contacts/widget/MultiShrinkScroller.java:490-503 | from any stacked position with a non-negative spacer, in-range content and a header at or above its floor, a top snap lands with the spacer closed, the content at its top and the header at its ceiling, or left as it is when a photo tap grew it past the ceiling; with the spacer open it scrolls up by exactly the spacer's height (not the larger composite amount that would also compress an oversized header), with the spacer closed it is a downward snap |
| Decisions.ScrollOffBottomLeavesViewport | src/com/android/contacts/widget/MultiShrinkScroller.java:514-520 | from any in-range content offset and a spacer that fits in the viewport, the off-bottom target puts the content at its top, a header below its ceiling at the ceiling (an oversized header stays as it is) and the spacer at the viewport's height, leaving nothing further to scroll |
| Decisions.FullscreenEvents | src/com/android/contacts/widget/MultiShrinkScroller.java:552-567 | at most one notification: exit iff the spacer goes from closed to open, enter iff it goes from open to closed |
| Decisions.FullscreenEventsFollowDirection | src/com/android/contacts/widget/MultiShrinkScroller.java:550-567 | from any position with a non-negative spacer and an in-range content offset (an oversized header included), scrolling up never fires exit-fullscreen, and scrolling down never fires enter-fullscreen |
| Decisions.HeaderToggle | src/com/android/contacts/widget/MultiShrinkScroller.java:432-450 | expand to the maximum iff the header is not at its maximum, scrolling a scrolled content back to its top; otherwise collapse to the intermediate height iff the header is not also at its minimum; else no animation |
| Decisions.HeaderToggleAlternates | src/com/android/contacts/widget/MultiShrinkScroller.java:432-450 | repeated taps alternate: expand, then collapse to the intermediate height, then expand again |
| Decisions.ShrinkTarget | src/com/android/contacts/widget/MultiShrinkScroller.java:1100-1107 | a target exists iff single-panel and the shrink exceeds the overflow; it never passes the ceiling, it grows a header below the ceiling, and its closed form does not depend on the current header |
| Decisions.EntranceStart | src/com/android/contacts/widget/MultiShrinkScroller.java:537-539 | where the entrance animation starts; a definition, given meaning by `EntranceStartNearlyOffBottom` |
| Decisions.EntranceStartNearlyOffBottom | src/com/android/contacts/widget/MultiShrinkScroller.java:537-539 | from a stacked, in-range position whose spacer is open and shorter than the viewport, scrolling to the entrance animation's start leaves exactly one pixel to scroll before the surface is off the bottom |
| Decisions.EntranceAnimationAsWritten | src/com/android/contacts/widget/MultiShrinkScroller.java:536-547 | as written, asked to return to the current position, the animation ends at twice the current scroll |
| Decisions.EntranceAsWrittenMissesCurrentPosition | src/com/android/contacts/widget/MultiShrinkScroller.java:541-543 | the as-written end equals the current scroll iff the current scroll is 0 |
| Decisions.EntranceAsWrittenOvershoots | src/com/android/contacts/widget/MultiShrinkScroller.java:541-543 | with the spacer closed and the composite scroll at 100, the as-written animation ends at 200 |
| Decisions.EntranceAnimation | src/com/android/contacts/widget/MultiShrinkScroller.java:531-547 | the documented animation ends at the current scroll, or at the scroll where the spacer is closed |
| Decisions.EntranceAnimationLands | src/com/android/contacts/widget/MultiShrinkScroller.java:531-547 | from a stacked position whose spacer is non-negative and shorter than the viewport, with in-range content and a header at or above its floor (an oversized header included), the documented animation lands on the very same regions, or with the spacer closed |
| Scroller.MultiShrinkScroller.constructor | src/com/android/contacts/widget/MultiShrinkScroller.java:279 | the initial state: spacer at its start height, header at its scrollable maximum, content at its top; it is Valid, InRange and Stacked, with no notifications and nothing posted |
| Scroller.MultiShrinkScroller.ScrollContentBy | src/com/android/contacts/widget/MultiShrinkScroller.java:774 | the content offset moves by delta, clamped to the ScrollView's range |
| Scroller.MultiShrinkScroller.ScrollUp | src/com/android/contacts/widget/MultiShrinkScroller.java:757-775 | the in-place updates produce exactly ScrollUpRegions of the old regions |
| Scroller.MultiShrinkScroller.ScrollDown | src/com/android/contacts/widget/MultiShrinkScroller.java:795-825 | the in-place updates produce exactly ScrollDownRegions of the old regions, and one off-bottom notification is posted iff nothing is left on screen |
| Scroller.MultiShrinkScroller.ScrollTo | src/com/android/contacts/widget/MultiShrinkScroller.java:550-568 | the regions become ScrollToRegions of the old ones; an attached listener receives exactly FullscreenEvents of the spacer's crossing; an off-bottom notification is posted only on a downward move that leaves nothing on screen; Valid is kept |
| Scroller.MultiShrinkScroller.SetHeaderHeight | src/com/android/contacts/widget/MultiShrinkScroller.java:594-601 | the header takes the given height |
| Scroller.MultiShrinkScroller.SetScrollY | src/com/android/contacts/widget/MultiShrinkScroller.java:442 | the animated content offset is clamped to the ScrollView's range, and Valid is kept |
| Scroller.MultiShrinkScroller.StartDrag | src/com/android/contacts/widget/MultiShrinkScroller.java:452-455 | a drag begins and the Scroller is stopped |
| Scroller.MultiShrinkScroller.ShouldStartDrag | src/com/android/contacts/widget/MultiShrinkScroller.java:335-366 | while dragging, it clears the flag and declines; a down event records the position and starts a drag iff the Scroller is still running, else sets received-down; a move starts a drag iff MotionShouldStartDrag holds for the travel since the recorded position, recording the new one; up and cancel change nothing |
| Scroller.MultiShrinkScroller.DragMove | src/com/android/contacts/widget/MultiShrinkScroller.java:390-393 | a move while dragging is one step of Drag, by the finger's upward travel; an attached listener receives exactly FullscreenEvents of the spacer's crossing; an off-bottom notification is posted iff the move is downward and leaves nothing on screen; it records the position, clears received-down and keeps Valid |
| Scroller.MultiShrinkScroller.Fling | src/com/android/contacts/widget/MultiShrinkScroller.java:725-731 | the Scroller runs a fling from the current scroll over the given fling distance |
| Scroller.MultiShrinkScroller.ComputeScrollFrame | src/com/android/contacts/widget/MultiShrinkScroller.java:666-685 | one frame of a running Scroller scrolls the surface as ScrollTo does, with the same notifications; the Scroller finishes iff its time is up, or a fling reaches its final position, or the frame is at or past the largest upward scroll (the abort at :681-683) |
| Scroller.MultiShrinkScroller.SmoothScrollBy | src/com/android/contacts/widget/MultiShrinkScroller.java:1036-1045 | a zero delta is refused with IllegalArgument and changes nothing; any other delta starts a smooth scroll (not a fling) from the current scroll to current + delta |
| Scroller.MultiShrinkScroller.SnapToTop | src/com/android/contacts/widget/MultiShrinkScroller.java:490-503 | it snaps iff SnapDecision says snap-to-top, and then the Scroller runs exactly the required scroll; it never triggers the IllegalArgument refusal; otherwise nothing changes |
| Scroller.MultiShrinkScroller.ScrollOffBottom | src/com/android/contacts/widget/MultiShrinkScroller.java:514-529 | it targets the current scroll minus the distance to off-bottom, stops the Scroller, and notifies an attached listener that the scroll off the bottom started |
| Scroller.MultiShrinkScroller.SnapToBottom | src/com/android/contacts/widget/MultiShrinkScroller.java:508-512 | it scrolls off the bottom iff SnapDecision says so, and otherwise sends nothing |
| Scroller.MultiShrinkScroller.OnDragFinished | src/com/android/contacts/widget/MultiShrinkScroller.java:479-485 | the action taken is exactly SnapDecision; a top snap starts the Scroller from the current scroll over the required scroll; a scroll off the bottom stops the Scroller; with no snap the Scroller is untouched, so at most one snap runs; status is always Ok; only a scroll off the bottom notifies |
| Scroller.MultiShrinkScroller.StopDrag | src/com/android/contacts/widget/MultiShrinkScroller.java:457-477 | the drag ends, and the release snaps with the fling distance iff it was not cancelled, the scroller has children, and \|velocity\| exceeds the minimum fling velocity; otherwise it snaps with 0; a top snap leaves the Scroller running the required scroll from the current scroll, a scroll off the bottom leaves it stopped, and with no snap it runs the fling over flingDistance if one started, else is untouched; it is never refused; received-down is cleared, as the touch handler does after it at :413 |
| Scroller.MultiShrinkScroller.OnSnapToBottomAnimationEnd | src/com/android/contacts/widget/MultiShrinkScroller.java:168-179 | if the surface is not quite off screen and a listener is attached, that listener is told it scrolled off the bottom and is then detached; at most one such notification ever |
| Scroller.MultiShrinkScroller.RunPostedOffBottom | src/com/android/contacts/widget/MultiShrinkScroller.java:813-824 | a posted notification reaches the listener only if it is still attached, and the listener is then detached, so however many are posted at most one is delivered |
| Scroller.MultiShrinkScroller.ExpandCollapseHeader | src/com/android/contacts/widget/MultiShrinkScroller.java:432-450 | photo clicks are disabled and the animation started is HeaderToggle of the current header and content offset |
| Scroller.MultiShrinkScroller.OnHeaderAnimationEnd | src/com/android/contacts/widget/MultiShrinkScroller.java:161-166 | photo clicks are enabled again |
| Scroller.MultiShrinkScroller.PrepareForShrinkingScrollChild | src/com/android/contacts/widget/MultiShrinkScroller.java:1100-1107 | the header target started is ShrinkTarget of the current header |

## Left out

- Touch plumbing: `MotionEvent`, `VelocityTracker`, `getCurrentVelocity` and the rest of `onTouchEvent`, including the click on up. Positions are integers, so the truncating `(int)` cast of a float delta is not modelled.
- Fling physics: the fling distance the `Scroller` computes from a velocity is a parameter of `StopDrag`.
- Not modelled:
  - which positions `computeScroll` visits between a Scroller's start and its end, and when its time runs out: the Android `Scroller` is foreign, so `ComputeScrollFrame` takes the frame's position and whether the time is up as parameters;
  - the quintic interpolator;
  - `AcceleratingFlingInterpolator` (it reads the display refresh rate);
  - `ObjectAnimator` timing.

  An animation is modelled by its target and its setter, `ScrollTo`, `SetHeaderHeight` or `SetScrollY`.
- Visual updates, all floating point: photo tint, colour matrices, header text size, title margins, gradients and elevation.
- `EdgeEffect`: whether a drag past `getMaximumScrollUpwards` pulls the glow, whether a fling absorbs into it, and drawing it. `ComputeScrollFrame` keeps the scroll behaviour there: a Scroller reaching that bound is stopped.
- View lookup, layout and `initialize`. The header limits computed at first layout, and the view heights, are fixed `Config` values. The header floor is a function of them.
- The card container is assumed not to change height while the model runs. `prepareForShrinkingScrollChild` only predicts a shrink.
- `ScrollView.scrollBy` and `setScrollY` are foreign: the content offset is clamped to `[0, contentMaxScroll]`, where `contentMaxScroll` is a parameter.
- Other members the model covers through existing ones:
  - `setScroll` is `ScrollTo`.
  - `setToolbarHeight` is `SetHeaderHeight`: both set the same layout height.
  - `getScrollNeededToBeFullScreen` is the spacer height, which `ScrollTo` reads directly.
  - `getChildCount() > 0` is `Config.hasChildren`.
- Java's 32-bit `int` is modelled by unbounded integers, and the fling's bounds of ±`Integer.MAX_VALUE` are not modelled. Pixel values stay far from these limits.
- Posting a Runnable is modelled as a pending counter. `RunPostedOffBottom` runs one posted notification. There is no concurrency.

## Findings

| source | as written | input that shows it | evidently intended | confidence | as-written member | corrected member |
|---|---|---|---|---|---|---|
| src/com/android/contacts/widget/MultiShrinkScroller.java:541-543 | with `scrollToCurrentPosition` true the animation ends at `currentPosition + currentPosition` | square-photo mode off, so the ceiling is the intermediate height 200; spacer closed, header at that ceiling, content 0, start height 100: current scroll 100, the animation ends at 200 | end at the current position, as the method's documentation says | medium; latent when the current scroll is 0; not executed | Decisions.EntranceAsWrittenOvershoots | Decisions.EntranceAnimationLands |
