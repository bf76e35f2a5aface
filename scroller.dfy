/**
 * The MultiShrinkScroller object: the spacer height, the toolbar (header)
 * height and the nested ScrollView's scrollY are fields that its methods
 * update step by step, beside the drag flags, the state of its Scroller, the
 * listener and the notifications delivered to it. Each scrolling method is
 * proved to compute the values given in the Distribution module.
 */
module Scroller {
  import opened Geometry
  import opened Distribution
  import opened Decisions

  /** How many times an event occurs in a notification log. */
  function CountOf(events: seq<ListenerEvent>, e: ListenerEvent): nat
  {
    if events == [] then 0 else (if events[0] == e then 1 else 0) + CountOf(events[1..], e)
  }

  /** Appending one notification raises its count by one and leaves the others alone. */
  lemma {:induction false} CountOfAppend(events: seq<ListenerEvent>, x: ListenerEvent, e: ListenerEvent)
    ensures CountOf(events + [x], e) == CountOf(events, e) + (if x == e then 1 else 0)
  {
    if events != [] {
      assert (events + [x])[1..] == events[1..] + [x];
      CountOfAppend(events[1..], x, e);
    }
  }

  /** The touch actions the drag-start rule distinguishes. */
  datatype MotionAction = ActionDown | ActionMove | ActionUp | ActionCancel

  /** Whether smoothScrollBy accepted its delta or threw IllegalArgumentException. */
  datatype Status = Ok | IllegalArgument

  class MultiShrinkScroller {
    const cfg: Config

    var transparentHeight: int  // layout height of the transparent spacer view
    var toolbarHeight: int      // layout height of the toolbar, i.e. the header
    var scrollY: int            // scroll offset of the nested ScrollView

    var isBeingDragged: bool
    var receivedDown: bool
    var lastEventX: int
    var lastEventY: int

    // the Scroller that runs flings and smooth scrolls
    var scrollerFinished: bool
    var scrollerStartY: int
    var scrollerFinalY: int
    var scrollerFlinging: bool  // a fling, not a smooth scroll, was the last run started

    var photoClickable: bool    // the photo's touch-intercept overlay accepts clicks

    var hasListener: bool       // the listener reference is not null
    var events: seq<ListenerEvent>  // notifications delivered to the listener, in order
    var pendingOffBottom: nat   // posted, not yet run, off-bottom notifications

    /** The three regions as a value. */
    function Layout(): Regions
      reads this
    {
      Regions(transparentHeight, toolbarHeight, scrollY)
    }

    /**
     * The spacer is never negative, the ScrollView offset stays in its range,
     * and the off-bottom notification has been delivered at most once, and not
     * at all while a listener is still attached.
     */
    ghost predicate Valid()
      reads this
    {
      && transparentHeight >= 0
      && 0 <= scrollY <= cfg.contentMaxScroll
      && CountOf(events, ScrolledOffBottom) <= 1
      && (hasListener ==> CountOf(events, ScrolledOffBottom) == 0)
    }

    /**
     * The state after initialize and the first layout: the spacer at its
     * starting height, the header at its scrollable maximum, the content at
     * its top.
     */
    constructor (cfg: Config, withListener: bool)
      ensures Valid() && this.cfg == cfg
      ensures Layout() == Regions(cfg.transparentStartHeight, MaximumScrollableHeaderHeight(cfg), 0)
      ensures InRange(cfg, Layout()) && Stacked(cfg, Layout())
      ensures !isBeingDragged && !receivedDown && scrollerFinished && photoClickable
      ensures hasListener == withListener && events == [] && pendingOffBottom == 0
    {
      this.cfg := cfg;
      transparentHeight := cfg.transparentStartHeight;
      toolbarHeight := MaximumScrollableHeaderHeight(cfg);
      scrollY := 0;
      isBeingDragged, receivedDown := false, false;
      lastEventX, lastEventY := 0, 0;
      scrollerFinished, scrollerStartY, scrollerFinalY, scrollerFlinging := true, 0, 0, false;
      photoClickable := true;
      hasListener := withListener;
      events := [];
      pendingOffBottom := 0;
    }

    /** ScrollView.scrollBy: the offset moves by delta, clamped to the scrollable range. */
    method ScrollContentBy(delta: int)
      modifies this`scrollY
      ensures scrollY == Clamp(old(scrollY) + delta, 0, cfg.contentMaxScroll)
    {
      scrollY := Clamp(scrollY + delta, 0, cfg.contentMaxScroll);
    }

    /** Close the spacer, then compress the header to its floor, then scroll the content. */
    method ScrollUp(delta: int)
      requires delta > 0
      modifies this`transparentHeight, this`toolbarHeight, this`scrollY
      ensures Layout() == ScrollUpRegions(cfg, old(Layout()), delta)
    {
      var remaining := delta;
      if transparentHeight != 0 {
        var originalValue := transparentHeight;
        transparentHeight := transparentHeight - remaining;
        transparentHeight := Max(0, transparentHeight);
        remaining := remaining - (originalValue - transparentHeight);
      }
      if toolbarHeight > FullyCompressedHeaderHeight(cfg, toolbarHeight) {
        var originalValue := toolbarHeight;
        toolbarHeight := toolbarHeight - remaining;
        toolbarHeight := Max(toolbarHeight, FullyCompressedHeaderHeight(cfg, toolbarHeight));
        remaining := remaining - (originalValue - toolbarHeight);
      }
      ScrollContentBy(remaining);
    }

    /**
     * Scroll the content back, then grow the header to its ceiling, then open
     * the spacer with the rest. When nothing is left on screen, an off-bottom
     * notification is posted to run later.
     */
    method ScrollDown(delta: int)
      requires delta <= 0
      modifies this`transparentHeight, this`toolbarHeight, this`scrollY, this`pendingOffBottom
      ensures Layout() == ScrollDownRegions(cfg, old(Layout()), delta)
      ensures pendingOffBottom ==
                old(pendingOffBottom) + if ScrollUntilOffBottom(cfg, Layout()) <= 0 then 1 else 0
    {
      var remaining := delta;
      if scrollY > 0 {
        var originalValue := scrollY;
        ScrollContentBy(remaining);
        remaining := remaining - (scrollY - originalValue);
      }
      if toolbarHeight < MaximumScrollableHeaderHeight(cfg) {
        var originalValue := toolbarHeight;
        toolbarHeight := toolbarHeight - remaining;
        toolbarHeight := Min(toolbarHeight, MaximumScrollableHeaderHeight(cfg));
        remaining := remaining - (originalValue - toolbarHeight);
      }
      transparentHeight := transparentHeight - remaining;
      if ScrollUntilOffBottom(cfg, Layout()) <= 0 {
        pendingOffBottom := pendingOffBottom + 1;
      }
    }

    /**
     * Move to the composite scroll y, then tell the listener if the spacer
     * closed (enter fullscreen) or opened (exit fullscreen).
     */
    method ScrollTo(y: int)
      requires Valid()
      modifies this`transparentHeight, this`toolbarHeight, this`scrollY
      modifies this`pendingOffBottom, this`events
      ensures Valid()
      ensures Layout() == ScrollToRegions(cfg, old(Layout()), y)
      ensures events == old(events) +
                if hasListener then FullscreenEvents(old(transparentHeight) <= 0, transparentHeight <= 0)
                else []
      ensures pendingOffBottom == old(pendingOffBottom) +
                if y <= old(Scroll(cfg, Layout())) && ScrollUntilOffBottom(cfg, Layout()) <= 0 then 1
                else 0
    {
      var delta := y - Scroll(cfg, Layout());
      var wasFullscreen := transparentHeight <= 0;
      if delta > 0 {
        ScrollUp(delta);
      } else {
        ScrollDown(delta);
      }
      var isFullscreen := transparentHeight <= 0;
      if hasListener {
        if wasFullscreen && !isFullscreen {
          CountOfAppend(events, ExitFullscreen, ScrolledOffBottom);
          events := events + [ExitFullscreen];
        } else if !wasFullscreen && isFullscreen {
          CountOfAppend(events, EnterFullscreen, ScrolledOffBottom);
          events := events + [EnterFullscreen];
        }
      }
    }

    /** The header animators' setter: the header takes the given height. */
    method SetHeaderHeight(height: int)
      modifies this`toolbarHeight
      ensures toolbarHeight == height
    {
      toolbarHeight := height;
    }

    /** The ScrollView animator's setter: the offset takes the value, clamped to its range. */
    method SetScrollY(value: int)
      requires Valid()
      modifies this`scrollY
      ensures Valid()
      ensures scrollY == Clamp(value, 0, cfg.contentMaxScroll)
    {
      scrollY := Clamp(value, 0, cfg.contentMaxScroll);
    }

    /** A drag begins and any running fling or smooth scroll stops. */
    method StartDrag()
      modifies this`isBeingDragged, this`scrollerFinished
      ensures isBeingDragged && scrollerFinished
    {
      isBeingDragged := true;
      scrollerFinished := true;
    }

    /**
     * The intercept rule. While a drag is in progress it clears the drag and
     * declines. Otherwise a down event records the position and steals the
     * gesture when a fling or smooth scroll is still running, else remembers
     * that a down was received; a move starts a drag when the motion since the
     * last recorded position qualifies; other events change nothing.
     */
    method ShouldStartDrag(action: MotionAction, x: int, y: int) returns (start: bool)
      modifies this`isBeingDragged, this`receivedDown, this`lastEventX, this`lastEventY
      modifies this`scrollerFinished
      ensures old(isBeingDragged) ==>
                && !start && !isBeingDragged
                && receivedDown == old(receivedDown) && scrollerFinished == old(scrollerFinished)
                && lastEventX == old(lastEventX) && lastEventY == old(lastEventY)
      ensures !old(isBeingDragged) && action == ActionDown ==>
                && lastEventX == x && lastEventY == y
                && start == !old(scrollerFinished)
                && isBeingDragged == start && scrollerFinished
                && receivedDown == if start then old(receivedDown) else true
      ensures !old(isBeingDragged) && action == ActionMove ==>
                && start == MotionShouldStartDrag(x - old(lastEventX), y - old(lastEventY), cfg.touchSlop)
                && isBeingDragged == start && receivedDown == old(receivedDown)
                && (start ==> lastEventX == x && lastEventY == y && scrollerFinished)
                && (!start ==> lastEventX == old(lastEventX) && lastEventY == old(lastEventY)
                               && scrollerFinished == old(scrollerFinished))
      ensures !old(isBeingDragged) && (action == ActionUp || action == ActionCancel) ==>
                && !start && !isBeingDragged && receivedDown == old(receivedDown)
                && lastEventX == old(lastEventX) && lastEventY == old(lastEventY)
                && scrollerFinished == old(scrollerFinished)
    {
      if isBeingDragged {
        isBeingDragged := false;
        return false;
      }
      match action {
        case ActionDown =>
          lastEventX, lastEventY := x, y;
          if !scrollerFinished {
            StartDrag();
            return true;
          } else {
            receivedDown := true;
          }
        case ActionMove =>
          if MotionShouldStartDrag(x - lastEventX, y - lastEventY, cfg.touchSlop) {
            lastEventX, lastEventY := x, y;
            StartDrag();
            return true;
          }
        case _ =>
      }
      return false;
    }

    /**
     * A move event during a drag: the finger's upward travel since the last
     * recorded position is added to the composite scroll, and the position
     * is recorded.
     */
    method DragMove(x: int, y: int)
      requires Valid()
      modifies this`transparentHeight, this`toolbarHeight, this`scrollY
      modifies this`pendingOffBottom, this`events, this`lastEventX, this`lastEventY, this`receivedDown
      ensures Valid()
      ensures Layout() == Drag(cfg, old(Layout()), [old(lastEventY) - y])
      ensures events == old(events) +
                if hasListener then FullscreenEvents(old(transparentHeight) <= 0, transparentHeight <= 0)
                else []
      ensures pendingOffBottom == old(pendingOffBottom) +
                if old(lastEventY) - y <= 0 && ScrollUntilOffBottom(cfg, Layout()) <= 0 then 1 else 0
      ensures lastEventX == x && lastEventY == y && !receivedDown
    {
      var delta := lastEventY - y;
      lastEventX, lastEventY := x, y;
      ScrollTo(Scroll(cfg, Layout()) + delta);
      receivedDown := false;
    }

    /** The Scroller starts a fling from the current scroll that will travel flingDistance. */
    method Fling(flingDistance: int)
      modifies this`scrollerFinished, this`scrollerStartY, this`scrollerFinalY, this`scrollerFlinging
      ensures !scrollerFinished && scrollerFlinging
      ensures scrollerStartY == Scroll(cfg, Layout()) && scrollerFinalY == scrollerStartY + flingDistance
    {
      scrollerFinished, scrollerFlinging := false, true;
      scrollerStartY := Scroll(cfg, Layout());
      scrollerFinalY := scrollerStartY + flingDistance;
    }

    /**
     * One frame of a running fling or smooth scroll: the surface is scrolled
     * to the frame's position. The Scroller finishes when its time is up (the
     * frame is then at its final position), when a fling reaches its final
     * position earlier, or when the position reaches the largest upward
     * scroll and the scroller aborts it.
     */
    method ComputeScrollFrame(currY: int, timeUp: bool)
      requires Valid() && !scrollerFinished
      requires timeUp ==> currY == scrollerFinalY
      modifies this`transparentHeight, this`toolbarHeight, this`scrollY
      modifies this`pendingOffBottom, this`events, this`scrollerFinished
      ensures Valid()
      ensures Layout() == ScrollToRegions(cfg, old(Layout()), currY)
      ensures events == old(events) +
                if hasListener then FullscreenEvents(old(transparentHeight) <= 0, transparentHeight <= 0)
                else []
      ensures pendingOffBottom == old(pendingOffBottom) +
                if currY <= old(Scroll(cfg, Layout())) && ScrollUntilOffBottom(cfg, Layout()) <= 0 then 1
                else 0
      ensures scrollerFinished <==>
                || timeUp
                || (scrollerFlinging && currY == scrollerFinalY)
                || currY >= MaximumScrollUpwards(cfg, toolbarHeight)
    {
      ScrollTo(currY);
      if timeUp || (scrollerFlinging && currY == scrollerFinalY)
         || currY >= MaximumScrollUpwards(cfg, toolbarHeight)
      {
        scrollerFinished := true;
      }
    }

    /**
     * Start a smooth scroll by delta from the current scroll; a zero delta is
     * refused with IllegalArgumentException and changes nothing.
     */
    method SmoothScrollBy(delta: int) returns (status: Status)
      modifies this`scrollerFinished, this`scrollerStartY, this`scrollerFinalY, this`scrollerFlinging
      ensures status == if delta == 0 then IllegalArgument else Ok
      ensures delta == 0 ==>
                && scrollerFinished == old(scrollerFinished)
                && scrollerStartY == old(scrollerStartY) && scrollerFinalY == old(scrollerFinalY)
                && scrollerFlinging == old(scrollerFlinging)
      ensures delta != 0 ==>
                && !scrollerFinished && !scrollerFlinging
                && scrollerStartY == Scroll(cfg, Layout()) && scrollerFinalY == scrollerStartY + delta
    {
      if delta == 0 {
        return IllegalArgument;
      }
      scrollerFinished, scrollerFlinging := false, false;
      scrollerStartY := Scroll(cfg, Layout());
      scrollerFinalY := scrollerStartY + delta;
      status := Ok;
    }

    /**
     * Snap the spacer shut when the release is projected to rest inside it.
     * The smooth scroll it starts is never refused.
     */
    method SnapToTop(flingDelta: int) returns (snapped: bool, status: Status)
      modifies this`scrollerFinished, this`scrollerStartY, this`scrollerFinalY, this`scrollerFlinging
      ensures status == Ok
      ensures snapped <==> SnapDecision(cfg, Layout(), flingDelta).SnapToTop?
      ensures snapped ==>
                && !scrollerFinished && !scrollerFlinging && scrollerStartY == Scroll(cfg, Layout())
                && scrollerFinalY - scrollerStartY == SnapDecision(cfg, Layout(), flingDelta).requiredScroll
      ensures !snapped ==>
                && scrollerFinished == old(scrollerFinished)
                && scrollerStartY == old(scrollerStartY) && scrollerFinalY == old(scrollerFinalY)
                && scrollerFlinging == old(scrollerFlinging)
    {
      var decision := SnapDecision(cfg, Layout(), flingDelta);
      if decision.SnapToTop? {
        scrollerFinished := true;
        status := SmoothScrollBy(decision.requiredScroll);
        snapped := true;
      } else {
        snapped, status := false, Ok;
      }
    }

    /**
     * Start the animation that moves the whole surface off the bottom, stop
     * the Scroller and tell the listener; returns the composite scroll the
     * animation targets.
     */
    method ScrollOffBottom() returns (target: int)
      requires Valid()
      modifies this`scrollerFinished, this`events
      ensures Valid()
      ensures scrollerFinished
      ensures target == Scroll(cfg, Layout()) - ScrollUntilOffBottom(cfg, Layout())
      ensures events == old(events) + if hasListener then [StartScrollOffBottom] else []
    {
      scrollerFinished := true;
      target := Scroll(cfg, Layout()) - ScrollUntilOffBottom(cfg, Layout());
      if hasListener {
        CountOfAppend(events, StartScrollOffBottom, ScrolledOffBottom);
        events := events + [StartScrollOffBottom];
      }
    }

    /** Scroll off the bottom when the release is projected past the open spacer. */
    method SnapToBottom(flingDelta: int) returns (scrolledOff: bool)
      requires Valid()
      modifies this`scrollerFinished, this`events
      ensures Valid()
      ensures scrolledOff <==> SnapDecision(cfg, Layout(), flingDelta).ScrollOffBottom?
      ensures scrolledOff ==> scrollerFinished
      ensures !scrolledOff ==> scrollerFinished == old(scrollerFinished)
      ensures events == old(events) + if scrolledOff && hasListener then [StartScrollOffBottom] else []
    {
      scrolledOff := SnapDecision(cfg, Layout(), flingDelta).ScrollOffBottom?;
      if scrolledOff {
        var _ := ScrollOffBottom();
      }
    }

    /**
     * The release decision: snap to the top, or failing that consider
     * scrolling off the bottom. Exactly the action SnapDecision names is taken,
     * so at most one of the two runs, and no smooth scroll is ever refused.
     */
    method OnDragFinished(flingDelta: int) returns (action: SnapAction, status: Status)
      requires Valid()
      modifies this`scrollerFinished, this`scrollerStartY, this`scrollerFinalY, this`scrollerFlinging
      modifies this`events
      ensures Valid()
      ensures status == Ok
      ensures action == SnapDecision(cfg, Layout(), flingDelta)
      ensures action.SnapToTop? ==>
                && !scrollerFinished && !scrollerFlinging && scrollerStartY == Scroll(cfg, Layout())
                && scrollerFinalY - scrollerStartY == action.requiredScroll
      ensures action.ScrollOffBottom? ==>
                && scrollerFinished
                && scrollerStartY == old(scrollerStartY) && scrollerFinalY == old(scrollerFinalY)
                && scrollerFlinging == old(scrollerFlinging)
      ensures action.NoSnap? ==>
                && scrollerFinished == old(scrollerFinished)
                && scrollerStartY == old(scrollerStartY) && scrollerFinalY == old(scrollerFinalY)
                && scrollerFlinging == old(scrollerFlinging)
      ensures events == old(events) +
                if action.ScrollOffBottom? && hasListener then [StartScrollOffBottom] else []
    {
      var snapped;
      snapped, status := SnapToTop(flingDelta);
      if snapped {
        action := SnapAction.SnapToTop(scrollerFinalY - scrollerStartY);
      } else {
        var scrolledOff := SnapToBottom(flingDelta);
        action := if scrolledOff then SnapAction.ScrollOffBottom else NoSnap;
      }
    }

    /**
     * The end of a drag. A release fast enough in either direction starts a
     * fling whose projected distance is flingDistance and snaps with it;
     * a slow release, a cancel, or a scroller without children snaps with no
     * fling distance.
     */
    method StopDrag(cancelled: bool, velocity: int, flingDistance: int)
      returns (action: SnapAction, status: Status)
      requires Valid()
      modifies this`isBeingDragged, this`receivedDown
      modifies this`scrollerFinished, this`scrollerStartY, this`scrollerFinalY, this`scrollerFlinging
      modifies this`events
      ensures Valid()
      ensures !isBeingDragged && !receivedDown && status == Ok
      ensures var flings := !cancelled && cfg.hasChildren
                            && (velocity > cfg.minimumVelocity || velocity < -(cfg.minimumVelocity as int));
              && action == SnapDecision(cfg, Layout(), if flings then flingDistance else 0)
              && (action.SnapToTop? ==>
                    && !scrollerFinished && !scrollerFlinging && scrollerStartY == Scroll(cfg, Layout())
                    && scrollerFinalY == scrollerStartY + action.requiredScroll)
              && (action.ScrollOffBottom? ==> scrollerFinished)
              && (action.NoSnap? && flings ==>
                    && !scrollerFinished && scrollerFlinging && scrollerStartY == Scroll(cfg, Layout())
                    && scrollerFinalY == scrollerStartY + flingDistance)
              && (action.NoSnap? && !flings ==>
                    && scrollerFinished == old(scrollerFinished)
                    && scrollerStartY == old(scrollerStartY) && scrollerFinalY == old(scrollerFinalY)
                    && scrollerFlinging == old(scrollerFlinging))
      ensures events == old(events) +
                if action.ScrollOffBottom? && hasListener then [StartScrollOffBottom] else []
    {
      isBeingDragged := false;
      var flingDelta := 0;
      if !cancelled && cfg.hasChildren {
        if velocity > cfg.minimumVelocity || velocity < -(cfg.minimumVelocity as int) {
          Fling(flingDistance);
          flingDelta := scrollerFinalY - scrollerStartY;
        }
      }
      action, status := OnDragFinished(flingDelta);
      // the touch handler forgets the down event once the drag is released
      receivedDown := false;
    }

    /**
     * The end of the off-bottom animation: if rounding left the surface not
     * quite off screen, tell the listener it is, and detach the listener.
     */
    method OnSnapToBottomAnimationEnd()
      requires Valid()
      modifies this`hasListener, this`events
      ensures Valid()
      ensures var fires := ScrollUntilOffBottom(cfg, Layout()) > 0 && old(hasListener);
              && events == old(events) + (if fires then [ScrolledOffBottom] else [])
              && hasListener == (old(hasListener) && !fires)
    {
      if ScrollUntilOffBottom(cfg, Layout()) > 0 && hasListener {
        CountOfAppend(events, ScrolledOffBottom, ScrolledOffBottom);
        events := events + [ScrolledOffBottom];
        hasListener := false;
      }
    }

    /**
     * One posted off-bottom notification runs: the listener, if still
     * attached, is told and then detached, so the notification is delivered
     * at most once however many were posted.
     */
    method RunPostedOffBottom()
      requires Valid() && pendingOffBottom > 0
      modifies this`pendingOffBottom, this`hasListener, this`events
      ensures Valid()
      ensures pendingOffBottom == old(pendingOffBottom) - 1
      ensures events == old(events) + if old(hasListener) then [ScrolledOffBottom] else []
      ensures !hasListener
      ensures CountOf(events, ScrolledOffBottom) <= 1
    {
      pendingOffBottom := pendingOffBottom - 1;
      if hasListener {
        CountOfAppend(events, ScrolledOffBottom, ScrolledOffBottom);
        events := events + [ScrolledOffBottom];
        hasListener := false;
      }
    }

    /**
     * A tap on the photo: clicks are disabled until the animation ends, and
     * the animation HeaderToggle names is started.
     */
    method ExpandCollapseHeader() returns (animation: HeaderAnimation)
      modifies this`photoClickable
      ensures !photoClickable
      ensures animation == HeaderToggle(cfg, toolbarHeight, scrollY)
    {
      photoClickable := false;
      animation := HeaderToggle(cfg, toolbarHeight, scrollY);
    }

    /** The header animation ended: the photo accepts clicks again. */
    method OnHeaderAnimationEnd()
      modifies this`photoClickable
      ensures photoClickable
    {
      photoClickable := true;
    }

    /**
     * The card list is about to shrink by heightDelta: the header animation
     * that ShrinkTarget names, if any, is started.
     */
    method PrepareForShrinkingScrollChild(heightDelta: int) returns (target: Option<int>)
      ensures target == ShrinkTarget(cfg, toolbarHeight, heightDelta)
    {
      target := ShrinkTarget(cfg, toolbarHeight, heightDelta);
    }
  }
}
