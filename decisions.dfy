/**
 * The scroller's decision rules: whether a move starts a drag, where a
 * released drag snaps to, which listener notifications a scroll crosses, and
 * the animation targets chosen by a tap on the photo, by a shrinking card
 * list and by the entrance animation.
 */
module Decisions {
  import opened Geometry
  import opened Distribution

  function Abs(x: int): int { if x < 0 then -x else x }

  /**
   * A move starts a drag when the finger travelled further than the touch
   * slop vertically and no further than the slop horizontally.
   */
  function MotionShouldStartDrag(deltaX: int, deltaY: int, touchSlop: int): (start: bool)
    ensures start <==> Abs(deltaY) > touchSlop && Abs(deltaX) <= touchSlop
  {
    var draggedX := deltaX > touchSlop || deltaX < -touchSlop;
    var draggedY := deltaY > touchSlop || deltaY < -touchSlop;
    draggedY && !draggedX
  }

  /** What a released drag does: at most one of these. */
  datatype SnapAction =
    | SnapToTop(requiredScroll: int)  // smooth-scroll by requiredScroll to close the spacer
    | ScrollOffBottom                 // animate the whole surface off the bottom
    | NoSnap

  /**
   * The release decision, in terms of the projected snapping coordinate
   * p = snapping scroll + fling distance. It snaps to the top exactly when p
   * lies strictly between 0 and the spacer's start height and the snapping
   * scroll is not already at that height, and the smooth scroll it then asks for is
   * never zero and lands the snapping coordinate on the spacer's start height.
   * It scrolls off the bottom exactly when p is negative, i.e. the spacer is
   * projected to open past its starting height.
   */
  function SnapDecision(cfg: Config, r: Regions, flingDelta: int): (a: SnapAction)
    ensures var p := ScrollIgnoringOversizedHeader(cfg, r) + flingDelta;
            && (a.SnapToTop? <==>
                  0 < p < cfg.transparentStartHeight
                  && ScrollIgnoringOversizedHeader(cfg, r) != cfg.transparentStartHeight)
            && (a.ScrollOffBottom? <==> p < 0)
    ensures a.SnapToTop? ==>
              && a.requiredScroll != 0
              && ScrollIgnoringOversizedHeader(cfg, r) + a.requiredScroll == cfg.transparentStartHeight
  {
    var snapScroll := ScrollIgnoringOversizedHeader(cfg, r);
    var requiredScroll := -snapScroll + cfg.transparentStartHeight;
    if -snapScroll - flingDelta < 0 && -snapScroll - flingDelta > -(cfg.transparentStartHeight as int)
       && requiredScroll != 0
    then SnapToTop(requiredScroll)
    else if -snapScroll - flingDelta > 0 then ScrollOffBottom
    else NoSnap
  }

  /**
   * From any stacked position with a non-negative spacer, in-range content
   * and a header at or above its floor, a top snap lands with the spacer
   * closed, the content at its top and the header at its ceiling, or left as
   * it is when a tap on the photo has grown it past the ceiling. With the
   * spacer open it scrolls up by exactly the spacer's height, which is why the
   * decision uses the snapping scroll: the composite scroll would also count
   * the oversized header and compress it. With the spacer already closed it
   * is a downward snap that gives back the compressed header and the scrolled
   * content.
   */
  lemma SnapToTopClosesSpacer(cfg: Config, r: Regions, flingDelta: int)
    requires r.transparent >= 0 && 0 <= r.content <= cfg.contentMaxScroll
    requires r.header >= FullyCompressedHeaderHeight(cfg, r.header) && Stacked(cfg, r)
    requires SnapDecision(cfg, r, flingDelta).SnapToTop?
    ensures r.transparent > 0 ==> SnapDecision(cfg, r, flingDelta).requiredScroll == r.transparent
    ensures r.transparent == 0 ==> SnapDecision(cfg, r, flingDelta).requiredScroll < 0
    ensures ScrollToRegions(cfg, r, Scroll(cfg, r) + SnapDecision(cfg, r, flingDelta).requiredScroll)
            == Regions(0, Max(r.header, MaximumScrollableHeaderHeight(cfg)), 0)
  {
  }

  /**
   * Scrolling off the bottom targets the composite scroll minus the distance
   * still to go. From any in-range content offset and a spacer that fits in
   * the viewport, landing there leaves the content at its top, a header below
   * its ceiling grown to it (an oversized one left as it is) and a spacer as
   * tall as the viewport, with nothing further to scroll.
   */
  lemma ScrollOffBottomLeavesViewport(cfg: Config, r: Regions)
    requires 0 <= r.content <= cfg.contentMaxScroll && r.transparent <= cfg.height
    ensures var r' := ScrollToRegions(cfg, r, Scroll(cfg, r) - ScrollUntilOffBottom(cfg, r));
            && r' == Regions(cfg.height, Max(r.header, MaximumScrollableHeaderHeight(cfg)), 0)
            && ScrollUntilOffBottom(cfg, r') == 0
  {
  }

  /** The listener's callbacks. */
  datatype ListenerEvent =
    | ScrolledOffBottom
    | StartScrollOffBottom
    | EnterFullscreen
    | ExitFullscreen

  /**
   * The fullscreen notifications of one scroll, from whether the surface was
   * fullscreen (spacer closed) before and after: exit exactly on leaving,
   * enter exactly on arriving, nothing otherwise.
   */
  function FullscreenEvents(wasFullscreen: bool, isFullscreen: bool): (e: seq<ListenerEvent>)
    ensures |e| <= 1
    ensures e == [ExitFullscreen] <==> wasFullscreen && !isFullscreen
    ensures e == [EnterFullscreen] <==> !wasFullscreen && isFullscreen
  {
    if wasFullscreen && !isFullscreen then [ExitFullscreen]
    else if !wasFullscreen && isFullscreen then [EnterFullscreen]
    else []
  }

  /**
   * Scrolling up can only enter fullscreen and scrolling down can only leave
   * it, since the spacer never grows on the way up nor shrinks on the way down.
   */
  lemma FullscreenEventsFollowDirection(cfg: Config, r: Regions, y: int)
    requires r.transparent >= 0 && 0 <= r.content <= cfg.contentMaxScroll
    ensures var r' := ScrollToRegions(cfg, r, y);
            var e := FullscreenEvents(r.transparent <= 0, r'.transparent <= 0);
            && (y > Scroll(cfg, r) ==> e != [ExitFullscreen])
            && (y <= Scroll(cfg, r) ==> e != [EnterFullscreen])
  {
  }

  /** The animations a tap on the photo starts. */
  datatype HeaderAnimation =
    | Expand(headerTarget: int, contentTarget: Option<int>)
    | Collapse(headerTarget: int)
    | Unchanged

  /**
   * A tap on the photo expands a header that is not at its maximum, scrolling
   * a scrolled content back to its top; a header at its maximum that is not
   * also at its minimum collapses to the intermediate height.
   */
  function HeaderToggle(cfg: Config, header: int, scrollY: int): (a: HeaderAnimation)
    ensures a.Expand? <==> header != cfg.maximumHeaderHeight
    ensures a.Expand? ==>
              && a.headerTarget == cfg.maximumHeaderHeight
              && (a.contentTarget.Some? <==> scrollY != 0)
              && (a.contentTarget.Some? && scrollY >= 0 ==>
                    Clamp(a.contentTarget.value, 0, cfg.contentMaxScroll) == 0)
    ensures a.Collapse? <==>
              header == cfg.maximumHeaderHeight && header != cfg.minimumHeaderHeight
    ensures a.Collapse? ==> a.headerTarget == cfg.intermediateHeaderHeight
  {
    if header != cfg.maximumHeaderHeight then
      Expand(cfg.maximumHeaderHeight, if scrollY != 0 then Some(-scrollY) else None)
    else if header != cfg.minimumHeaderHeight then
      Collapse(cfg.intermediateHeaderHeight)
    else
      Unchanged
  }

  /**
   * Repeated taps alternate: an expanded header collapses to the intermediate
   * height, which the next tap expands again.
   */
  lemma HeaderToggleAlternates(cfg: Config, header: int)
    requires cfg.maximumHeaderHeight != cfg.minimumHeaderHeight
    requires cfg.intermediateHeaderHeight != cfg.maximumHeaderHeight
    requires header != cfg.maximumHeaderHeight
    ensures HeaderToggle(cfg, header, 0) == Expand(cfg.maximumHeaderHeight, None)
    ensures HeaderToggle(cfg, cfg.maximumHeaderHeight, 0) == Collapse(cfg.intermediateHeaderHeight)
    ensures HeaderToggle(cfg, cfg.intermediateHeaderHeight, 0).Expand?
  {
  }

  /**
   * When the card list is about to shrink by heightDelta, the header grows
   * into the empty space that would appear, up to its scrollable maximum; only
   * in single-panel mode and only when such space appears. The target never
   * passes the ceiling, grows a header that is below it, and depends only on
   * the configuration and heightDelta, not on the current header.
   */
  function ShrinkTarget(cfg: Config, header: int, heightDelta: int): (t: Option<int>)
    ensures t.Some? <==> !cfg.isTwoPanel && heightDelta > OverflowingChildViewSize(cfg, header)
    ensures t.Some? ==>
              && t.value <= MaximumScrollableHeaderHeight(cfg)
              && (header < MaximumScrollableHeaderHeight(cfg) ==> t.value > header)
              && t.value == Min(cfg.height - UsedScrollViewSpace(cfg) + heightDelta,
                                MaximumScrollableHeaderHeight(cfg))
  {
    var newEmptyScrollViewSpace := -OverflowingChildViewSize(cfg, header) + heightDelta;
    if newEmptyScrollViewSpace > 0 && !cfg.isTwoPanel then
      Some(Min(header + newEmptyScrollViewSpace, MaximumScrollableHeaderHeight(cfg)))
    else
      None
  }

  /** An animation of the composite scroll between two values. */
  datatype ScrollAnimation = ScrollAnimation(from: int, to: int)

  /** Where the entrance animation starts: one pixel short of the viewport's bottom. */
  function EntranceStart(cfg: Config, r: Regions): int
  {
    Scroll(cfg, r) - (cfg.height - r.transparent) + 1
  }

  /**
   * From a stacked, in-range position whose spacer is open but shorter than
   * the viewport, the entrance animation's start leaves exactly one pixel of
   * the surface to scroll before everything is off the bottom.
   */
  lemma EntranceStartNearlyOffBottom(cfg: Config, r: Regions)
    requires InRange(cfg, r) && Stacked(cfg, r) && 0 < r.transparent < cfg.height
    ensures ScrollUntilOffBottom(cfg, ScrollToRegions(cfg, r, EntranceStart(cfg, r))) == 1
  {
  }

  /**
   * The entrance animation as the source writes it: asked to return to the
   * current position, it ends at twice the current scroll.
   */
  function EntranceAnimationAsWritten(cfg: Config, r: Regions, scrollToCurrentPosition: bool)
    : (a: ScrollAnimation)
    ensures a.from == EntranceStart(cfg, r)
    ensures scrollToCurrentPosition ==> a.to == 2 * Scroll(cfg, r)
  {
    var currentPosition := Scroll(cfg, r);
    ScrollAnimation(EntranceStart(cfg, r),
                    currentPosition + (if scrollToCurrentPosition then currentPosition
                                       else r.transparent))
  }

  /** The as-written animation returns to the current position only when that position is 0. */
  lemma EntranceAsWrittenMissesCurrentPosition(cfg: Config, r: Regions)
    ensures EntranceAnimationAsWritten(cfg, r, true).to == Scroll(cfg, r) <==> Scroll(cfg, r) == 0
  {
  }

  /** A concrete case: with the spacer closed the current scroll is 100, the animation ends at 200. */
  lemma EntranceAsWrittenOvershoots()
    ensures var cfg := Config(100, 56, 200, 400, false, false, 800, 1000, 0, 500, 8, 50, true);
            var r := Regions(0, 200, 0);
            && Scroll(cfg, r) == 100
            && EntranceAnimationAsWritten(cfg, r, true).to == 200
  {
  }

  /**
   * The entrance animation as documented: it slides up from the bottom of the
   * viewport to the current position, or else to the position where the
   * spacer is closed.
   */
  function EntranceAnimation(cfg: Config, r: Regions, scrollToCurrentPosition: bool)
    : (a: ScrollAnimation)
    ensures a.from == EntranceStart(cfg, r)
    ensures scrollToCurrentPosition ==> a.to == Scroll(cfg, r)
    ensures !scrollToCurrentPosition ==> a.to == Scroll(cfg, r) + r.transparent
  {
    var currentPosition := Scroll(cfg, r);
    ScrollAnimation(EntranceStart(cfg, r),
                    currentPosition + (if scrollToCurrentPosition then 0 else r.transparent))
  }

  /**
   * From a stacked position whose spacer is non-negative and shorter than the
   * viewport, whose content is in range and whose header is at or above its
   * floor (an oversized header included), the documented entrance animation
   * lands back on the very same regions when asked to return to the current
   * position, and with the spacer closed otherwise.
   */
  lemma EntranceAnimationLands(cfg: Config, r: Regions)
    requires r.transparent >= 0 && 0 <= r.content <= cfg.contentMaxScroll
    requires r.header >= FullyCompressedHeaderHeight(cfg, r.header) && Stacked(cfg, r)
    requires r.transparent < cfg.height
    ensures var a := EntranceAnimation(cfg, r, true);
            ScrollToRegions(cfg, ScrollToRegions(cfg, r, a.from), a.to) == r
    ensures var a := EntranceAnimation(cfg, r, false);
            ScrollToRegions(cfg, ScrollToRegions(cfg, r, a.from), a.to).transparent == 0
  {
    ScrollDownThenUpRestores(cfg, r, cfg.height - r.transparent - 1);
  }
}
