/**
 * The fixed parameters of a MultiShrinkScroller and the heights derived from
 * them. The surface stacks three regions: a transparent spacer, a shrinkable
 * header (the toolbar that holds the photo) and a nested ScrollView holding
 * the cards. A single composite coordinate, the scroll, summarises how far
 * the whole surface has moved up.
 */
module Geometry {

  datatype Option<T> = None | Some(value: T)

  /**
   * Values the scroller reads once after its first layout and never changes
   * afterwards: resource dimensions, the header limits computed from the
   * surface width, the two mode flags, and the sizes of the views it measures.
   */
  datatype Config = Config(
    transparentStartHeight: nat,    // starting height of the transparent spacer
    minimumHeaderHeight: int,       // action bar size, or the full height in two-panel mode
    intermediateHeaderHeight: int,  // half the width in portrait
    maximumHeaderHeight: int,       // the width in portrait (a square photo)
    isOpenContactSquare: bool,      // scrolling may grow the header up to its maximum
    isTwoPanel: bool,
    height: int,                    // height of the scroller itself (the viewport)
    scrollViewChildHeight: int,     // height of the card container inside the ScrollView
    leftOverSpaceHeight: int,       // empty filler at the end of the card container
    contentMaxScroll: nat,          // largest scrollY the nested ScrollView accepts
    touchSlop: nat,
    minimumVelocity: nat,           // smallest velocity that counts as a fling
    hasChildren: bool               // the scroller has at least one child view
  )

  /** The three integers the scroller moves: spacer height, header height, content offset. */
  datatype Regions = Regions(transparent: int, header: int, content: int)

  function Min(a: int, b: int): int { if a <= b then a else b }

  function Max(a: int, b: int): int { if a >= b then a else b }

  /** The nested ScrollView keeps its offset between 0 and its maximum scroll. */
  function Clamp(x: int, lo: int, hi: int): (r: int)
    requires lo <= hi
    ensures lo <= r <= hi
    ensures lo <= x <= hi ==> r == x
    ensures x < lo ==> r == lo
    ensures hi < x ==> r == hi
  {
    Min(Max(x, lo), hi)
  }

  /** The largest header height that scrolling down may reach. */
  function MaximumScrollableHeaderHeight(cfg: Config): int
  {
    if cfg.isOpenContactSquare then cfg.maximumHeaderHeight else cfg.intermediateHeaderHeight
  }

  /**
   * The composite scroll: how much the spacer has closed, plus how much the
   * header has shrunk below its scrollable maximum, plus the content offset.
   */
  function Scroll(cfg: Config, r: Regions): int
  {
    cfg.transparentStartHeight - r.transparent
    + MaximumScrollableHeaderHeight(cfg) - r.header
    + r.content
  }

  /**
   * The variant of the composite scroll used for snapping decisions: a header
   * taller than its scrollable maximum counts as if it were at that maximum.
   * It never undercuts the composite scroll and agrees with it exactly when the
   * header is not oversized.
   */
  function ScrollIgnoringOversizedHeader(cfg: Config, r: Regions): (s: int)
    ensures s >= Scroll(cfg, r)
    ensures s == Scroll(cfg, r) <==> r.header <= MaximumScrollableHeaderHeight(cfg)
  {
    cfg.transparentStartHeight - r.transparent
    + Max(MaximumScrollableHeaderHeight(cfg) - r.header, 0)
    + r.content
  }

  /** Height of the cards inside the ScrollView, without the empty filler. */
  function UsedScrollViewSpace(cfg: Config): int
  {
    cfg.scrollViewChildHeight - cfg.leftOverSpaceHeight
  }

  /** How much of the card container does not fit below a header of the given height. */
  function OverflowingChildViewSize(cfg: Config, header: int): int
  {
    -cfg.height + UsedScrollViewSpace(cfg) + header
  }

  /**
   * The floor that scrolling up compresses the header to: small enough that
   * the content starts scrolling only once it overflows, never below the
   * minimum header height unless the scrollable maximum is itself below it.
   * The current header height cancels out, so the floor depends on the
   * configuration alone.
   */
  function FullyCompressedHeaderHeight(cfg: Config, header: int): (f: int)
    ensures Min(cfg.minimumHeaderHeight, MaximumScrollableHeaderHeight(cfg)) <= f
    ensures f <= MaximumScrollableHeaderHeight(cfg)
    ensures f == Min(Max(cfg.height - UsedScrollViewSpace(cfg), cfg.minimumHeaderHeight),
                     MaximumScrollableHeaderHeight(cfg))
  {
    Min(Max(header - OverflowingChildViewSize(cfg, header), cfg.minimumHeaderHeight),
        MaximumScrollableHeaderHeight(cfg))
  }

  /**
   * What the overflow means at the floor: the cards still overflow a header
   * compressed to its floor only when the minimum header height (or the
   * ceiling) stopped the compression, and a floor strictly between the
   * minimum and the ceiling is exactly the height at which the cards fit.
   */
  lemma OverflowAtFloor(cfg: Config, header: int)
    ensures var f := FullyCompressedHeaderHeight(cfg, header);
            && (OverflowingChildViewSize(cfg, f) > 0 ==>
                  f == Min(cfg.minimumHeaderHeight, MaximumScrollableHeaderHeight(cfg)))
            && (cfg.minimumHeaderHeight < f < MaximumScrollableHeaderHeight(cfg) ==>
                  OverflowingChildViewSize(cfg, f) == 0)
  {
  }

  /**
   * How far the surface must still scroll down for every region to leave the
   * bottom of the viewport. When the header is at or above its scrollable
   * maximum this is the viewport height minus the open spacer plus whatever
   * the content has scrolled; otherwise the missing header height adds to it.
   */
  function ScrollUntilOffBottom(cfg: Config, r: Regions): (u: int)
    ensures u >= cfg.height - r.transparent + r.content
    ensures r.header >= MaximumScrollableHeaderHeight(cfg) ==>
              u == cfg.height - r.transparent + r.content
  {
    cfg.height + ScrollIgnoringOversizedHeader(cfg, r) - cfg.transparentStartHeight
  }

  /**
   * The largest composite scroll a drag may reach before the overscroll glow
   * takes over: the whole spacer, plus (in single-panel mode) the range the
   * header can compress, plus whatever the cards overflow. It never lies below
   * the spacer's starting height, and in single-panel mode it covers the full
   * compressible range of the header.
   */
  function MaximumScrollUpwards(cfg: Config, header: int): (m: int)
    ensures m >= cfg.transparentStartHeight
    ensures !cfg.isTwoPanel ==>
              m >= cfg.transparentStartHeight + MaximumScrollableHeaderHeight(cfg)
                   - FullyCompressedHeaderHeight(cfg, header)
  {
    if !cfg.isTwoPanel then
      cfg.transparentStartHeight
      + MaximumScrollableHeaderHeight(cfg) - FullyCompressedHeaderHeight(cfg, header)
      + Max(0, cfg.scrollViewChildHeight - cfg.height + FullyCompressedHeaderHeight(cfg, header))
    else
      cfg.transparentStartHeight + Max(0, cfg.scrollViewChildHeight - cfg.height)
  }
}
