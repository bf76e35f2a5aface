/**
 * How a signed scroll delta is shared among the three regions. Scrolling up
 * closes the spacer first, then compresses the header down to its floor, then
 * scrolls the content; scrolling down gives the content back first, then
 * grows the header up to its ceiling, then opens the spacer with the rest.
 * These are the values the scroller's methods are proved to compute.
 */
module Distribution {
  import opened Geometry

  /** Every region lies within the bounds that scrolling maintains. */
  predicate InRange(cfg: Config, r: Regions)
  {
    && r.transparent >= 0
    && 0 <= r.content <= cfg.contentMaxScroll
    && FullyCompressedHeaderHeight(cfg, r.header) <= r.header <= MaximumScrollableHeaderHeight(cfg)
  }

  /**
   * The regions move one at a time: while the spacer is open the content is at
   * its top and the header at its ceiling, and while the content is scrolled
   * the spacer is closed and the header at its floor.
   */
  predicate Stacked(cfg: Config, r: Regions)
  {
    && (r.transparent > 0 ==>
          r.content == 0 && r.header >= MaximumScrollableHeaderHeight(cfg))
    && (r.content > 0 ==>
          r.transparent == 0 && r.header <= FullyCompressedHeaderHeight(cfg, r.header))
  }

  /**
   * Upward motion by a positive delta. The spacer never goes negative and
   * never grows, the header never grows and does not drop below its floor,
   * a region further down moves only once the ones above it are exhausted,
   * and the composite scroll advances by the whole delta unless every region
   * is exhausted: spacer closed, header at its floor, content at its maximum.
   */
  function ScrollUpRegions(cfg: Config, r: Regions, delta: int): (r': Regions)
    requires delta > 0
    ensures r'.transparent >= 0
    ensures r.transparent >= 0 ==> r'.transparent <= r.transparent
    ensures r'.header <= r.header
    ensures r.header >= FullyCompressedHeaderHeight(cfg, r.header) ==>
              r'.header >= FullyCompressedHeaderHeight(cfg, r.header)
    ensures r'.header != r.header ==> r'.transparent == 0
    ensures r.transparent >= 0 && 0 <= r.content <= cfg.contentMaxScroll ==>
              && r.content <= r'.content <= cfg.contentMaxScroll
              && (r'.content != r.content ==>
                    r'.transparent == 0 && r'.header <= FullyCompressedHeaderHeight(cfg, r.header))
              && Scroll(cfg, r) <= Scroll(cfg, r') <= Scroll(cfg, r) + delta
              && (|| Scroll(cfg, r') == Scroll(cfg, r) + delta
                  || (&& r'.transparent == 0
                      && r'.header == Min(r.header, FullyCompressedHeaderHeight(cfg, r.header))
                      && r'.content == cfg.contentMaxScroll))
  {
    var transparent := if r.transparent != 0 then Max(0, r.transparent - delta) else r.transparent;
    var afterSpacer := delta - (r.transparent - transparent);
    var floor := FullyCompressedHeaderHeight(cfg, r.header);
    var header := if r.header > floor then Max(r.header - afterSpacer, floor) else r.header;
    var afterHeader := afterSpacer - (r.header - header);
    Regions(transparent, header, Clamp(r.content + afterHeader, 0, cfg.contentMaxScroll))
  }

  /**
   * Downward motion by a non-positive delta. The composite scroll moves by
   * exactly the delta, the header does not pass its ceiling, and a header
   * already at or above its ceiling is left where it is. From a
   * content offset within the ScrollView's range, the spacer and the header
   * only grow, and a region further up moves only once the ones below it are
   * exhausted.
   */
  function ScrollDownRegions(cfg: Config, r: Regions, delta: int): (r': Regions)
    requires delta <= 0
    ensures Scroll(cfg, r') == Scroll(cfg, r) + delta
    ensures r.header <= MaximumScrollableHeaderHeight(cfg) ==>
              r'.header <= MaximumScrollableHeaderHeight(cfg)
    ensures r.header >= MaximumScrollableHeaderHeight(cfg) ==> r'.header == r.header
    ensures 0 <= r.content <= cfg.contentMaxScroll ==>
              && r'.transparent >= r.transparent
              && r'.header >= r.header
              && 0 <= r'.content <= r.content
              && (r'.header != r.header ==> r'.content == 0)
              && (r'.transparent != r.transparent ==>
                    r'.content == 0 && r'.header >= MaximumScrollableHeaderHeight(cfg))
  {
    var content := if r.content > 0 then Clamp(r.content + delta, 0, cfg.contentMaxScroll)
                   else r.content;
    var afterContent := delta - (content - r.content);
    var ceiling := MaximumScrollableHeaderHeight(cfg);
    var header := if r.header < ceiling then Min(r.header - afterContent, ceiling) else r.header;
    var afterHeader := afterContent - (r.header - header);
    Regions(r.transparent - afterHeader, header, content)
  }

  /**
   * Scrolling to a composite target: the delta decides the direction. A target
   * at or below the current scroll is reached exactly; a target above it is
   * approached without overshooting and reached unless every region is
   * exhausted. Both invariants above survive the move.
   */
  function ScrollToRegions(cfg: Config, r: Regions, y: int): (r': Regions)
    ensures y <= Scroll(cfg, r) ==> Scroll(cfg, r') == y
    ensures y > Scroll(cfg, r) && r.transparent >= 0 ==> r'.transparent <= r.transparent
    ensures 0 <= r.content <= cfg.contentMaxScroll ==>
              && 0 <= r'.content <= cfg.contentMaxScroll
              && (r.transparent >= 0 ==> r'.transparent >= 0)
              && (y <= Scroll(cfg, r) ==> r'.transparent >= r.transparent)
              && (y > Scroll(cfg, r) && r.transparent >= 0 ==>
                    && Scroll(cfg, r) <= Scroll(cfg, r') <= y
                    && (|| Scroll(cfg, r') == y
                        || (&& r'.transparent == 0
                            && r'.header == Min(r.header, FullyCompressedHeaderHeight(cfg, r.header))
                            && r'.content == cfg.contentMaxScroll)))
    ensures InRange(cfg, r) && Stacked(cfg, r) ==> InRange(cfg, r') && Stacked(cfg, r')
  {
    var delta := y - Scroll(cfg, r);
    if delta > 0 then ScrollUpRegions(cfg, r, delta) else ScrollDownRegions(cfg, r, delta)
  }

  /**
   * A drag: each move event scrolls to the current composite scroll plus the
   * finger's vertical movement.
   */
  function Drag(cfg: Config, r: Regions, deltas: seq<int>): Regions
    decreases |deltas|
  {
    if deltas == [] then r
    else Drag(cfg, ScrollToRegions(cfg, r, Scroll(cfg, r) + deltas[0]), deltas[1..])
  }

  function Sum(deltas: seq<int>): int
  {
    if deltas == [] then 0 else deltas[0] + Sum(deltas[1..])
  }

  /** However long a drag, every region stays in range and the regions stay stacked. */
  lemma {:induction false} DragKeepsLayout(cfg: Config, r: Regions, deltas: seq<int>)
    requires InRange(cfg, r) && Stacked(cfg, r)
    ensures InRange(cfg, Drag(cfg, r, deltas)) && Stacked(cfg, Drag(cfg, r, deltas))
    decreases |deltas|
  {
    if deltas != [] {
      DragKeepsLayout(cfg, ScrollToRegions(cfg, r, Scroll(cfg, r) + deltas[0]), deltas[1..]);
    }
  }

  /** A drag made only of upward moves never lowers the composite scroll. */
  lemma {:induction false} UpwardDragNeverDecreases(cfg: Config, r: Regions, deltas: seq<int>)
    requires r.transparent >= 0 && 0 <= r.content <= cfg.contentMaxScroll
    requires forall i :: 0 <= i < |deltas| ==> deltas[i] >= 0
    ensures Scroll(cfg, Drag(cfg, r, deltas)) >= Scroll(cfg, r)
    decreases |deltas|
  {
    if deltas != [] {
      UpwardDragNeverDecreases(cfg, ScrollToRegions(cfg, r, Scroll(cfg, r) + deltas[0]), deltas[1..]);
    }
  }

  /**
   * A drag made only of downward moves shifts the composite scroll by exactly
   * the sum of its moves and never shrinks the spacer.
   */
  lemma {:induction false} DownwardDragIsExact(cfg: Config, r: Regions, deltas: seq<int>)
    requires 0 <= r.content <= cfg.contentMaxScroll
    requires forall i :: 0 <= i < |deltas| ==> deltas[i] <= 0
    ensures Scroll(cfg, Drag(cfg, r, deltas)) == Scroll(cfg, r) + Sum(deltas)
    ensures Drag(cfg, r, deltas).transparent >= r.transparent
    decreases |deltas|
  {
    if deltas != [] {
      DownwardDragIsExact(cfg, ScrollToRegions(cfg, r, Scroll(cfg, r) + deltas[0]), deltas[1..]);
    }
  }

  /**
   * Scrolling down and then back up by the same amount restores every region:
   * motion is reversible from any stacked position with a non-negative spacer,
   * in-range content and a header at or above its floor, including a header
   * that a tap on the photo has grown past its scrollable maximum.
   */
  lemma ScrollDownThenUpRestores(cfg: Config, r: Regions, d: nat)
    requires r.transparent >= 0 && 0 <= r.content <= cfg.contentMaxScroll
    requires r.header >= FullyCompressedHeaderHeight(cfg, r.header) && Stacked(cfg, r)
    ensures ScrollToRegions(cfg, ScrollToRegions(cfg, r, Scroll(cfg, r) - d), Scroll(cfg, r)) == r
  {
  }
}
