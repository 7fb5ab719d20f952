/**
 * The detection rules of the Antigravity ICT Nexus indicator, stated as
 * pure functions over the bar history.  `Step` is what one call of the
 * indicator's bar-close handler does to the detector state; the class in
 * module Nexus is proved to do exactly this.
 *
 * Prices are the host's doubles; the core only ever compares them, so they
 * are modelled as `real`.
 */
module Detection {

  /** A closed bar.  The core reads nothing of a bar but its high and low. */
  datatype Bar = Bar(high: real, low: real)

  /** A confirmed pivot (`SwingPoint` in the source). */
  datatype SwingPoint = SwingPoint(price: real, barIndex: int, isHigh: bool)

  /** The value of one fair-value-gap box (`ICT_FVG` in the source). */
  datatype Gap = Gap(top: real, bottom: real, startBarIndex: int, isBullish: bool, isMitigated: bool)

  datatype Option<T> = None | Some(value: T)

  /** The two user settings the detection reads. */
  datatype Config = Config(swingStrength: int, showFvg: bool)

  /** Everything the bar-close handler updates: the two pattern lists and the two trackers. */
  datatype Engine = Engine(swingPoints: seq<SwingPoint>, fvgs: seq<Gap>, lastHighBar: int, lastLowBar: int)

  /** Empty lists, and both trackers at -1, as the indicator starts out. */
  const Initial: Engine := Engine([], [], -1, -1)

  /** Bars that must pass after a gap's first bar before it can be mitigated. */
  const MitigationGraceBars: int := 2

  /** The declared range of the Swing Strength setting. */
  predicate ValidConfig(cfg: Config) {
    1 <= cfg.swingStrength <= 100
  }

  /** The host's `CurrentBar`: the index of the newest bar. */
  function CurrentBar(bars: seq<Bar>): int {
    |bars| - 1
  }

  /** The host's `High[barsAgo]`: the high of bar `CurrentBar - barsAgo`. */
  function High(bars: seq<Bar>, barsAgo: int): real
    requires 0 <= barsAgo < |bars|
  {
    bars[|bars| - 1 - barsAgo].high
  }

  /** The host's `Low[barsAgo]`. */
  function Low(bars: seq<Bar>, barsAgo: int): real
    requires 0 <= barsAgo < |bars|
  {
    bars[|bars| - 1 - barsAgo].low
  }

  /** The negation of the handler's warm-up guard `CurrentBar < 2 * SwingStrength + 1`. */
  predicate WarmedUp(bars: seq<Bar>, strength: int) {
    CurrentBar(bars) >= 2 * strength + 1
  }

  /** Bar `c` has a high strictly above every other high within `strength` bars on either side. */
  predicate IsSwingHigh(bars: seq<Bar>, c: int, strength: int) {
    && 0 <= c - strength
    && c + strength < |bars|
    && forall j :: c - strength <= j <= c + strength && j != c ==> bars[j].high < bars[c].high
  }

  /** Bar `c` has a low strictly below every other low within `strength` bars on either side. */
  predicate IsSwingLow(bars: seq<Bar>, c: int, strength: int) {
    && 0 <= c - strength
    && c + strength < |bars|
    && forall j :: c - strength <= j <= c + strength && j != c ==> bars[j].low > bars[c].low
  }

  /** The de-duplication guard: the newest stored pivot already is this bar with this polarity. */
  predicate RepeatsLast(points: seq<SwingPoint>, barIndex: int, isHigh: bool) {
    |points| > 0 && points[|points| - 1].barIndex == barIndex && points[|points| - 1].isHigh == isHigh
  }

  /** The index of the bar the handler examines for a pivot. */
  function Candidate(bars: seq<Bar>, strength: int): int {
    CurrentBar(bars) - strength
  }

  /**
   * The swing scan: examine the candidate bar, append a pivot high and then
   * a pivot low when the window test holds and the guard lets it through,
   * and move the matching tracker to the candidate.
   */
  function DetectSwings(e: Engine, bars: seq<Bar>, strength: int): (r: Engine)
    requires 1 <= strength && WarmedUp(bars, strength)
    ensures r.fvgs == e.fvgs
    ensures e.swingPoints <= r.swingPoints && |r.swingPoints| <= |e.swingPoints| + 2
    ensures forall i :: |e.swingPoints| <= i < |r.swingPoints| ==>
              var p := r.swingPoints[i];
              && p.barIndex == Candidate(bars, strength)
              && (p.isHigh ==> IsSwingHigh(bars, p.barIndex, strength) && p.price == bars[p.barIndex].high)
              && (!p.isHigh ==> IsSwingLow(bars, p.barIndex, strength) && p.price == bars[p.barIndex].low)
    // a high is appended exactly when the window test holds and the guard allows it
    ensures var c := Candidate(bars, strength);
            var highAdded := IsSwingHigh(bars, c, strength) && !RepeatsLast(e.swingPoints, c, true);
            && (highAdded <==> |r.swingPoints| > |e.swingPoints| && r.swingPoints[|e.swingPoints|].isHigh)
            && r.lastHighBar == (if highAdded then c else e.lastHighBar)
    // a low is appended exactly when its test holds and the guard allows it, after any high
    ensures var c := Candidate(bars, strength);
            var mid := if IsSwingHigh(bars, c, strength) && !RepeatsLast(e.swingPoints, c, true)
                       then e.swingPoints + [SwingPoint(bars[c].high, c, true)] else e.swingPoints;
            var lowAdded := IsSwingLow(bars, c, strength) && !RepeatsLast(mid, c, false);
            && (lowAdded <==> |r.swingPoints| > |e.swingPoints| && !r.swingPoints[|r.swingPoints| - 1].isHigh)
            && r.lastLowBar == (if lowAdded then c else e.lastLowBar)
    // one pivot per test that passes the guard, and no more
    ensures var c := Candidate(bars, strength);
            var highAdded := IsSwingHigh(bars, c, strength) && !RepeatsLast(e.swingPoints, c, true);
            var mid := if highAdded then e.swingPoints + [SwingPoint(bars[c].high, c, true)] else e.swingPoints;
            var lowAdded := IsSwingLow(bars, c, strength) && !RepeatsLast(mid, c, false);
            |r.swingPoints| == |e.swingPoints| + (if highAdded then 1 else 0) + (if lowAdded then 1 else 0)
  {
    var c := Candidate(bars, strength);
    var e1 := if IsSwingHigh(bars, c, strength) && !RepeatsLast(e.swingPoints, c, true)
              then e.(swingPoints := e.swingPoints + [SwingPoint(bars[c].high, c, true)], lastHighBar := c)
              else e;
    if IsSwingLow(bars, c, strength) && !RepeatsLast(e1.swingPoints, c, false)
    then e1.(swingPoints := e1.swingPoints + [SwingPoint(bars[c].low, c, false)], lastLowBar := c)
    else e1
  }

  /**
   * The three-bar gap test on the newest bar: bullish when its low is above
   * the high two bars back, otherwise bearish when its high is below the low
   * two bars back.
   */
  function DetectGap(bars: seq<Bar>): (r: Option<Gap>)
    requires |bars| >= 3
    ensures r.Some? <==> Low(bars, 0) > High(bars, 2) || High(bars, 0) < Low(bars, 2)
    ensures r.Some? ==> && r.value.top > r.value.bottom
                        && r.value.startBarIndex == CurrentBar(bars) - 2
                        && !r.value.isMitigated
                        && (r.value.isBullish <==> Low(bars, 0) > High(bars, 2))
    ensures r.Some? && r.value.isBullish ==> r.value.top == Low(bars, 0) && r.value.bottom == High(bars, 2)
    ensures r.Some? && !r.value.isBullish ==> r.value.top == Low(bars, 2) && r.value.bottom == High(bars, 0)
  {
    if Low(bars, 0) > High(bars, 2) then
      Some(Gap(Low(bars, 0), High(bars, 2), CurrentBar(bars) - 2, true, false))
    else if High(bars, 0) < Low(bars, 2) then
      Some(Gap(Low(bars, 2), High(bars, 0), CurrentBar(bars) - 2, false, false))
    else
      None
  }

  /** The current bar's range reaches into the gap box. */
  predicate Overlaps(bar: Bar, g: Gap) {
    bar.high >= g.bottom && bar.low <= g.top
  }

  /** Two gaps are the same box, whatever their mitigation flags. */
  predicate SameBox(a: Gap, b: Gap) {
    a.top == b.top && a.bottom == b.bottom && a.startBarIndex == b.startBarIndex && a.isBullish == b.isBullish
  }

  /**
   * One gap's mitigation test against the newest bar: the box stays, and the
   * flag ends set when it was set or the gap is past its grace bars and the
   * newest bar's range overlaps it.
   */
  function Mitigate(g: Gap, bars: seq<Bar>): (r: Gap)
    requires |bars| >= 1
    ensures SameBox(r, g)
    ensures r.isMitigated <==>
              || g.isMitigated
              || (CurrentBar(bars) > g.startBarIndex + MitigationGraceBars && Overlaps(bars[CurrentBar(bars)], g))
  {
    if !g.isMitigated && CurrentBar(bars) > g.startBarIndex + MitigationGraceBars && Overlaps(bars[CurrentBar(bars)], g)
    then g.(isMitigated := true)
    else g
  }

  /**
   * The mitigation sweep over every stored gap: it keeps the list's length,
   * order and boxes, never clears a flag, and sets one only for a gap past
   * its grace bars whose box the newest bar overlaps.
   */
  function MitigateAll(gaps: seq<Gap>, bars: seq<Bar>): (r: seq<Gap>)
    requires |bars| >= 1
    ensures |r| == |gaps|
    ensures forall i :: 0 <= i < |gaps| ==> SameBox(r[i], gaps[i])
    ensures forall i :: 0 <= i < |gaps| ==>
              (r[i].isMitigated <==>
                 || gaps[i].isMitigated
                 || (CurrentBar(bars) > gaps[i].startBarIndex + MitigationGraceBars && Overlaps(bars[CurrentBar(bars)], gaps[i])))
  {
    seq(|gaps|, i requires 0 <= i < |gaps| => Mitigate(gaps[i], bars))
  }

  /**
   * The gap list after the detection step: the old list followed by the
   * gap test's result, exactly when gaps are shown, the newest bar is past
   * bar 2 and the test holds.
   */
  function WithNewGap(gaps: seq<Gap>, bars: seq<Bar>, showFvg: bool): (r: seq<Gap>)
    requires |bars| >= 1
    ensures gaps <= r && |r| <= |gaps| + 1
    ensures |r| == |gaps| + 1 <==> showFvg && CurrentBar(bars) > 2 && DetectGap(bars).Some?
    ensures |r| == |gaps| + 1 ==> r[|gaps|] == DetectGap(bars).value
  {
    if showFvg && CurrentBar(bars) > 2 then
      match DetectGap(bars)
      case Some(g) => gaps + [g]
      case None => gaps
    else gaps
  }

  /**
   * One call of the bar-close handler on the history `bars`: nothing during
   * warm-up; otherwise the swing scan, the gap test and the mitigation sweep,
   * in that order.
   */
  function Step(cfg: Config, e: Engine, bars: seq<Bar>): (r: Engine)
    requires ValidConfig(cfg) && |bars| >= 1
    // warm-up guard: no pivot, no gap, no mitigation, trackers untouched
    ensures !WarmedUp(bars, cfg.swingStrength) ==> r == e
    // both lists are append-only: at most two pivots and one gap per call
    ensures e.swingPoints <= r.swingPoints && |r.swingPoints| <= |e.swingPoints| + 2
    ensures |e.fvgs| <= |r.fvgs| <= |e.fvgs| + 1
    // every new pivot is the candidate bar and passes its window test
    ensures forall i :: |e.swingPoints| <= i < |r.swingPoints| ==>
              var p := r.swingPoints[i];
              && p.barIndex == Candidate(bars, cfg.swingStrength)
              && (p.isHigh ==> IsSwingHigh(bars, p.barIndex, cfg.swingStrength) && p.price == bars[p.barIndex].high)
              && (!p.isHigh ==> IsSwingLow(bars, p.barIndex, cfg.swingStrength) && p.price == bars[p.barIndex].low)
    // a tracker moves only to a pivot just appended
    ensures r.lastHighBar != e.lastHighBar ==>
              r.lastHighBar == Candidate(bars, cfg.swingStrength) && IsSwingHigh(bars, r.lastHighBar, cfg.swingStrength)
    ensures r.lastLowBar != e.lastLowBar ==>
              r.lastLowBar == Candidate(bars, cfg.swingStrength) && IsSwingLow(bars, r.lastLowBar, cfg.swingStrength)
    // a new gap is detected on this bar, only when gaps are shown, and is not mitigated on its own bar
    ensures |r.fvgs| > |e.fvgs| ==>
              && cfg.showFvg && WarmedUp(bars, cfg.swingStrength)
              && DetectGap(bars) == Some(r.fvgs[|e.fvgs|])
    ensures cfg.showFvg && WarmedUp(bars, cfg.swingStrength) && DetectGap(bars).Some? ==> |r.fvgs| == |e.fvgs| + 1
    // the sweep, shown or not: same boxes, flags only go from false to true, and only past the grace bars on overlap
    ensures forall i :: 0 <= i < |e.fvgs| ==> SameBox(r.fvgs[i], e.fvgs[i])
    ensures WarmedUp(bars, cfg.swingStrength) ==> forall i :: 0 <= i < |e.fvgs| ==>
              (r.fvgs[i].isMitigated <==>
                 || e.fvgs[i].isMitigated
                 || (CurrentBar(bars) > e.fvgs[i].startBarIndex + MitigationGraceBars && Overlaps(bars[CurrentBar(bars)], e.fvgs[i])))
  {
    var s := cfg.swingStrength;
    if !WarmedUp(bars, s) then e
    else
      var e1 := DetectSwings(e, bars, s);
      e1.(fvgs := MitigateAll(WithNewGap(e1.fvgs, bars, cfg.showFvg), bars))
  }
}
