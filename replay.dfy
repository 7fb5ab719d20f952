/**
 * The detector state after the host has delivered a bar history one bar at
 * a time, calling the bar-close handler once per bar, and what that state
 * is in terms of the history alone: which pivots and gaps exist, in which
 * order, which gaps are mitigated and where the two trackers point.
 */
module Replay {
  import opened Detection

  /** Replays `bars` from the initial state, one handler call per bar. */
  function Run(cfg: Config, bars: seq<Bar>): (r: Engine)
    requires ValidConfig(cfg)
    ensures |r.swingPoints| <= 2 * |bars|
    ensures |r.fvgs| <= |bars|
    decreases |bars|
  {
    if |bars| == 0 then Initial else Step(cfg, Run(cfg, bars[..|bars| - 1]), bars)
  }

  /** The window test of a bar reads only bars within `strength` of it. */
  lemma WindowOnLongerHistory(pre: seq<Bar>, bars: seq<Bar>, c: int, strength: int)
    requires pre <= bars && c + strength < |pre|
    ensures IsSwingHigh(pre, c, strength) <==> IsSwingHigh(bars, c, strength)
    ensures IsSwingLow(pre, c, strength) <==> IsSwingLow(bars, c, strength)
  {
    if 0 <= c - strength {
      assert forall j :: c - strength <= j <= c + strength ==> pre[j] == bars[j];
    }
  }

  // ---------------------------------------------------------------------
  // Pivots
  // ---------------------------------------------------------------------

  /** `p` is a pivot of the history at a bar the handler can have examined. */
  ghost predicate GenuinePivot(bars: seq<Bar>, strength: int, p: SwingPoint) {
    && 1 <= strength
    && strength + 1 <= p.barIndex
    && p.barIndex + strength < |bars|
    && (p.isHigh ==> IsSwingHigh(bars, p.barIndex, strength) && p.price == bars[p.barIndex].high)
    && (!p.isHigh ==> IsSwingLow(bars, p.barIndex, strength) && p.price == bars[p.barIndex].low)
  }

  /** Storage order: by bar, and on an outside bar the high before the low. */
  ghost predicate Precedes(a: SwingPoint, b: SwingPoint) {
    a.barIndex < b.barIndex || (a.barIndex == b.barIndex && a.isHigh && !b.isHigh)
  }

  ghost predicate PivotsSound(bars: seq<Bar>, strength: int, points: seq<SwingPoint>) {
    && (forall i :: 0 <= i < |points| ==> GenuinePivot(bars, strength, points[i]))
    && (forall i, j :: 0 <= i < j < |points| ==> Precedes(points[i], points[j]))
  }

  /**
   * Every stored pivot is a genuine pivot of the history, at a bar from
   * `strength + 1` on, and the list is strictly ordered by (bar, high before
   * low), so no (bar, polarity) pair is stored twice.
   */
  lemma {:induction false} RunPivotsSound(cfg: Config, bars: seq<Bar>)
    requires ValidConfig(cfg)
    ensures PivotsSound(bars, cfg.swingStrength, Run(cfg, bars).swingPoints)
    decreases |bars|
  {
    if |bars| > 0 {
      var s := cfg.swingStrength;
      var pre := bars[..|bars| - 1];
      RunPivotsSound(cfg, pre);
      var prevPoints := Run(cfg, pre).swingPoints;
      var pts := Run(cfg, bars).swingPoints;
      assert prevPoints <= pts;
      forall i | 0 <= i < |prevPoints|
        ensures GenuinePivot(bars, s, pts[i])
      {
        assert pts[i] == prevPoints[i];
        WindowOnLongerHistory(pre, bars, prevPoints[i].barIndex, s);
      }
      if WarmedUp(bars, s) {
        var c := Candidate(bars, s);
        forall i | 0 <= i < |prevPoints|
          ensures prevPoints[i].barIndex < c
        {
          assert GenuinePivot(pre, s, prevPoints[i]);
        }
      }
    }
  }

  /**
   * Completeness: once the window after a bar from `strength + 1` on is
   * complete, its pivot high and pivot low (when it is one) are stored with
   * the bar's high or low as price.
   */
  lemma {:induction false} RunPivotsComplete(cfg: Config, bars: seq<Bar>, c: int)
    requires ValidConfig(cfg)
    requires cfg.swingStrength + 1 <= c && c + cfg.swingStrength < |bars|
    ensures IsSwingHigh(bars, c, cfg.swingStrength) ==> SwingPoint(bars[c].high, c, true) in Run(cfg, bars).swingPoints
    ensures IsSwingLow(bars, c, cfg.swingStrength) ==> SwingPoint(bars[c].low, c, false) in Run(cfg, bars).swingPoints
    decreases |bars|
  {
    var s := cfg.swingStrength;
    var pre := bars[..|bars| - 1];
    var prevPoints := Run(cfg, pre).swingPoints;
    var pts := Run(cfg, bars).swingPoints;
    if c + s < |pre| {
      RunPivotsComplete(cfg, pre, c);
      WindowOnLongerHistory(pre, bars, c, s);
      assert prevPoints <= pts;
      assert pre[c] == bars[c];
    } else {
      assert c == Candidate(bars, s) && WarmedUp(bars, s);
      RunPivotsSound(cfg, pre);
      forall i | 0 <= i < |prevPoints|
        ensures prevPoints[i].barIndex < c
      {
        assert GenuinePivot(pre, s, prevPoints[i]);
      }
      assert !RepeatsLast(prevPoints, c, true);
      if IsSwingHigh(bars, c, s) {
        assert pts[|prevPoints|] == SwingPoint(bars[c].high, c, true);
      }
      if IsSwingLow(bars, c, s) {
        assert pts[|pts| - 1] == SwingPoint(bars[c].low, c, false);
      }
    }
  }

  /** The bar of the most recently stored pivot of the given polarity, or -1. */
  function LastPivotBar(points: seq<SwingPoint>, isHigh: bool): (r: int)
    ensures r == -1 || exists i :: 0 <= i < |points| && points[i].barIndex == r && points[i].isHigh == isHigh
    decreases |points|
  {
    if |points| == 0 then -1
    else if points[|points| - 1].isHigh == isHigh then points[|points| - 1].barIndex
    else LastPivotBar(points[..|points| - 1], isHigh)
  }

  ghost predicate TrackersAgree(e: Engine) {
    e.lastHighBar == LastPivotBar(e.swingPoints, true) && e.lastLowBar == LastPivotBar(e.swingPoints, false)
  }

  /**
   * Any handler call keeps `lastHighBar` and `lastLowBar` equal to the bars
   * of the newest stored pivot high and pivot low, including when the guard
   * drops a repeated pivot.
   */
  lemma StepKeepsTrackers(cfg: Config, e: Engine, bars: seq<Bar>)
    requires ValidConfig(cfg) && |bars| >= 1
    requires TrackersAgree(e)
    ensures TrackersAgree(Step(cfg, e, bars))
  {
    var s := cfg.swingStrength;
    if WarmedUp(bars, s) {
      var c := Candidate(bars, s);
      var pts := e.swingPoints;
      var mid := if IsSwingHigh(bars, c, s) && !RepeatsLast(pts, c, true)
                 then pts + [SwingPoint(bars[c].high, c, true)] else pts;
      if IsSwingHigh(bars, c, s) && !RepeatsLast(pts, c, true) {
        assert mid[..|mid| - 1] == pts;
      }
      var r := Step(cfg, e, bars);
      if IsSwingLow(bars, c, s) && !RepeatsLast(mid, c, false) {
        assert r.swingPoints == mid + [SwingPoint(bars[c].low, c, false)];
        assert r.swingPoints[..|r.swingPoints| - 1] == mid;
      }
    }
  }

  /** After a replay the trackers point at the newest stored pivot high and low (or are -1). */
  lemma {:induction false} RunTrackers(cfg: Config, bars: seq<Bar>)
    requires ValidConfig(cfg)
    ensures Run(cfg, bars).lastHighBar == LastPivotBar(Run(cfg, bars).swingPoints, true)
    ensures Run(cfg, bars).lastLowBar == LastPivotBar(Run(cfg, bars).swingPoints, false)
    decreases |bars|
  {
    if |bars| > 0 {
      var pre := bars[..|bars| - 1];
      RunTrackers(cfg, pre);
      StepKeepsTrackers(cfg, Run(cfg, pre), bars);
    }
  }

  // ---------------------------------------------------------------------
  // Fair-value gaps
  // ---------------------------------------------------------------------

  /** The bar on which a gap starting at `startBarIndex` was detected. */
  function ConfirmingBar(g: Gap): int {
    g.startBarIndex + 2
  }

  /** `g`'s box is what the gap test gave on its confirming bar, after warm-up, with gaps shown. */
  ghost predicate GenuineGap(cfg: Config, bars: seq<Bar>, g: Gap) {
    var n := ConfirmingBar(g);
    && cfg.showFvg
    && 3 <= 2 * cfg.swingStrength + 1 <= n < |bars|
    && DetectGap(bars[..n + 1]) == Some(g.(isMitigated := false))
  }

  /** Some bar after the grace bars has a range overlapping `g`'s box. */
  ghost predicate TouchedAfterGrace(bars: seq<Bar>, g: Gap) {
    exists n :: 0 <= n && g.startBarIndex + MitigationGraceBars < n < |bars| && Overlaps(bars[n], g)
  }

  ghost predicate GapsSound(cfg: Config, bars: seq<Bar>, gaps: seq<Gap>) {
    && (forall i :: 0 <= i < |gaps| ==> GenuineGap(cfg, bars, gaps[i]))
    && (forall i :: 0 <= i < |gaps| ==> (gaps[i].isMitigated <==> TouchedAfterGrace(bars, gaps[i])))
    && (forall i, j :: 0 <= i < j < |gaps| ==> gaps[i].startBarIndex < gaps[j].startBarIndex)
  }

  /**
   * After a replay every stored gap is a genuine gap of the history, the
   * list is strictly ordered by start bar (one gap per bar at most), and a
   * gap is mitigated exactly when some bar after its grace bars overlapped
   * its box.
   */
  lemma {:induction false} RunGapsSound(cfg: Config, bars: seq<Bar>)
    requires ValidConfig(cfg)
    ensures GapsSound(cfg, bars, Run(cfg, bars).fvgs)
    decreases |bars|
  {
    if |bars| > 0 {
      var s := cfg.swingStrength;
      var pre := bars[..|bars| - 1];
      RunGapsSound(cfg, pre);
      var prevGaps := Run(cfg, pre).fvgs;
      var gaps := Run(cfg, bars).fvgs;
      var cur := CurrentBar(bars);
      if WarmedUp(bars, s) {
        forall i | 0 <= i < |prevGaps|
          ensures GenuineGap(cfg, bars, gaps[i])
          ensures gaps[i].isMitigated <==> TouchedAfterGrace(bars, gaps[i])
          ensures gaps[i].startBarIndex < cur - 2
        {
          OldGapAfterStep(cfg, pre, bars, prevGaps[i], gaps[i]);
        }
        if |gaps| > |prevGaps| {
          var g := gaps[|prevGaps|];
          assert bars[..cur + 1] == bars;
          assert !TouchedAfterGrace(bars, g);
        }
      }
    }
  }

  /** One handler call on a longer history keeps a stored gap genuine and its flag tied to the history. */
  lemma OldGapAfterStep(cfg: Config, pre: seq<Bar>, bars: seq<Bar>, g: Gap, g': Gap)
    requires ValidConfig(cfg) && |bars| >= 1 && pre == bars[..|bars| - 1]
    requires GenuineGap(cfg, pre, g) && (g.isMitigated <==> TouchedAfterGrace(pre, g))
    requires g' == Mitigate(g, bars)
    ensures GenuineGap(cfg, bars, g')
    ensures g'.isMitigated <==> TouchedAfterGrace(bars, g')
    ensures g'.startBarIndex < CurrentBar(bars) - 2
  {
    var n := ConfirmingBar(g);
    assert bars[..n + 1] == pre[..n + 1];
    assert g'.(isMitigated := false) == g.(isMitigated := false);
    if TouchedAfterGrace(pre, g) {
      var k :| 0 <= k && g.startBarIndex + MitigationGraceBars < k < |pre| && Overlaps(pre[k], g);
      assert Overlaps(bars[k], g');
    }
    if TouchedAfterGrace(bars, g') {
      var k :| 0 <= k && g.startBarIndex + MitigationGraceBars < k < |bars| && Overlaps(bars[k], g');
      if k < |pre| {
        assert Overlaps(pre[k], g);
      }
    }
  }

  /** Completeness: each bar after warm-up on which the gap test holds, with gaps shown, has its gap stored. */
  lemma {:induction false} RunGapsComplete(cfg: Config, bars: seq<Bar>, n: int)
    requires ValidConfig(cfg) && cfg.showFvg
    requires 2 * cfg.swingStrength + 1 <= n < |bars| && DetectGap(bars[..n + 1]).Some?
    ensures exists i :: 0 <= i < |Run(cfg, bars).fvgs| && Run(cfg, bars).fvgs[i].startBarIndex == n - 2
    decreases |bars|
  {
    var pre := bars[..|bars| - 1];
    var gaps := Run(cfg, bars).fvgs;
    if n < |pre| {
      assert pre[..n + 1] == bars[..n + 1];
      RunGapsComplete(cfg, pre, n);
      var i :| 0 <= i < |Run(cfg, pre).fvgs| && Run(cfg, pre).fvgs[i].startBarIndex == n - 2;
      assert gaps[i].startBarIndex == n - 2;
    } else {
      assert bars[..n + 1] == bars;
      var i := |Run(cfg, pre).fvgs|;
      assert gaps[i].startBarIndex == n - 2;
    }
  }
}
