/**
 * Behaviours of the bar-close handler that its de-duplication guard and its
 * warm-up guard produce on particular inputs: running the handler twice on
 * the same history, a bar that is both a pivot high and a pivot low, and
 * the first bar that can ever be examined.
 */
module Scenarios {
  import opened Detection
  import opened Replay

  /**
   * Running the handler a second time on the same history adds no pivot
   * when the candidate is not both a pivot high and a pivot low: the guard
   * sees the pivot the first run stored.
   */
  lemma ReevaluationAddsNoPivot(cfg: Config, e: Engine, bars: seq<Bar>)
    requires ValidConfig(cfg) && |bars| >= 1
    requires !(IsSwingHigh(bars, Candidate(bars, cfg.swingStrength), cfg.swingStrength) &&
               IsSwingLow(bars, Candidate(bars, cfg.swingStrength), cfg.swingStrength))
    ensures Step(cfg, Step(cfg, e, bars), bars).swingPoints == Step(cfg, e, bars).swingPoints
    ensures Step(cfg, Step(cfg, e, bars), bars).lastHighBar == Step(cfg, e, bars).lastHighBar
    ensures Step(cfg, Step(cfg, e, bars), bars).lastLowBar == Step(cfg, e, bars).lastLowBar
  {
    var s := cfg.swingStrength;
    if WarmedUp(bars, s) {
      var c := Candidate(bars, s);
      var once := Step(cfg, e, bars).swingPoints;
      if IsSwingHigh(bars, c, s) {
        assert RepeatsLast(once, c, true);
      } else if IsSwingLow(bars, c, s) {
        assert RepeatsLast(once, c, false);
      }
    }
  }

  /**
   * The guard compares with the newest pivot only: on a bar that is both a
   * pivot high and a pivot low, a second run of the handler on the same
   * history stores both pivots again.
   */
  lemma ReevaluationRepeatsOutsideBar(cfg: Config, e: Engine, bars: seq<Bar>)
    requires ValidConfig(cfg) && |bars| >= 1 && WarmedUp(bars, cfg.swingStrength)
    requires IsSwingHigh(bars, Candidate(bars, cfg.swingStrength), cfg.swingStrength)
    requires IsSwingLow(bars, Candidate(bars, cfg.swingStrength), cfg.swingStrength)
    ensures |Step(cfg, Step(cfg, e, bars), bars).swingPoints| == |Step(cfg, e, bars).swingPoints| + 2
  {
    var c := Candidate(bars, cfg.swingStrength);
    var once := Step(cfg, e, bars).swingPoints;
    assert once[|once| - 1] == SwingPoint(bars[c].low, c, false);
  }

  /** The gap test has no guard at all: a second run on the same history stores the gap again. */
  lemma ReevaluationRepeatsGap(cfg: Config, e: Engine, bars: seq<Bar>)
    requires ValidConfig(cfg) && |bars| >= 1 && WarmedUp(bars, cfg.swingStrength)
    requires cfg.showFvg && DetectGap(bars).Some?
    ensures var once := Step(cfg, e, bars);
            var twice := Step(cfg, once, bars);
            |twice.fvgs| == |once.fvgs| + 1 && SameBox(twice.fvgs[|once.fvgs|], once.fvgs[|once.fvgs| - 1])
  {
  }

  /**
   * With strength 1, an outside bar (higher high and lower low than both
   * neighbours) is stored as a pivot high followed by a pivot low.
   */
  lemma OutsideBarGivesBothPivots()
    ensures var bars := [Bar(2.0, 1.0), Bar(2.0, 1.0), Bar(5.0, 0.0), Bar(3.0, 1.0)];
            Step(Config(1, true), Initial, bars).swingPoints == [SwingPoint(5.0, 2, true), SwingPoint(0.0, 2, false)]
  {
    var bars := [Bar(2.0, 1.0), Bar(2.0, 1.0), Bar(5.0, 0.0), Bar(3.0, 1.0)];
    assert IsSwingHigh(bars, 2, 1) && IsSwingLow(bars, 2, 1);
  }

  /**
   * With strength 2 and highs 1, 2, 5, 2, 1, the middle bar is never stored
   * as a pivot: five bars are still inside the warm-up, and from the sixth
   * bar on the handler examines bar 3 and later.
   */
  lemma StrengthTwoSkipsBarTwo(next: Bar)
    ensures var five := [Bar(1.0, 0.0), Bar(2.0, 1.0), Bar(5.0, 4.0), Bar(2.0, 1.0), Bar(1.0, 0.0)];
            && Run(Config(2, true), five).swingPoints == []
            && forall p :: p in Run(Config(2, true), five + [next]).swingPoints ==> p.barIndex != 2
  {
    var cfg := Config(2, true);
    var five := [Bar(1.0, 0.0), Bar(2.0, 1.0), Bar(5.0, 4.0), Bar(2.0, 1.0), Bar(1.0, 0.0)];
    assert five[..4][..3][..2][..1][..0] == [];
    assert Run(cfg, five[..4][..3][..2][..1]).swingPoints == [];
    assert Run(cfg, five[..4][..3][..2]).swingPoints == [];
    assert Run(cfg, five[..4][..3]).swingPoints == [];
    assert Run(cfg, five[..4]).swingPoints == [];
    RunPivotsSound(cfg, five + [next]);
  }
}
