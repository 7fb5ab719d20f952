/**
 * The indicator object itself: the bar-close handler as the source writes
 * it, with its lists and trackers updated in place and the gap boxes as
 * heap objects whose mitigation flag the sweep sets.  Each method is proved
 * to do what `Detection.Step` says.
 */
module Nexus {
  import opened Detection
  import opened Replay

  /**
   * The swing-window loop: clears `isSwingHigh` as soon as a neighbour's high
   * is at or above the candidate's, and `isSwingLow` as soon as a
   * neighbour's low is at or below it.  The candidate is `strength` bars ago.
   */
  method ScanWindow(bars: seq<Bar>, strength: int) returns (isSwingHigh: bool, isSwingLow: bool)
    requires 1 <= strength && WarmedUp(bars, strength)
    ensures isSwingHigh == IsSwingHigh(bars, Candidate(bars, strength), strength)
    ensures isSwingLow == IsSwingLow(bars, Candidate(bars, strength), strength)
  {
    var checkIndex := strength;
    ghost var c := Candidate(bars, strength);
    isSwingHigh, isSwingLow := true, true;
    for i := 1 to strength + 1
      invariant isSwingHigh == forall j :: c - (i - 1) <= j <= c + (i - 1) && j != c ==> bars[j].high < bars[c].high
      invariant isSwingLow == forall j :: c - (i - 1) <= j <= c + (i - 1) && j != c ==> bars[j].low > bars[c].low
    {
      if High(bars, checkIndex) <= High(bars, checkIndex + i) || High(bars, checkIndex) <= High(bars, checkIndex - i) {
        isSwingHigh := false;
      }
      if Low(bars, checkIndex) >= Low(bars, checkIndex + i) || Low(bars, checkIndex) >= Low(bars, checkIndex - i) {
        isSwingLow := false;
      }
    }
  }

  /** A gap box (`ICT_FVG`); the sweep sets `isMitigated` in place. */
  class FairValueGap {
    var top: real
    var bottom: real
    var startBarIndex: int
    var isBullish: bool
    var isMitigated: bool

    constructor (top: real, bottom: real, startBarIndex: int, isBullish: bool, isMitigated: bool)
      ensures Value() == Gap(top, bottom, startBarIndex, isBullish, isMitigated)
    {
      this.top := top;
      this.bottom := bottom;
      this.startBarIndex := startBarIndex;
      this.isBullish := isBullish;
      this.isMitigated := isMitigated;
    }

    /** The box's current field values. */
    function Value(): Gap
      reads this
    {
      Gap(top, bottom, startBarIndex, isBullish, isMitigated)
    }
  }

  /** The field values of a list of gap objects, in list order. */
  function Values(list: seq<FairValueGap>): (r: seq<Gap>)
    reads list
    ensures |r| == |list| && forall i :: 0 <= i < |list| ==> r[i] == list[i].Value()
  {
    seq(|list|, i requires 0 <= i < |list| reads list => list[i].Value())
  }

  class AntigravityICTNexus {
    const swingStrength: int
    const showFvg: bool
    /** The host's bar series; the handler only reads it. */
    var bars: seq<Bar>
    var fvgList: seq<FairValueGap>
    var swingPoints: seq<SwingPoint>
    var lastHighBar: int
    var lastLowBar: int

    /** The settings are in range and no gap object is listed twice. */
    ghost predicate Valid()
      reads this
    {
      && ValidConfig(Settings())
      && forall i, j :: 0 <= i < j < |fvgList| ==> fvgList[i] != fvgList[j]
    }

    function Settings(): Config
    {
      Config(swingStrength, showFvg)
    }

    /** The detector state the handler maintains, as a value. */
    function View(): Engine
      reads this, fvgList
    {
      Engine(swingPoints, Values(fvgList), lastHighBar, lastLowBar)
    }

    /** The data-loaded state: no bars yet, empty lists, both trackers at -1. */
    constructor (swingStrength: int, showFvg: bool)
      requires 1 <= swingStrength <= 100
      ensures Valid() && Settings() == Config(swingStrength, showFvg)
      ensures bars == [] && View() == Initial
    {
      this.swingStrength := swingStrength;
      this.showFvg := showFvg;
      bars := [];
      fvgList := [];
      swingPoints := [];
      lastHighBar := -1;
      lastLowBar := -1;
    }

    /**
     * The bar-close handler on the current history.  Gap objects already
     * listed stay listed, in place; a new one is freshly allocated.
     */
    method OnBarUpdate()
      requires Valid() && |bars| >= 1
      modifies this, fvgList
      ensures Valid() && bars == old(bars)
      ensures View() == Step(Settings(), old(View()), bars)
      ensures old(fvgList) <= fvgList
      ensures forall i :: |old(fvgList)| <= i < |fvgList| ==> fresh(fvgList[i])
    {
      var currentBar := |bars| - 1;
      if currentBar < swingStrength * 2 + 1 {
        return;
      }
      ScanSwingPoints();
      DetectFairValueGap();
      SweepMitigation();
    }

    /**
     * The market-structure part of the handler: tests the bar `swingStrength`
     * bars ago and stores it as a pivot high, then as a pivot low, unless the
     * newest stored pivot already is that bar with that polarity.
     */
    method ScanSwingPoints()
      requires Valid() && WarmedUp(bars, swingStrength)
      modifies this`swingPoints, this`lastHighBar, this`lastLowBar
      ensures var e := DetectSwings(old(View()), bars, swingStrength);
              swingPoints == e.swingPoints && lastHighBar == e.lastHighBar && lastLowBar == e.lastLowBar
    {
      var currentBar := |bars| - 1;
      var checkIndex := swingStrength;
      var isSwingHigh, isSwingLow := ScanWindow(bars, swingStrength);
      if isSwingHigh {
        var swingBarIndex := currentBar - checkIndex;
        if |swingPoints| == 0 || swingPoints[|swingPoints| - 1].barIndex != swingBarIndex || !swingPoints[|swingPoints| - 1].isHigh {
          swingPoints := swingPoints + [SwingPoint(High(bars, checkIndex), swingBarIndex, true)];
          lastHighBar := swingBarIndex;
        }
      }
      if isSwingLow {
        var swingBarIndex := currentBar - checkIndex;
        if |swingPoints| == 0 || swingPoints[|swingPoints| - 1].barIndex != swingBarIndex || swingPoints[|swingPoints| - 1].isHigh {
          swingPoints := swingPoints + [SwingPoint(Low(bars, checkIndex), swingBarIndex, false)];
          lastLowBar := swingBarIndex;
        }
      }
    }

    /**
     * The gap part of the handler: when gaps are shown, appends a freshly
     * allocated bullish box if the current low is above the high two bars
     * back, else a bearish box if the current high is below the low two
     * bars back.
     */
    method DetectFairValueGap()
      requires Valid() && |bars| >= 1
      modifies this`fvgList
      ensures Valid()
      ensures Values(fvgList) == WithNewGap(old(Values(fvgList)), bars, showFvg)
      ensures old(fvgList) <= fvgList
      ensures forall i :: |old(fvgList)| <= i < |fvgList| ==> fresh(fvgList[i])
    {
      var currentBar := |bars| - 1;
      if showFvg && currentBar > 2 {
        if Low(bars, 0) > High(bars, 2) {
          var fvg := new FairValueGap(Low(bars, 0), High(bars, 2), currentBar - 2, true, false);
          fvgList := fvgList + [fvg];
        } else if High(bars, 0) < Low(bars, 2) {
          var fvg := new FairValueGap(Low(bars, 2), High(bars, 0), currentBar - 2, false, false);
          fvgList := fvgList + [fvg];
        }
      }
    }

    /**
     * The mitigation sweep: visits every listed gap in order and sets the
     * flag of each unmitigated one that is past its grace bars and whose box
     * the current bar's range overlaps.  Nothing but those flags changes.
     */
    method SweepMitigation()
      requires Valid() && |bars| >= 1
      modifies fvgList
      ensures Values(fvgList) == MitigateAll(old(Values(fvgList)), bars)
    {
      var currentBar := |bars| - 1;
      var i := 0;
      while i < |fvgList|
        invariant 0 <= i <= |fvgList|
        invariant forall k :: 0 <= k < i ==> fvgList[k].Value() == Mitigate(old(fvgList[k].Value()), bars)
        invariant forall k :: i <= k < |fvgList| ==> fvgList[k].Value() == old(fvgList[k].Value())
      {
        var fvg := fvgList[i];
        if !fvg.isMitigated {
          if currentBar > fvg.startBarIndex + 2 {
            if bars[currentBar].high >= fvg.bottom && bars[currentBar].low <= fvg.top {
              fvg.isMitigated := true;
            }
          }
        }
        i := i + 1;
      }
    }

    /**
     * The host delivering one closed bar and calling the handler.  When the
     * state was the replay of the earlier bars, it is the replay of the
     * longer history.
     */
    method PushBar(bar: Bar)
      requires Valid()
      modifies this, fvgList
      ensures Valid() && bars == old(bars) + [bar]
      ensures View() == Step(Settings(), old(View()), bars)
      ensures old(View()) == Run(Settings(), old(bars)) ==> View() == Run(Settings(), bars)
    {
      bars := bars + [bar];
      OnBarUpdate();
      assert bars[..|bars| - 1] == old(bars);
    }
  }
}
