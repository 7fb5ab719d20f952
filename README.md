# Antigravity ICT Nexus — detection core in Dafny

This project models the bar-by-bar detection engine of the Antigravity ICT
Nexus NinjaTrader indicator (`AntigravityICTNexus.OnBarUpdate`). Each time a
bar closes, the handler does three things:

- **Swing scan.** It examines the bar `SwingStrength` bars ago. The bar is a
  pivot high if its high is strictly above the highs of the `SwingStrength`
  bars on each side. It is a pivot low if its low is strictly below theirs.
  A pivot is appended to `swingPoints` unless the newest stored pivot already
  has that bar and polarity. Appending a pivot also moves `lastHighBar` or
  `lastLowBar` to that bar.
- **Fair-value-gap test.** It tests the three bars ending at the current bar
  (bullish first, else bearish). A hit appends one `ICT_FVG` box.
- **Mitigation sweep.** It marks a stored gap mitigated once the gap is more
  than two bars old and the current bar's range overlaps the box.

Nothing happens while `CurrentBar < 2 * SwingStrength + 1`.

The project has four files:

- `detection.dfy` (module `Detection`) states the rules as pure functions
  over the bar history. `Step` is one handler call on a detector state
  (`Engine`: both lists and both trackers). Prices are compared and never
  computed with, so they are `real`. `High(bars, k)` and `Low(bars, k)` are
  the host's "bars ago" accessors: bar `CurrentBar - k`, where
  `CurrentBar = |bars| - 1`.
- `nexus.dfy` (module `Nexus`) is the indicator as the source writes it.
  It is a class whose lists and trackers are updated in place. Gap boxes
  are heap objects (`FairValueGap`), and the sweep sets their
  `isMitigated` flag in place. The swing-window loop and the sweep loop
  are proved with loop invariants. Every method is proved to do what
  `Step` says.
- `replay.dfy` (module `Replay`) covers a history delivered one bar at a
  time from the empty state (`Run`). It characterises the result in terms
  of the history alone:
  - which pivots and gaps exist, and in what order;
  - which gaps are mitigated;
  - where the two trackers point.
- `scenarios.dfy` (module `Scenarios`) shows what the two guards do on
  particular inputs.

Where the code and the intended design of the system differ, the model
follows the code:

- **Outside bars.** A bar whose high and low both beat every neighbour
  passes both strict tests. The code stores it as a pivot high and then a
  pivot low (`Scenarios.OutsideBarGivesBothPivots`). It does not reject it.
- **Warm-up.** The guard is `CurrentBar < 2 * SwingStrength + 1`, not
  `< 2 * SwingStrength`, so bar `SwingStrength` is never examined. The
  first candidate is bar `SwingStrength + 1` (`Replay.RunPivotsSound`). With
  strength 2 and highs 1, 2, 5, 2, 1, bar 2 is never stored
  (`Scenarios.StrengthTwoSkipsBarTwo`).
- **Duplicates on re-evaluation.** The duplicate guard compares only with
  the newest stored pivot, and the gap test has no guard at all. Running
  the handler twice on the same history therefore stores these again:
  - the pivots of an outside bar;
  - any new gap.

  For any other bar, the guard does prevent duplicates. When each bar is
  handled once, in order, the guard never fires (`Replay.RunPivotsSound`).
- **Structure breaks and order blocks.** The code has no break or
  order-block logic. `lastHighBar` and `lastLowBar` are written but never
  read.

## Model

| member | source | states |
|---|---|---|
| `Detection.DetectSwings` | AntigravityICTNexus.cs:96-132 | Appends a pivot high exactly when the candidate `CurrentBar - SwingStrength` passes the strict window test on highs and the newest stored pivot is not that bar as a high. It then appends a pivot low under the symmetric rule, so the high comes first. Each new pivot carries the candidate's high or low. The matching tracker moves to the candidate exactly when its pivot is appended. The list only grows, by exactly one pivot per test that passes its guard, so one call never appends the same pivot twice. |
| `Detection.DetectGap` | AntigravityICTNexus.cs:135-162 | A gap is found exactly when `Low[0] > High[2]` or `High[0] < Low[2]`. It is bullish exactly when `Low[0] > High[2]`, so bullish takes precedence. Every gap has `top > bottom`, `startBarIndex = CurrentBar - 2` and is unmitigated. The box coordinates are `Low[0]`/`High[2]` (bullish) or `Low[2]`/`High[0]` (bearish). |
| `Detection.WithNewGap` | AntigravityICTNexus.cs:135-162 | The old gap list is a prefix of the result, and at most one gap is added. A gap is added exactly when `ShowFVG` holds, `CurrentBar > 2` and the gap test hits, and the added gap is the gap test's result. |
| `Detection.Mitigate` | AntigravityICTNexus.cs:171-181 | One pass of the sweep's body keeps the gap's box, start bar and direction. The flag ends set exactly when it was set, or when `CurrentBar > startBarIndex + 2` and the current bar's range overlaps the box. |
| `Detection.MitigateAll` | AntigravityICTNexus.cs:165-182 | The sweep keeps the list's length, order, boxes, start bars and directions. A flag is set afterwards exactly when it was already set, or when `CurrentBar > startBarIndex + 2` and the current bar's range overlaps the box. |
| `Detection.Step` | AntigravityICTNexus.cs:92-183 | During warm-up the call changes nothing: no pivot, no gap, no mitigation, and the trackers are unchanged. Otherwise both lists only grow, by at most two pivots and one gap. New pivots are genuine window pivots at the candidate bar. A tracker moves only to a genuine pivot at the candidate. A new gap appears only when `ShowFVG` is set, and then exactly when the gap test holds; it is unmitigated on its own bar. Whatever `ShowFVG` is, the sweep keeps old boxes and only sets flags past the grace bars on overlap. |
| `Replay.Run` | AntigravityICTNexus.cs:92-183 | Replaying `n` bars from empty lists stores at most `2n` pivots and at most `n` gaps. |
| `Replay.WindowOnLongerHistory` | AntigravityICTNexus.cs:102-111 | The window test of a bar depends only on bars within `SwingStrength` of it. Later bars do not change whether it is a pivot. |
| `Replay.RunPivotsSound` | AntigravityICTNexus.cs:113-132 | After a replay, every stored pivot is a genuine pivot of the history, with the bar's high or low as price. Its bar index lies between `SwingStrength + 1` and `CurrentBar - SwingStrength`. The list is strictly ordered by bar, with the high before the low on the same bar, so no (bar, polarity) pair is stored twice. |
| `Replay.RunPivotsComplete` | AntigravityICTNexus.cs:113-132 | After a replay, every bar from `SwingStrength + 1` on whose right-hand window is complete is stored as a pivot high if it is one, and as a pivot low if it is one. |
| `Replay.StepKeepsTrackers` | AntigravityICTNexus.cs:113-132 | Any handler call, including one whose pivot the duplicate guard drops, keeps `lastHighBar` / `lastLowBar` equal to the bar of the newest stored pivot high / low, or -1 when there is none. |
| `Replay.RunTrackers` | AntigravityICTNexus.cs:113-132 | After a replay, `lastHighBar` and `lastLowBar` are the bars of the newest stored pivot high and pivot low, or -1. |
| `Replay.OldGapAfterStep` | AntigravityICTNexus.cs:169-182 | A stored gap stays a genuine gap after one more bar. Its flag is then set exactly when some bar after its grace bars overlapped its box. |
| `Replay.RunGapsSound` | AntigravityICTNexus.cs:135-182 | After a replay, every gap is the gap test's result on its confirming bar (`startBarIndex + 2`). That bar is past warm-up and `ShowFVG` holds. Start bars strictly increase, so there is at most one gap per bar. A gap is mitigated exactly when some bar after `startBarIndex + 2` overlapped its box, so it is never mitigated on the bar that created it. |
| `Replay.RunGapsComplete` | AntigravityICTNexus.cs:135-162 | With `ShowFVG` set, every bar past warm-up on which the gap test holds has a stored gap starting two bars before it. |
| `Scenarios.ReevaluationAddsNoPivot` | AntigravityICTNexus.cs:113-132 | Running the handler twice on the same history adds no pivot and moves no tracker the second time, unless the candidate is both a pivot high and a pivot low. |
| `Scenarios.ReevaluationRepeatsOutsideBar` | AntigravityICTNexus.cs:113-132 | On a candidate that is both a pivot high and a pivot low, a second run on the same history stores two more pivots. The guard compares only with the newest pivot. |
| `Scenarios.ReevaluationRepeatsGap` | AntigravityICTNexus.cs:135-162 | When a gap is detected, a second run on the same history stores the same box again. |
| `Scenarios.OutsideBarGivesBothPivots` | AntigravityICTNexus.cs:102-132 | With strength 1, an outside bar is stored as a pivot high followed by a pivot low on the same bar. |
| `Scenarios.StrengthTwoSkipsBarTwo` | AntigravityICTNexus.cs:94-98 | With strength 2 and highs 1, 2, 5, 2, 1, five bars store no pivot. Whatever sixth bar follows, bar 2 is never stored. |
| `Nexus.ScanWindow` | AntigravityICTNexus.cs:98-111 | The `for` loop clears `isSwingHigh` exactly when the candidate `SwingStrength` bars ago is not a strict window pivot high. It clears `isSwingLow` exactly when the candidate is not a strict window pivot low. |
| `Nexus.FairValueGap.constructor` | AntigravityICTNexus.cs:338-345 | A new box holds exactly the given top, bottom, start bar, direction and flag. |
| `Nexus.AntigravityICTNexus.constructor` | AntigravityICTNexus.cs:77-81 | The indicator starts with no bars, empty lists and both trackers at -1. |
| `Nexus.AntigravityICTNexus.OnBarUpdate` | AntigravityICTNexus.cs:92-183 | The handler changes the lists, trackers and gap flags exactly as `Step` says. It leaves the bar history alone. Listed gap objects stay listed, in place and in order. A new box is freshly allocated. |
| `Nexus.AntigravityICTNexus.ScanSwingPoints` | AntigravityICTNexus.cs:96-132 | The swing part of the handler leaves `swingPoints`, `lastHighBar` and `lastLowBar` as `DetectSwings` says. |
| `Nexus.AntigravityICTNexus.DetectFairValueGap` | AntigravityICTNexus.cs:134-163 | The gap part of the handler appends a freshly allocated box exactly when `ShowFVG` holds and the gap test hits. It keeps every listed object. |
| `Nexus.AntigravityICTNexus.SweepMitigation` | AntigravityICTNexus.cs:165-182 | The `foreach` sweep leaves the listed boxes' values as `MitigateAll` says. Only `isMitigated` flags change, from false to true. |
| `Nexus.AntigravityICTNexus.PushBar` | AntigravityICTNexus.cs:92-183 | The host appends one bar and calls the handler. If the state was the replay of the earlier bars, it becomes the replay of the longer history, so every `Replay` lemma applies to the object. |

## Left out

- `OnRender` and `ToDxBrush` (lines 185-296) are left out. They do Direct2D drawing, float colour and coordinate conversion, and brush disposal, which is presentation only.
- The `lock` blocks on the two lists (lines 215, 248) are left out. They guard against the render thread, which is concurrency outside the detection logic.
- `OnStateChange` (lines 49-90) is left out. It is host lifecycle plumbing. Only its list initialisation is modelled, as the constructor together with the field initialisers at lines 45-46.
- The property and serialisation region (lines 298-334) is left out. `SwingStrength` is modelled as an `int` that the constructor requires to be in 1..100, the range declared at line 299. `ShowFVG` is a `bool`. Colours and opacity are not modelled.
- Bars are reduced to their high and low. Open, close and timestamp are never read by the core.
- The host's series, `CurrentBar` and the calling of `OnBarUpdate` are reduced to a `bars` sequence field, with `CurrentBar = |bars| - 1`. The host itself is not modelled. `PushBar` stands for the host delivering a bar.
- Rejecting out-of-order bars does not appear in the code, because the host owns the series. It is not modelled.
- Prices are `real`, so the model assumes price series without NaN (and without infinities). In the source every comparison with a NaN price is false, so a NaN neighbour never clears `isSwingHigh` or `isSwingLow` (lines 105, 109) and a NaN never triggers a gap or a mitigation. The source can then report a pivot next to a NaN bar, which the real-valued model cannot express.
- Structure breaks (BOS/MSS) and order blocks, with their mitigation, are not modelled. The code has no logic for them. `lastHighBar` / `lastLowBar` are stored but never read.
