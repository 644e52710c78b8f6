# StatsView chart engine, modelled in Dafny

`StatsView` is an Android widget that draws an animated ring chart ("stats view").
The host assigns a list of weights to its `data` property. The widget pads or cuts
the list to five slots: four coloured categories and a transparent remainder. It
normalises the slots to proportions of their total. It remembers the colour and raw
weight of the first non-zero slot (the "first-arc memo"). Then it restarts a
0-to-1 animation. Every frame draws the following:

- a transparent background ring;
- one arc per slot, rotated by the animation progress and swept in proportion to it;
- a short seam-correction arc at the ring's start, in the memo colour, which hides
  the last arc's rounded cap;
- a centre label with the coloured slots' share in percent.

This project models that engine. Kotlin `Float` is modelled as `real`. Draw calls
are modelled as a list of `DrawCmd` values.

- `proportion.dfy` (module `Proportion`): the pure parts. `Pad` is the
  `List(5) { getOrElse }` step, `CalcListProportion` is the normalisation and
  `TotalDataProportion` is the label getter. Lemmas cover sums, normalisation,
  idempotence and the label.
- `first_arc.dfy` (module `FirstArc`): the memo. `ScanFrom` is the setter's
  `forEachIndexed` scan as a fold. `Settle` is the fix-up after the scan. The
  lemmas say which slot the memo records and that it is sticky.
- `arc_layout.dfy` (module `ArcLayout`): angles and geometry. `ArcStart` gives a
  slot's start as a prefix sum. `SeamSweep` is the seam arc's clamp.
  `SquareAround` builds the oval.
- `stats_view.dfy` (module `StatsViewModel`): the class `StatsView`. Its fields are
  `data`, `progress`, `firstColor`, `firstAngle`, `colors`, `radius`, `center` and
  `oval`, plus `lineWidth` and `textSize`. `SetData` runs the setter's loop over
  the fields. `OnDraw` runs the draw loop with its running `startAngle`. The file
  ends with a host scenario: four equal weights, followed by the frame they produce.

The invariant `StatsView.Valid()` has three parts:

- The palette has five colours, and the last one is the transparent colour.
- Progress is in [0, 1].
- `data` is either empty, with no memo yet, or five slots that are proportions (sum 1, or all zero), with a defined memo.

It follows that `colors.getOrElse(index) { generateRandomColor() }` in `onDraw`
always finds a colour. `OnDraw` indexes `colors[i]` directly, and Dafny checks
that the index is in range.

The memo is meant to hold the first non-zero arc: the field comment at
StatsView.kt:39 calls `firstAngle` the angle of the first non-zero arc, and the
comment at StatsView.kt:151 expects that a zero first arc makes the second arc the
one that is overlaid. `IntendedMemo` states that intent directly. The memo is
written only on the first assignment, while no memo is recorded yet; later
assignments keep the first memo even when the current data's first non-zero arc is
elsewhere (`RememberIsSticky`, and `SetData`'s sticky clause). On that first
assignment the scan as written differs from the intent in one case. It tests
`firstColor == undefinedColor`, and `undefinedColor` is -1. As an ARGB colour, -1 is
opaque white. A white palette entry therefore looks like "no memo yet" right after
it is recorded, and the scan moves on to the next non-zero slot (see "## Findings").
The class models the code as written. On the first assignment (while no memo is
recorded), `SetData` also states that its memo equals `IntendedMemo` whenever the
lowest non-zero slot's colour is not -1, and `RememberMatchesIntended` proves that
agreement for the scan function.

## Model

| member | source | states |
|---|---|---|
| `Proportion.Pad` | app/src/main/java/ru/netology/statsview/ui/StatsView.kt:64-66 | exactly five slots; slot i is the input's element i when it exists and 0 otherwise |
| `Proportion.PadKeepsFiveSlots` | app/src/main/java/ru/netology/statsview/ui/StatsView.kt:64-66 | a five-element list is kept unchanged, so padding is idempotent |
| `Proportion.PadIgnoresTail` | app/src/main/java/ru/netology/statsview/ui/StatsView.kt:63-66 | elements at index 5 and beyond are ignored: the result is the first five elements |
| `Proportion.PadAbsorbsZeros` | app/src/main/java/ru/netology/statsview/ui/StatsView.kt:62-66 | a short list padded explicitly with zeros gives the same slots as the short list |
| `Proportion.CalcListProportion` | app/src/main/java/ru/netology/statsview/ui/StatsView.kt:169-174 | same length as the input; all zeros when the input sums to 0; otherwise each slot times the input total gives back the input element |
| `Proportion.NormalizedIsProportion` | app/src/main/java/ru/netology/statsview/ui/StatsView.kt:169-174 | the normalised slots sum to exactly 1 when the input total is non-zero, and to 0 otherwise |
| `Proportion.NormalizedInUnitRange` | app/src/main/java/ru/netology/statsview/ui/StatsView.kt:169-174 | for non-negative weights every normalised slot is in [0, 1] |
| `Proportion.NormalizeIdempotent` | app/src/main/java/ru/netology/statsview/ui/StatsView.kt:169-174 | normalising normalised data changes nothing |
| `Proportion.NormalizeIgnoresScale` | app/src/main/java/ru/netology/statsview/ui/StatsView.kt:169-174 | dividing all weights by a non-zero factor gives the same proportions |
| `Proportion.TotalDataProportion` | app/src/main/java/ru/netology/statsview/ui/StatsView.kt:84-85 | 0 for empty data, otherwise the sum of every slot but the last |
| `Proportion.LabelOfStoredData` | app/src/main/java/ru/netology/statsview/ui/StatsView.kt:79-85 | for stored data the label proportion is the sum of the four coloured slots: 1 minus the remainder slot when the padded weights have a non-zero total, 0 when their total is zero |
| `Proportion.FourCategoriesFillTheRing` | app/src/main/java/ru/netology/statsview/ui/StatsView.kt:64-85 | at most four weights with a non-zero total give a label of exactly 100 |
| `Proportion.EqualQuarters` | app/src/main/java/ru/netology/statsview/ui/StatsView.kt:64-85 | weights [500, 500, 500, 500] are stored as [0.25, 0.25, 0.25, 0.25, 0] and give a label of 100 |
| `FirstArc.ScanFrom` | app/src/main/java/ru/netology/statsview/ui/StatsView.kt:67-73 | the `forEachIndexed` scan from slot i with the memo m: while the memo colour is -1, a non-zero slot writes its palette colour and raw weight; a defined memo comes back unchanged, and any other result holds a non-zero raw weight |
| `FirstArc.Settle` | app/src/main/java/ru/netology/statsview/ui/StatsView.kt:74-77 | after the fix-up the memo colour is never the undefined marker; a defined memo is kept; an undefined one becomes (transparent, 0) |
| `FirstArc.Remember` | app/src/main/java/ru/netology/statsview/ui/StatsView.kt:67-77 | the scan over the raw slots from the old memo, then the (transparent, 0) fix-up; the result is never -1, a defined memo is kept, and a new memo is (transparent, 0) or holds a non-zero raw weight |
| `FirstArc.IntendedMemo` | app/src/main/java/ru/netology/statsview/ui/StatsView.kt:39 | the colour and raw weight of the lowest non-zero slot from i on, or (transparent, 0); its angle is 0 exactly when every slot from i on is zero |
| `FirstArc.ScanKeepsDefinedMemo` | app/src/main/java/ru/netology/statsview/ui/StatsView.kt:67-73 | once the memo colour is defined, the rest of the scan leaves the memo unchanged |
| `FirstArc.ScanSkipsZeros` | app/src/main/java/ru/netology/statsview/ui/StatsView.kt:67-73 | zero slots do not change the scan's memo |
| `FirstArc.RememberIsSticky` | app/src/main/java/ru/netology/statsview/ui/StatsView.kt:67-77 | an assignment leaves an already defined memo unchanged |
| `FirstArc.RememberFirstNonZero` | app/src/main/java/ru/netology/statsview/ui/StatsView.kt:67-77 | with no memo yet, the memo becomes the colour and the raw (not normalised) weight of the lowest non-zero slot, when that slot's colour is not -1 |
| `FirstArc.RememberAllZero` | app/src/main/java/ru/netology/statsview/ui/StatsView.kt:67-77 | with no memo yet and all slots zero, the memo becomes (transparent, 0) |
| `FirstArc.WhiteFirstColorSkipsFirstArc` | app/src/main/java/ru/netology/statsview/ui/StatsView.kt:68-72 | with white (-1) as the first colour and weights [1, 2], the memo records slot 1's colour and raw weight 2, while the intended memo is slot 0's (white, 1) |
| `FirstArc.IntendedMemoFirstNonZero` | app/src/main/java/ru/netology/statsview/ui/StatsView.kt:39 | the intended memo is the colour and raw weight of the lowest non-zero slot, whatever that colour is |
| `FirstArc.IntendedMemoAllZero` | app/src/main/java/ru/netology/statsview/ui/StatsView.kt:74-77 | the intended memo of all-zero slots is (transparent, 0) |
| `FirstArc.RememberMatchesIntended` | app/src/main/java/ru/netology/statsview/ui/StatsView.kt:67-77 | with no memo yet, the scan as written gives the intended memo unless the lowest non-zero slot's colour is -1 |
| `ArcLayout.ArcStart` | app/src/main/java/ru/netology/statsview/ui/StatsView.kt:136-144 | the running `startAngle` before slot i, -90 + 360·progress + 360·sum(data[..i]); slot 0 starts at -90 + 360·progress |
| `ArcLayout.ArcsAreContiguous` | app/src/main/java/ru/netology/statsview/ui/StatsView.kt:136-145 | slot i's start plus its full sweep is exactly slot i+1's start |
| `ArcLayout.RunningAngle` | app/src/main/java/ru/netology/statsview/ui/StatsView.kt:136-145 | adding the full sweeps slot by slot, the running angle before slot i is the first arc's start plus the full sweeps of the slots before i |
| `ArcLayout.RunningAngleAfterAllSlots` | app/src/main/java/ru/netology/statsview/ui/StatsView.kt:136-145 | after all slots the running angle is the first arc's start plus all full sweeps; with a sum of 1 that is one full turn further on |
| `ArcLayout.EqualQuarterStarts` | app/src/main/java/ru/netology/statsview/ui/StatsView.kt:136-145 | with four quarters and progress 1 the slots start at 270, 360, 450, 540 and 630 degrees |
| `ArcLayout.DrawnSweep` | app/src/main/java/ru/netology/statsview/ui/StatsView.kt:138-142 | the drawn sweep lies between 0 and the full sweep 360·datum for non-negative data and progress in [0, 1]; it is the full sweep at progress 1 and 0 at progress 0 |
| `ArcLayout.SeamSweep` | app/src/main/java/ru/netology/statsview/ui/StatsView.kt:155 | the seam sweep is at most 1 degree and at most 180·firstAngle, and equals one of them |
| `ArcLayout.SeamArcBounds` | app/src/main/java/ru/netology/statsview/ui/StatsView.kt:152-157 | the drawn seam arc is at most `progress` (so at most 1) degrees; it is 0 when the memo angle is 0 and non-negative for a non-negative memo |
| `ArcLayout.Radius` | app/src/main/java/ru/netology/statsview/ui/StatsView.kt:111 | min(w, h)/2 − lineWidth: radius plus stroke width is half the shorter side |
| `ArcLayout.Center` | app/src/main/java/ru/netology/statsview/ui/StatsView.kt:112 | the middle of the view, (w/2, h/2) |
| `ArcLayout.SquareAround` | app/src/main/java/ru/netology/statsview/ui/StatsView.kt:113-118 | the oval is a square of side 2·radius centred on the centre |
| `ArcLayout.RingFitsView` | app/src/main/java/ru/netology/statsview/ui/StatsView.kt:108-119 | each oval edge is at least the stroke width from the view's edge, and the oval touches that inset on the shorter side; the oval is a proper square (left ≤ right, top ≤ bottom) exactly when the shorter side is at least twice the stroke width |
| `StatsViewModel.StatsView.constructor` | app/src/main/java/ru/netology/statsview/ui/StatsView.kt:31-57 | the palette is the four configured colours plus transparent; no data, no memo (-1, -1), progress 0, zero geometry |
| `StatsViewModel.StatsView.Update` | app/src/main/java/ru/netology/statsview/ui/StatsView.kt:177-183 | progress is reset to 0, nothing else changes and the invariant is kept |
| `StatsViewModel.StatsView.Tick` | app/src/main/java/ru/netology/statsview/ui/StatsView.kt:186-190 | an animator update in [0, 1] sets progress to that value and keeps the invariant |
| `StatsViewModel.StatsView.SetData` | app/src/main/java/ru/netology/statsview/ui/StatsView.kt:59-82 | stores the normalised five-slot padding of the value; the memo is the scan-and-fix-up of the raw slots from the old memo; progress is 0; a defined memo is kept; a first assignment records the lowest non-zero raw slot (when its colour is not -1) or (transparent, 0) for all-zero slots, which is the intended memo when no lowest non-zero slot is white; the invariant holds |
| `StatsViewModel.StatsView.OnSizeChanged` | app/src/main/java/ru/netology/statsview/ui/StatsView.kt:108-119 | radius = min(w, h)/2 − lineWidth, centre = (w/2, h/2), oval = the square around the centre; nothing else changes |
| `StatsViewModel.StatsView.OnDraw` | app/src/main/java/ru/netology/statsview/ui/StatsView.kt:121-166 | given a colour for every slot: no calls before any data; otherwise the transparent circle, then for each slot i an arc starting at -90 + 360·progress + 360·sum(data[..i]) with sweep 360·data[i]·progress in colors[i], then the seam arc at -90 + 360·progress with sweep min(1, 180·firstAngle)·progress in firstColor, then the label totalDataProportion·100 |
| `StatsViewModel.EqualQuartersView` | app/src/main/java/ru/netology/statsview/ui/StatsView.kt:59-82 | a fresh widget given [500, 500, 500, 500] holds quarter proportions, the memo (first colour, 500) when the first colour is not -1, and reaches progress 1 |
| `StatsViewModel.EqualQuartersFrame` | app/src/main/java/ru/netology/statsview/ui/StatsView.kt:121-166 | that widget's frame is the ring, four 90-degree arcs from 270 degrees, an empty remainder arc at 630, a 1-degree seam arc in the first colour when that colour is not -1, and the label 100 |

## Left out

- `MainActivity.kt` is not part of this model. It holds the activity lifecycle, window insets, layout transition and click handling, with no chart logic.
- The `ValueAnimator` is left out: its 3000 ms duration, linear interpolator, listener removal and cancellation (StatsView.kt:179-195). Timing is wall-clock behaviour. `Update` models only the reset of progress to 0, and `Tick` models one update at a value in [0, 1].
- `StatsView.Tick`: requires a value in [0, 1], which is the range the animator produces. A host writing the public `progress` property directly with other values is not modelled: the invariant `Valid()` keeps progress in [0, 1], and `SetData`, `OnSizeChanged` and `Tick` require it.
- `StatsView.OnDraw`: requires only a colour for every slot, so it also covers frames drawn at any progress; the drawn-sweep bounds of `DrawnSweep` and `SeamArcBounds` are stated for progress in [0, 1].
- `invalidate()` redraw requests are left out. `OnDraw` is the frame computed whenever a redraw happens.
- `generateRandomColor` (StatsView.kt:168) is left out because it is random. The four colours are a constructor parameter, so the default random colours and the fallback at StatsView.kt:140 are not modelled. The invariant shows that the fallback is never reached.
- Attribute reading with `withStyledAttributes`, `dp(...)` and `Paint` setup are platform resources. `lineWidth` and `textSize` are constructor parameters.
- Canvas rendering and the `"%.2f%%"` formatting of the label are left out. The label is the unformatted number `totalDataProportion * 100`.
- Float rounding is not modelled. Values are exact reals, so the model has no NaN, no infinities, no rounding in sums, and no distinction of -0.0 (Kotlin's `0F == -0F` also holds for reals).
- Negative weights are accepted and processed as the code does. The unit-range lemma assumes non-negative weights.
- Colours are unbounded integers standing for Kotlin `Int` ARGB values. The code never does arithmetic on them.

## Findings

| source | as written | input that shows it | evidently intended | confidence | as-written member | corrected member |
|---|---|---|---|---|---|---|
| app/src/main/java/ru/netology/statsview/ui/StatsView.kt:68-72 | the scan keeps looking while `firstColor == undefinedColor` (-1), so a recorded palette colour of -1 (opaque white) counts as "no memo yet" | colours [white, c2, c3, c4], weights [1, 2]: the memo becomes (c2, 2) | the memo holds the first non-zero arc, slot 0's (white, 1), as the comment at StatsView.kt:39 says | not executed | `FirstArc.WhiteFirstColorSkipsFirstArc` | `FirstArc.IntendedMemoFirstNonZero` |
