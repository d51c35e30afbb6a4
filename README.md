# xm-lab equalizer: a Dafny model

This project models the logic of the equalizer screen of the xm-lab headphone
companion app (`Equalizer.kt`): the table of presets and their selection from
the menu, the manual change of one band, the two drag gestures that turn
pointer motion into fader values (the vertical per-band gain fader and the
horizontal "clear bass" fader, which snaps to whole values and reports only
changes, each with a haptic tick), and the geometry of both faders' knobs and
tick marks.

Layout:

- `fader_math.dfy` (module `FaderMath`): Kotlin's `coerceIn` and `roundToInt`
  on reals, the running sum of a gesture's samples, tick marks, `Option`.
- `vertical_fader.dfy` (module `VerticalFader`): the gain mapping, the
  gesture state as a class with the two callbacks `onDragStart` and `onDrag`,
  and the knob and tick geometry.
- `clear_bass_fader.dfy` (module `ClearBassFader`): snapping, the edge
  detector that suppresses repeated values, the gesture state as a class, and
  the knob and tick geometry.
- `equalizer.dfy` (module `Equalizer`): bands, presets, the screen state as a
  pure value with its transitions, and the class holding the screen's
  remembered state, whose methods are the menu and fader callbacks.

Modelling choices:

- `Float` is modelled as `real`; `roundToInt` (ties towards positive
  infinity) as `floor(x + 1/2)`.
- The band list is a fixed-size `array<Band>` updated in place; the
  abstract state is `EqState`, and every state-changing method is proved equal
  to a pure transition (`ApplyPreset`, `ChangeBand`) about which the
  properties are proved.
- The drag classes keep, as ghost fields, the samples of the current gesture
  (and, for clear bass, the snapped samples and the values reported), so the
  contracts can say that the accumulator is the sum of this gesture's samples
  and that `onDragStart` forgets the previous gesture.
- The surface size read by the drag handlers (`size.height`, `size.width`) is
  a parameter of each `OnDrag` call and must be positive: the code divides by
  it without a guard. The density-dependent `12.dp` track padding of the
  clear-bass fader is a parameter.
- The haptics service is a foreign call; it is modelled as the `haptic`
  out-parameter of `ClearBassDrag.OnDrag`, true exactly when a value is
  reported.
- The band field `label` is called `name` in the model, since `label` is a
  reserved word in Dafny.
- Selecting a preset copies its sixth gain into the clear-bass value
  (Equalizer.kt lines 115-117); each fader draws `steps + 1` tick marks (11
  and 21), the ends included.

## Model

| member | source | states |
|---|---|---|
| `FaderMath.CoerceIn` | composeApp/src/commonMain/kotlin/com/example/xmlab/Equalizer.kt:219 | the result lies within the bounds, is the input when the input does, and is the nearer bound otherwise |
| `FaderMath.RoundToInt` | composeApp/src/commonMain/kotlin/com/example/xmlab/Equalizer.kt:332 | the result is an integer within half a unit of the input, a tie going to the larger one |
| `FaderMath.RoundToIntUnique` | composeApp/src/commonMain/kotlin/com/example/xmlab/Equalizer.kt:332 | any integer within half a unit below-inclusive of the input is the rounding, so rounding is determined by its contract |
| `FaderMath.RoundToIntOfInteger` | composeApp/src/commonMain/kotlin/com/example/xmlab/Equalizer.kt:332 | a whole number rounds to itself |
| `FaderMath.SumConcat` | composeApp/src/commonMain/kotlin/com/example/xmlab/Equalizer.kt:215 | the accumulated displacement of two runs of samples, one after the other, is the sum of their displacements |
| `VerticalFader.DraggedGain` | composeApp/src/commonMain/kotlin/com/example/xmlab/Equalizer.kt:215-219 | the gain reported for any drag is within [-15, 15] |
| `VerticalFader.DraggedGainAtRest` | composeApp/src/commonMain/kotlin/com/example/xmlab/Equalizer.kt:217-219 | with no motion the fader reports the gain it started from |
| `VerticalFader.DraggedGainAntitone` | composeApp/src/commonMain/kotlin/com/example/xmlab/Equalizer.kt:217-219 | dragging further down never raises the reported gain (the axis is inverted) |
| `VerticalFader.DraggedGainLinear` | composeApp/src/commonMain/kotlin/com/example/xmlab/Equalizer.kt:217-219 | inside the range the gain changes by exactly 30 dB per surface height, upwards positive |
| `VerticalFader.DraggedGainScaleFree` | composeApp/src/commonMain/kotlin/com/example/xmlab/Equalizer.kt:217 | scaling drag and surface by the same factor gives the same gain (independent of pixel density) |
| `VerticalFader.DraggedGainFullStroke` | composeApp/src/commonMain/kotlin/com/example/xmlab/Equalizer.kt:189-219 | a full-height drag from one end of the range reaches the other end |
| `VerticalFader.DraggedGainExample` | composeApp/src/commonMain/kotlin/com/example/xmlab/Equalizer.kt:215-219 | from 0 dB, a 60-pixel upward drag on a 300-pixel surface reports 6 dB |
| `VerticalFader.VerticalFaderDrag.constructor` | composeApp/src/commonMain/kotlin/com/example/xmlab/Equalizer.kt:205-206 | both captured variables start at 0 and no gesture has begun |
| `VerticalFader.VerticalFaderDrag.OnDragStart` | composeApp/src/commonMain/kotlin/com/example/xmlab/Equalizer.kt:209-212 | the start gain becomes the fader's current gain and the accumulator is reset, forgetting earlier gestures |
| `VerticalFader.VerticalFaderDrag.OnDrag` | composeApp/src/commonMain/kotlin/com/example/xmlab/Equalizer.kt:213-221 | the accumulator is the sum of this gesture's samples and every sample reports the clamped gain for it, within [-15, 15] |
| `VerticalFader.TwoGestureExample` | composeApp/src/commonMain/kotlin/com/example/xmlab/Equalizer.kt:208-221 | after an earlier gesture, a new gesture from 0 dB dragging up 30 then 30 pixels on 300 reports 3 then 6: the earlier gesture has no effect |
| `VerticalFader.KnobCenterY` | composeApp/src/commonMain/kotlin/com/example/xmlab/Equalizer.kt:253-254 | for a gain in range the knob centre lies on the surface, between 0 and its height |
| `VerticalFader.Ticks` | composeApp/src/commonMain/kotlin/com/example/xmlab/Equalizer.kt:238-242 | the scale has 11 tick marks |
| `VerticalFader.KnobEndpoints` | composeApp/src/commonMain/kotlin/com/example/xmlab/Equalizer.kt:253-254 | gain 15 is drawn at the top (0) and gain -15 at the bottom (h) |
| `VerticalFader.KnobStrictlyDecreasing` | composeApp/src/commonMain/kotlin/com/example/xmlab/Equalizer.kt:253-254 | a strictly higher gain is drawn strictly higher |
| `VerticalFader.TicksEvenlySpaced` | composeApp/src/commonMain/kotlin/com/example/xmlab/Equalizer.kt:238-240 | ticks run from 0 to h in steps of h/10 |
| `VerticalFader.OnlyZeroTickEmphasized` | composeApp/src/commonMain/kotlin/com/example/xmlab/Equalizer.kt:241-242 | a tick is drawn long exactly when it is tick 5 |
| `VerticalFader.TickMarksGain` | composeApp/src/commonMain/kotlin/com/example/xmlab/Equalizer.kt:238-254 | tick i sits where the knob is drawn for gain 15 - 3i; tick 5 marks 0 dB at h/2 |
| `ClearBassFader.Snap` | composeApp/src/commonMain/kotlin/com/example/xmlab/Equalizer.kt:332 | the snapped value is a whole number in [-10, 10], the nearest one to the exact value when that exists, else the nearer bound |
| `ClearBassFader.SnapIdempotent` | composeApp/src/commonMain/kotlin/com/example/xmlab/Equalizer.kt:332 | snapping a snapped value changes nothing |
| `ClearBassFader.SnapExample` | composeApp/src/commonMain/kotlin/com/example/xmlab/Equalizer.kt:326-332 | from 0, a 50-pixel drag on a 500-pixel surface snaps to 2 |
| `ClearBassFader.Emissions` | composeApp/src/commonMain/kotlin/com/example/xmlab/Equalizer.kt:334-338 | a gesture reports at most one value per sample, only snapped values, never the same value twice in a row nor the starting value first, and its last report equals the last snapped value; `EmissionsIsDedup` proves conversely that every change is reported |
| `ClearBassFader.EmissionsOfConstant` | composeApp/src/commonMain/kotlin/com/example/xmlab/Equalizer.kt:334-338 | samples that all snap to one value report it once, or not at all if it was already the last reported value |
| `ClearBassFader.EmissionsIsDedup` | composeApp/src/commonMain/kotlin/com/example/xmlab/Equalizer.kt:334-338 | what a gesture reports is exactly its snapped samples with every sample equal to its predecessor (the starting value first) removed, so every change is reported and nothing else |
| `ClearBassFader.ClearBassDrag.constructor` | composeApp/src/commonMain/kotlin/com/example/xmlab/Equalizer.kt:314-316 | the three captured variables start at 0 and nothing has been reported |
| `ClearBassFader.ClearBassDrag.OnDragStart` | composeApp/src/commonMain/kotlin/com/example/xmlab/Equalizer.kt:319-323 | the start value and the last reported value become the fader's current value and the gesture's record is cleared |
| `ClearBassFader.ClearBassDrag.OnDrag` | composeApp/src/commonMain/kotlin/com/example/xmlab/Equalizer.kt:324-339 | the sample is accumulated and snapped; a value and a haptic tick are emitted exactly when the snapped value differs from the last reported one, which then holds it |
| `ClearBassFader.SnapOnceExample` | composeApp/src/commonMain/kotlin/com/example/xmlab/Equalizer.kt:319-338 | from 0 on 500 pixels, samples +50, 0, +4 report 2 once and then nothing |
| `ClearBassFader.KnobX` | composeApp/src/commonMain/kotlin/com/example/xmlab/Equalizer.kt:374-376 | for a value in range the knob lies on the track, between the two paddings |
| `ClearBassFader.Ticks` | composeApp/src/commonMain/kotlin/com/example/xmlab/Equalizer.kt:359-363 | the track has 21 tick marks |
| `ClearBassFader.KnobEndpoints` | composeApp/src/commonMain/kotlin/com/example/xmlab/Equalizer.kt:348-376 | -10 is drawn at `padding` and 10 at `w - padding` |
| `ClearBassFader.KnobStrictlyIncreasing` | composeApp/src/commonMain/kotlin/com/example/xmlab/Equalizer.kt:374-376 | on a track of positive length a strictly larger value is drawn strictly further right |
| `ClearBassFader.TicksEvenlySpaced` | composeApp/src/commonMain/kotlin/com/example/xmlab/Equalizer.kt:359-361 | ticks run from `padding` to `w - padding` in steps of a twentieth of the track |
| `ClearBassFader.OnlyCenterTickEmphasized` | composeApp/src/commonMain/kotlin/com/example/xmlab/Equalizer.kt:362-363 | a tick is drawn long exactly when it is tick 10 |
| `ClearBassFader.TickMarksValue` | composeApp/src/commonMain/kotlin/com/example/xmlab/Equalizer.kt:359-376 | tick i sits where the knob is drawn for value i - 10; tick 10 marks 0 at the middle of the surface |
| `ClearBassFader.SnappedKnobOnTick` | composeApp/src/commonMain/kotlin/com/example/xmlab/Equalizer.kt:332-376 | wherever a drag snaps, the knob is drawn exactly on a tick mark |
| `Equalizer.EqPreset.Title` | composeApp/src/commonMain/kotlin/com/example/xmlab/Equalizer.kt:37-42 | no preset has the name shown after a manual change |
| `Equalizer.EqPreset.Gains` | composeApp/src/commonMain/kotlin/com/example/xmlab/Equalizer.kt:37-42 | every preset has six gains, the first five within [-15, 15] and the sixth within [-10, 10] |
| `Equalizer.Overlay` | composeApp/src/commonMain/kotlin/com/example/xmlab/Equalizer.kt:110-114 | writing gains index by index keeps the band count, ids and labels; a band below both lengths takes the preset's gain, every other band keeps its own; extra entries are ignored |
| `Equalizer.ApplyPresetEffect` | composeApp/src/commonMain/kotlin/com/example/xmlab/Equalizer.kt:108-117 | selection sets the active name to the title, the covered bands' gains to the preset's and leaves the rest; clear bass takes the sixth gain if there is one and is unchanged otherwise |
| `Equalizer.OverlayIdempotent` | composeApp/src/commonMain/kotlin/com/example/xmlab/Equalizer.kt:110-114 | writing the same gains twice gives the same bands as writing them once |
| `Equalizer.ApplyPresetIdempotent` | composeApp/src/commonMain/kotlin/com/example/xmlab/Equalizer.kt:108-117 | selecting a preset twice gives the same state as selecting it once |
| `Equalizer.ApplyPresetKeepsRange` | composeApp/src/commonMain/kotlin/com/example/xmlab/Equalizer.kt:110-117 | selecting any shipped preset keeps every gain within [-15, 15] and clear bass within [-10, 10], though nothing is clamped |
| `Equalizer.ApplyPresetOverridesChange` | composeApp/src/commonMain/kotlin/com/example/xmlab/Equalizer.kt:110-114 | a manual change to a band the preset covers is wiped out by selecting the preset |
| `Equalizer.BassBoostExample` | composeApp/src/commonMain/kotlin/com/example/xmlab/Equalizer.kt:39-117 | "Bass Boosted" on the initial screen gives gains 8, 5, 0, 0, -2, clear bass 5 and that name |
| `Equalizer.ChangeBand` | composeApp/src/commonMain/kotlin/com/example/xmlab/Equalizer.kt:150-153 | a band's fader change sets the name to "Custom" and that band's gain, and changes no id, no label, no other band and not clear bass |
| `Equalizer.ChangeAfterPresetIsCustom` | composeApp/src/commonMain/kotlin/com/example/xmlab/Equalizer.kt:108-153 | after a preset the name is its title, and any manual change afterwards shows "Custom" |
| `Equalizer.FaderChangeKeepsRange` | composeApp/src/commonMain/kotlin/com/example/xmlab/Equalizer.kt:146-153 | a value reported by a band's fader keeps the state within range |
| `Equalizer.ClearBassChangeKeepsRange` | composeApp/src/commonMain/kotlin/com/example/xmlab/Equalizer.kt:169-173 | a value reported by the clear-bass fader keeps the state within range |
| `Equalizer.ConsoleEqualizer.constructor` | composeApp/src/commonMain/kotlin/com/example/xmlab/Equalizer.kt:46-59 | five bands 400, 1k, 2.5k, 6.3k, 16k at 0 dB, clear bass 0, name "Flat" |
| `Equalizer.ConsoleEqualizer.SelectPreset` | composeApp/src/commonMain/kotlin/com/example/xmlab/Equalizer.kt:108-117 | the in-place loop over the preset's gains leaves the state equal to `ApplyPreset` of the old state |
| `Equalizer.ConsoleEqualizer.OnBandValueChange` | composeApp/src/commonMain/kotlin/com/example/xmlab/Equalizer.kt:150-153 | the new state is `ChangeBand` of the old state |
| `Equalizer.ConsoleEqualizer.OnClearBassChange` | composeApp/src/commonMain/kotlin/com/example/xmlab/Equalizer.kt:172 | only the clear-bass value changes, to the reported value |

## Left out

- Layout, styling, colours, fonts and the `Canvas` draw calls: only the
  geometry numbers (knob centres, tick positions and lengths) are modelled;
  the knob's rectangle and shadow offsets and the `"${gain.toInt()}dB"` text
  are presentation.
- The dropdown menu and its `showMenu` visibility flag (Equalizer.kt lines
  58, 86, 100-102, 118): UI visibility only.
- IEEE-754 `Float` rounding: all arithmetic is exact over `real`.
- `roundToInt` on NaN or on values beyond the `Int` range: a `real` is never
  NaN and the model's integers are unbounded.
- The haptics service itself: a foreign call, modelled only as the `haptic`
  flag.
- `rememberUpdatedState` and recomposition: the start value of a gesture is
  the value passed to `OnDragStart`.
- `detectDragGestures` itself (gesture recognition, touch slop, consuming
  changes): the model starts from the callbacks it makes.
- AmbientSoundControl.kt and App.kt: pure UI composition; AudioModels.kt
  repeats the band and preset declarations, which are modelled once.
