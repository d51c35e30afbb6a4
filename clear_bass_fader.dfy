/** The horizontal "clear bass" fader (`ClearBassFader` in Equalizer.kt): a
    drag gesture that snaps to whole values in [-10, 10], reports a value and
    requests a haptic tick only when the snapped value changes, and the
    geometry of its scale and knob. */
module ClearBassFader {
  import opened FaderMath

  const MaxBass: real := 10.0
  const MinBass: real := -10.0
  const BassRange: real := 20.0

  /** The track is divided into `Steps` intervals; tick `CenterTick` marks 0. */
  const Steps: nat := 20
  const CenterTick: nat := 10

  // ---------------------------------------------------------------------------
  // Drag-to-value mapping
  // ---------------------------------------------------------------------------

  /** The unsnapped value for a drag that started at `startVal` and has moved
      `acc` pixels to the right on a surface `width` pixels wide: the whole
      width is worth the whole range. */
  function ExactValue(startVal: real, acc: real, width: real): real
    requires width > 0.0
  {
    var percentage := acc / width;
    var rawChange := percentage * BassRange;
    startVal + rawChange
  }

  /** `roundToInt().toFloat().coerceIn(-10f, 10f)`: the whole number nearest
      to `exact`, held within the fader's range. */
  function Snap(exact: real): (r: real)
    ensures IsWhole(r) && MinBass <= r <= MaxBass
    ensures MinBass - 0.5 <= exact < MaxBass + 0.5 ==> r - 0.5 <= exact < r + 0.5
    ensures exact < MinBass - 0.5 ==> r == MinBass
    ensures MaxBass + 0.5 <= exact ==> r == MaxBass
  {
    CoerceIn(RoundToInt(exact) as real, MinBass, MaxBass)
  }

  /** A whole value within the range snaps to itself, so snapping twice is
      snapping once. */
  lemma SnapIdempotent(exact: real)
    ensures Snap(Snap(exact)) == Snap(exact)
  {
  }

  /** Starting at 0 and dragging 50 pixels right on a 500-pixel surface
      snaps to 2. */
  lemma SnapExample()
    ensures Snap(ExactValue(0.0, 50.0, 500.0)) == 2.0
  {
  }

  // ---------------------------------------------------------------------------
  // Edge detection
  // ---------------------------------------------------------------------------

  /** The value the detector compares the next sample against, after the
      snapped samples `snaps` of a gesture whose reference started at `last`:
      every sample leaves the detector holding that sample's snapped value. */
  function Reference(last: real, snaps: seq<real>): real
  {
    if snaps == [] then last else snaps[|snaps| - 1]
  }

  /** The values a gesture reports, given its snapped samples: a sample is
      reported exactly when it differs from the reference. What is reported
      is drawn from the samples, never repeats a value twice in a row or the
      starting reference first, and always ends on the last sample's value,
      so its listener is left in step with the detector. */
  function Emissions(last: real, snaps: seq<real>): (es: seq<real>)
    ensures |es| <= |snaps|
    ensures forall e :: e in es ==> e in snaps
    ensures es != [] ==> es[0] != last
    ensures forall i :: 0 < i < |es| ==> es[i - 1] != es[i]
    ensures Reference(last, es) == Reference(last, snaps)
    decreases |snaps|
  {
    if snaps == [] then []
    else
      var prior := snaps[..|snaps| - 1];
      var s := snaps[|snaps| - 1];
      Emissions(last, prior) + (if s != Reference(last, prior) then [s] else [])
  }

  /** Samples that all snap to one value report it at most once, and not at
      all when the reference already holds it. */
  lemma {:induction false} EmissionsOfConstant(last: real, snaps: seq<real>, v: real)
    requires forall i :: 0 <= i < |snaps| ==> snaps[i] == v
    ensures Emissions(last, snaps) == if snaps == [] || v == last then [] else [v]
    decreases |snaps|
  {
    if snaps != [] {
      var prior := snaps[..|snaps| - 1];
      EmissionsOfConstant(last, prior, v);
    }
  }

  /** Reporting one more sample appends to what was reported before. */
  lemma EmissionsAppend(last: real, snaps: seq<real>, s: real)
    ensures Emissions(last, snaps + [s])
         == Emissions(last, snaps) + (if s != Reference(last, snaps) then [s] else [])
  {
  }

  /** An independent description of the same reports, read front to back:
      each sample is kept exactly when it differs from the sample before it,
      the first one being compared with `prev`. */
  function Dedup(prev: real, xs: seq<real>): seq<real>
    decreases |xs|
  {
    if xs == [] then []
    else (if xs[0] != prev then [xs[0]] else []) + Dedup(xs[0], xs[1..])
  }

  /** Extending the samples at the back extends `Dedup` at the back. */
  lemma {:induction false} DedupAppend(prev: real, xs: seq<real>, s: real)
    ensures Dedup(prev, xs + [s]) == Dedup(prev, xs) + (if s != Reference(prev, xs) then [s] else [])
    decreases |xs|
  {
    if xs == [] {
      assert [s][1..] == [];
    } else {
      assert (xs + [s])[1..] == xs[1..] + [s];
      DedupAppend(xs[0], xs[1..], s);
      assert Reference(xs[0], xs[1..]) == Reference(prev, xs);
    }
  }

  /** The detector reports every change and only changes: its reports are
      the samples with each repetition of the value before it removed. */
  lemma {:induction false} EmissionsIsDedup(last: real, snaps: seq<real>)
    ensures Emissions(last, snaps) == Dedup(last, snaps)
    decreases |snaps|
  {
    if snaps != [] {
      var prior := snaps[..|snaps| - 1];
      var s := snaps[|snaps| - 1];
      EmissionsIsDedup(last, prior);
      DedupAppend(last, prior, s);
      assert prior + [s] == snaps;
    }
  }

  // ---------------------------------------------------------------------------
  // Drag gesture state
  // ---------------------------------------------------------------------------

  /** The state the clear-bass pointer handler captures: the value at the
      start of the gesture, the horizontal displacement accumulated since
      then, and the last value reported. The ghost fields record the
      gesture's raw samples, their snapped values and what was reported. */
  class ClearBassDrag {
    var startVal: real
    var dragAccumulator: real
    var lastHapticValue: real
    ghost var gestureStart: real
    ghost var samples: seq<real>
    ghost var snaps: seq<real>
    ghost var emitted: seq<real>

    ghost predicate Valid()
      reads this
    {
      && dragAccumulator == Sum(samples)
      && |snaps| == |samples|
      && lastHapticValue == Reference(gestureStart, snaps)
      && emitted == Emissions(gestureStart, snaps)
    }

    constructor ()
      ensures Valid()
      ensures startVal == 0.0 && lastHapticValue == 0.0 && gestureStart == 0.0
      ensures samples == [] && snaps == [] && emitted == []
    {
      startVal := 0.0;
      dragAccumulator := 0.0;
      lastHapticValue := 0.0;
      gestureStart := 0.0;
      samples := [];
      snaps := [];
      emitted := [];
    }

    /** `onDragStart`: remember the fader's current value, both as the origin
        of the drag and as the last reported value, and forget the previous
        gesture. */
    method OnDragStart(currentValue: real)
      modifies this
      ensures Valid()
      ensures startVal == currentValue && lastHapticValue == currentValue
      ensures gestureStart == currentValue
      ensures samples == [] && snaps == [] && emitted == []
    {
      startVal := currentValue;
      dragAccumulator := 0.0;
      lastHapticValue := currentValue;
      gestureStart := currentValue;
      samples := [];
      snaps := [];
      emitted := [];
    }

    /** `onDrag`: accumulate one sample and snap it; when the snapped value
        differs from the last reported one, request a haptic tick (`haptic`)
        and report it through `onValueChange` (`emission`). */
    method OnDrag(dragX: real, width: real) returns (haptic: bool, emission: Option<real>)
      requires Valid()
      requires width > 0.0
      modifies this
      ensures Valid()
      ensures startVal == old(startVal) && gestureStart == old(gestureStart)
      ensures samples == old(samples) + [dragX]
      ensures snaps == old(snaps) + [Snap(ExactValue(startVal, Sum(samples), width))]
      ensures lastHapticValue == Snap(ExactValue(startVal, Sum(samples), width))
      ensures emission == if lastHapticValue != old(lastHapticValue) then Some(lastHapticValue) else None
      ensures haptic <==> emission.Some?
      ensures emitted == old(emitted) + (if emission.Some? then [emission.value] else [])
    {
      SumAppend(samples, dragX);
      dragAccumulator := dragAccumulator + dragX;
      samples := samples + [dragX];

      var exactValue := ExactValue(startVal, dragAccumulator, width);
      var snappedValue := Snap(exactValue);

      EmissionsAppend(gestureStart, snaps, snappedValue);
      snaps := snaps + [snappedValue];
      if snappedValue != lastHapticValue {
        haptic := true;
        lastHapticValue := snappedValue;
        emission := Some(snappedValue);
        emitted := emitted + [snappedValue];
      } else {
        haptic := false;
        emission := None;
      }
    }
  }

  /** A gesture from 0 on a 500-pixel surface: 50 pixels right reports 2
      once; a sample of no motion and one of 4 more pixels still snap to 2
      and report nothing. */
  method SnapOnceExample() returns (e1: Option<real>, e2: Option<real>, e3: Option<real>)
    ensures e1 == Some(2.0) && e2 == None && e3 == None
  {
    var fader := new ClearBassDrag();
    fader.OnDragStart(0.0);
    var h1, h2, h3;
    h1, e1 := fader.OnDrag(50.0, 500.0);
    SnapExample();
    h2, e2 := fader.OnDrag(0.0, 500.0);
    h3, e3 := fader.OnDrag(4.0, 500.0);
    assert fader.samples == [50.0, 0.0, 4.0];
    assert Sum(fader.samples) == 54.0 by {
      assert fader.samples[..2] == [50.0, 0.0];
      assert [50.0, 0.0][..1] == [50.0];
      assert [50.0][..0] == [];
    }
    RoundToIntUnique(ExactValue(0.0, 54.0, 500.0), 2);
  }

  // ---------------------------------------------------------------------------
  // Geometry
  // ---------------------------------------------------------------------------

  /** Horizontal centre of the knob on a surface `w` pixels wide whose track
      is inset by `padding` at each end. */
  function KnobX(value: real, w: real, padding: real): (x: real)
    ensures MinBass <= value <= MaxBass && 2.0 * padding <= w ==> padding <= x <= w - padding
  {
    var trackWidth := w - (padding * 2.0);
    var normalized := (value + 10.0) / BassRange;
    padding + (normalized * trackWidth)
  }

  /** The `Steps + 1` tick marks of the track, left to right; the centre tick
      is drawn longer. */
  function Ticks(w: real, padding: real): (ts: seq<Tick>)
    ensures |ts| == Steps + 1
  {
    var trackWidth := w - (padding * 2.0);
    seq(Steps + 1, i requires 0 <= i <= Steps =>
      Tick(padding + (i as real / Steps as real) * trackWidth,
           if i == CenterTick then EmphasizedLength else PlainLength))
  }

  /** The extreme values sit exactly at the two ends of the track. */
  lemma KnobEndpoints(w: real, padding: real)
    ensures KnobX(MinBass, w, padding) == padding
    ensures KnobX(MaxBass, w, padding) == w - padding
  {
  }

  /** A larger value is drawn strictly further right, as long as the track
      has positive length. */
  lemma KnobStrictlyIncreasing(value1: real, value2: real, w: real, padding: real)
    requires 2.0 * padding < w
    requires value1 < value2
    ensures KnobX(value1, w, padding) < KnobX(value2, w, padding)
  {
    assert KnobX(value2, w, padding) - KnobX(value1, w, padding)
        == (value2 - value1) / BassRange * (w - padding * 2.0);
  }

  /** The ticks are evenly spaced and span the track from end to end. */
  lemma TicksEvenlySpaced(w: real, padding: real, i: nat)
    requires i < Steps
    ensures Ticks(w, padding)[0].pos == padding
    ensures Ticks(w, padding)[Steps].pos == w - padding
    ensures Ticks(w, padding)[i + 1].pos - Ticks(w, padding)[i].pos == (w - 2.0 * padding) / Steps as real
  {
  }

  /** Only the centre tick is emphasized. */
  lemma OnlyCenterTickEmphasized(w: real, padding: real, i: nat)
    requires i <= Steps
    ensures Ticks(w, padding)[i].length == EmphasizedLength <==> i == CenterTick
  {
  }

  /** Tick `i` lies where the knob is drawn for the whole value `i - 10`; in
      particular the centre tick marks the value 0, halfway along the track. */
  lemma TickMarksValue(w: real, padding: real, i: nat)
    requires i <= Steps
    ensures Ticks(w, padding)[i].pos == KnobX(i as real - 10.0, w, padding)
    ensures Ticks(w, padding)[CenterTick].pos == KnobX(0.0, w, padding) == w / 2.0
  {
  }

  /** Wherever a drag snaps, the knob comes to rest on a tick mark. */
  lemma SnappedKnobOnTick(exact: real, w: real, padding: real)
    ensures var v := Snap(exact);
            var i := (v + 10.0).Floor;
            0 <= i <= Steps as int && Ticks(w, padding)[i].pos == KnobX(v, w, padding)
  {
  }
}
