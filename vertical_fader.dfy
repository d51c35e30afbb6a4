/** The per-band vertical gain fader (`VerticalFader` in Equalizer.kt): the
    drag gesture that turns vertical pointer motion into a gain in dB, and the
    geometry of its scale and knob. */
module VerticalFader {
  import opened FaderMath

  const MaxGain: real := 15.0
  const MinGain: real := -15.0
  const Range: real := MaxGain - MinGain

  /** The scale is divided into `Steps` intervals; tick `ZeroTick` is the 0 dB mark. */
  const Steps: nat := 10
  const ZeroTick: nat := 5

  // ---------------------------------------------------------------------------
  // Drag-to-gain mapping
  // ---------------------------------------------------------------------------

  /** The gain reported for a drag that started at `startGain` and has moved
      `accY` pixels downwards in total on a surface `height` pixels tall:
      dragging the whole height changes the gain by the whole range, dragging
      up raises it, and the result is clamped to the fader's range. */
  function DraggedGain(startGain: real, accY: real, height: real): (r: real)
    requires height > 0.0
    ensures MinGain <= r <= MaxGain
  {
    var percentageMoved := accY / height;
    var dbChange := percentageMoved * Range * -1.0;
    CoerceIn(startGain + dbChange, MinGain, MaxGain)
  }

  /** Before the pointer moves, the fader reports the gain it started from. */
  lemma DraggedGainAtRest(startGain: real, height: real)
    requires height > 0.0
    requires MinGain <= startGain <= MaxGain
    ensures DraggedGain(startGain, 0.0, height) == startGain
  {
  }

  /** Moving further down never raises the gain, and moving further up never
      lowers it. */
  lemma DraggedGainAntitone(startGain: real, accY1: real, accY2: real, height: real)
    requires height > 0.0
    requires accY1 <= accY2
    ensures DraggedGain(startGain, accY2, height) <= DraggedGain(startGain, accY1, height)
  {
    assert accY1 / height <= accY2 / height by {
      assert accY2 / height - accY1 / height == (accY2 - accY1) / height;
    }
  }

  /** Inside the range, the gain moves by exactly `Range` dB per surface
      height dragged, upwards positive. */
  lemma DraggedGainLinear(startGain: real, accY: real, height: real)
    requires height > 0.0
    requires MinGain <= startGain - accY * Range / height <= MaxGain
    ensures DraggedGain(startGain, accY, height) == startGain - accY * Range / height
  {
  }

  /** The mapping depends on the drag as a fraction of the surface only, so it
      is the same at every pixel density. */
  lemma DraggedGainScaleFree(startGain: real, accY: real, height: real, k: real)
    requires height > 0.0 && k > 0.0
    ensures DraggedGain(startGain, k * accY, k * height) == DraggedGain(startGain, accY, height)
  {
    assert (k * accY) / (k * height) == accY / height;
  }

  /** Dragging from the bottom of the range up by the whole surface height
      reaches the top of the range, and the reverse reaches the bottom. */
  lemma DraggedGainFullStroke(height: real)
    requires height > 0.0
    ensures DraggedGain(MinGain, -height, height) == MaxGain
    ensures DraggedGain(MaxGain, height, height) == MinGain
  {
  }

  /** Starting at 0 dB and dragging 60 pixels up on a 300-pixel surface
      reports +6 dB. */
  lemma DraggedGainExample()
    ensures DraggedGain(0.0, -60.0, 300.0) == 6.0
  {
  }

  // ---------------------------------------------------------------------------
  // Drag gesture state
  // ---------------------------------------------------------------------------

  /** The state a vertical fader's pointer handler captures: the gain at the
      start of the current gesture and the vertical displacement accumulated
      since then. `samples` is the proof's record of that gesture's vertical
      displacements. */
  class VerticalFaderDrag {
    var startDragGain: real
    var dragAccumulatorY: real
    ghost var samples: seq<real>

    ghost predicate Valid()
      reads this
    {
      dragAccumulatorY == Sum(samples)
    }

    constructor ()
      ensures Valid()
      ensures startDragGain == 0.0 && dragAccumulatorY == 0.0 && samples == []
    {
      startDragGain := 0.0;
      dragAccumulatorY := 0.0;
      samples := [];
    }

    /** `onDragStart`: remember the fader's current gain and forget the
        previous gesture. */
    method OnDragStart(currentGain: real)
      modifies this
      ensures Valid()
      ensures startDragGain == currentGain && samples == []
    {
      startDragGain := currentGain;
      dragAccumulatorY := 0.0;
      samples := [];
    }

    /** `onDrag`: accumulate one sample and report the resulting gain; the
        handler calls `onValueChange` with it on every sample. */
    method OnDrag(dragY: real, height: real) returns (newValue: real)
      requires Valid()
      requires height > 0.0
      modifies this
      ensures Valid()
      ensures startDragGain == old(startDragGain)
      ensures samples == old(samples) + [dragY]
      ensures newValue == DraggedGain(startDragGain, Sum(samples), height)
      ensures MinGain <= newValue <= MaxGain
    {
      SumAppend(samples, dragY);
      dragAccumulatorY := dragAccumulatorY + dragY;
      samples := samples + [dragY];
      var percentageMoved := dragAccumulatorY / height;
      var dbChange := percentageMoved * Range * -1.0;
      newValue := CoerceIn(startDragGain + dbChange, MinGain, MaxGain);
    }
  }

  /** Two gestures on one fader: the first drags down from 0 dB, the second
      starts at 0 dB again and drags up 30 pixels twice on a 300-pixel
      surface. The first gesture leaves no trace in the second. */
  method TwoGestureExample() returns (first: real, second: real)
    ensures first == 3.0 && second == 6.0
  {
    var fader := new VerticalFaderDrag();
    fader.OnDragStart(0.0);
    var ignored := fader.OnDrag(120.0, 300.0);
    fader.OnDragStart(0.0);
    first := fader.OnDrag(-30.0, 300.0);
    second := fader.OnDrag(-30.0, 300.0);
    assert fader.samples == [-30.0, -30.0];
    assert Sum(fader.samples) == -60.0 by {
      assert fader.samples[..1] == [-30.0];
      assert [-30.0][..0] == [];
    }
  }

  // ---------------------------------------------------------------------------
  // Geometry
  // ---------------------------------------------------------------------------

  /** Vertical centre of the knob on a surface `h` pixels tall: the top of
      the surface for the highest gain, the bottom for the lowest. */
  function KnobCenterY(gain: real, h: real): (y: real)
    ensures MinGain <= gain <= MaxGain && 0.0 <= h ==> 0.0 <= y <= h
  {
    var normalizedGain := 1.0 - ((gain - MinGain) / Range);
    assert MinGain <= gain <= MaxGain && 0.0 <= h ==> 0.0 <= (1.0 - normalizedGain) * h;
    normalizedGain * h
  }

  /** The `Steps + 1` tick marks of the scale, top to bottom; the 0 dB tick
      is drawn longer. */
  function Ticks(h: real): (ts: seq<Tick>)
    ensures |ts| == Steps + 1
  {
    seq(Steps + 1, i requires 0 <= i <= Steps =>
      Tick((i as real / Steps as real) * h, if i == ZeroTick then EmphasizedLength else PlainLength))
  }

  /** The extreme gains sit exactly at the two ends of the surface. */
  lemma KnobEndpoints(h: real)
    ensures KnobCenterY(MaxGain, h) == 0.0
    ensures KnobCenterY(MinGain, h) == h
  {
  }

  /** A higher gain is drawn strictly higher (smaller y). */
  lemma KnobStrictlyDecreasing(gain1: real, gain2: real, h: real)
    requires h > 0.0
    requires gain1 < gain2
    ensures KnobCenterY(gain2, h) < KnobCenterY(gain1, h)
  {
    assert KnobCenterY(gain1, h) - KnobCenterY(gain2, h) == (gain2 - gain1) / Range * h;
  }

  /** The ticks are evenly spaced and span the whole surface. */
  lemma TicksEvenlySpaced(h: real, i: nat)
    requires i < Steps
    ensures Ticks(h)[0].pos == 0.0 && Ticks(h)[Steps].pos == h
    ensures Ticks(h)[i + 1].pos - Ticks(h)[i].pos == h / Steps as real
  {
  }

  /** Only the 0 dB tick is emphasized. */
  lemma OnlyZeroTickEmphasized(h: real, i: nat)
    requires i <= Steps
    ensures Ticks(h)[i].length == EmphasizedLength <==> i == ZeroTick
  {
  }

  /** Each tick marks a 3 dB step: tick `i` lies where the knob is drawn for
      gain `MaxGain - 3 i`; in particular the 0 dB tick lies at mid-height,
      where the knob is drawn for 0 dB. */
  lemma TickMarksGain(h: real, i: nat)
    requires i <= Steps
    ensures Ticks(h)[i].pos == KnobCenterY(MaxGain - 3.0 * i as real, h)
    ensures Ticks(h)[ZeroTick].pos == KnobCenterY(0.0, h) == h / 2.0
  {
  }
}
