/** Numeric building blocks shared by the equalizer's faders: Kotlin's
    `coerceIn` and `roundToInt` on real numbers, the running sum of a drag
    gesture's samples, and the tick marks both faders draw. */
module FaderMath {

  /** An optional emission: `Some(v)` when a callback fires with `v`. */
  datatype Option<T> = None | Some(value: T)

  /** One tick mark of a fader scale: its position along the fader's axis and
      the length of the drawn line (the emphasized tick is drawn longer). */
  datatype Tick = Tick(pos: real, length: real)

  /** Length of an emphasized (centre) tick and of an ordinary one. */
  const EmphasizedLength: real := 20.0
  const PlainLength: real := 10.0

  /** Kotlin's `x.coerceIn(lo, hi)`; Kotlin throws when `lo > hi`, so the
      bounds must be ordered. */
  function CoerceIn(x: real, lo: real, hi: real): (r: real)
    requires lo <= hi
    ensures lo <= r <= hi
    ensures lo <= x <= hi ==> r == x
    ensures x < lo ==> r == lo
    ensures hi < x ==> r == hi
  {
    if x < lo then lo else if hi < x then hi else x
  }

  /** Kotlin's `roundToInt`: the nearest integer, ties rounded towards
      positive infinity. */
  function RoundToInt(x: real): (n: int)
    ensures n as real - 0.5 <= x < n as real + 0.5
  {
    (x + 0.5).Floor
  }

  /** The integer closest to `x` is unique, so the contract of `RoundToInt`
      determines it. */
  lemma RoundToIntUnique(x: real, n: int)
    requires n as real - 0.5 <= x < n as real + 0.5
    ensures RoundToInt(x) == n
  {
  }

  /** An integer is its own rounding. */
  lemma RoundToIntOfInteger(n: int)
    ensures RoundToInt(n as real) == n
  {
  }

  /** The accumulated displacement of a gesture's samples, summed in the
      order they arrive. */
  function Sum(samples: seq<real>): real
  {
    if samples == [] then 0.0 else Sum(samples[..|samples| - 1]) + samples[|samples| - 1]
  }

  /** Adding one more sample adds its displacement to the accumulator. */
  lemma SumAppend(samples: seq<real>, d: real)
    ensures Sum(samples + [d]) == Sum(samples) + d
  {
  }

  /** The displacement of two runs of samples, one after the other, is the
      sum of the two runs' displacements. */
  lemma {:induction false} SumConcat(a: seq<real>, b: seq<real>)
    ensures Sum(a + b) == Sum(a) + Sum(b)
    decreases |b|
  {
    if b != [] {
      var front := b[..|b| - 1];
      SumConcat(a, front);
      assert (a + b)[..|a + b| - 1] == a + front;
    } else {
      assert a + b == a;
    }
  }

  /** A whole number: what `roundToInt().toFloat()` produces. */
  predicate IsWhole(x: real)
  {
    x.Floor as real == x
  }
}
