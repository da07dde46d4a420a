/** Closed real intervals with clipping and the normalisation to and from [0,1]
    that actions use to rescale sensed and actuated values. */
module Ranges {

  datatype DoubleRange = DoubleRange(min: real, max: real)

  /** A range that can be normalised against: it has a positive extent. */
  type Interval = r: DoubleRange | r.min < r.max witness DoubleRange(0.0, 1.0)

  const Unit: Interval := DoubleRange(0.0, 1.0)
  const SymmetricUnit: Interval := DoubleRange(-1.0, 1.0)

  predicate Contains(r: DoubleRange, v: real) {
    r.min <= v <= r.max
  }

  /** The value of [min,max] nearest to v. */
  function Clip(r: Interval, v: real): (c: real)
    ensures Contains(r, c)
    ensures Contains(r, v) ==> c == v
    ensures v < r.min ==> c == r.min
    ensures v > r.max ==> c == r.max
  {
    if v < r.min then r.min else if v > r.max then r.max else v
  }

  /** The position of the clipped v in the range, as a fraction in [0,1]. */
  function Normalize(r: Interval, v: real): (n: real)
    ensures Contains(Unit, n)
  {
    var c := Clip(r, v);
    FractionBetween(c - r.min, r.max - r.min, r.max - r.min);
    (c - r.min) / (r.max - r.min)
  }

  /** The point of the range at fraction f. */
  function Denormalize(r: Interval, f: real): (d: real)
    ensures Contains(Unit, f) ==> Contains(r, d)
  {
    UnitScale(r, f);
    f * (r.max - r.min) + r.min
  }

  /** A fraction in [0,1] lands in the range. */
  lemma UnitScale(r: Interval, f: real)
    ensures Contains(Unit, f) ==> Contains(r, f * (r.max - r.min) + r.min)
  {
    if 0.0 <= f <= 1.0 {
      var e := r.max - r.min;
      var p := f * e;
      assert 0.0 <= p;
      assert 0.0 <= (1.0 - f) * e;
      assert e - p == (1.0 - f) * e;
      assert p <= e;
    }
  }

  /** Dividing by a positive number keeps the order of two values between 0
      and that number, and maps them into [0,1]. */
  lemma FractionBetween(a: real, b: real, x: real)
    requires 0.0 <= a <= b <= x && 0.0 < x
    ensures 0.0 <= a / x <= b / x <= 1.0
  {
    assert a / x * x == a;
    assert b / x * x == b;
    assert x / x == 1.0;
  }

  /** Rescaling into the same range gives the clipped value back. */
  lemma DenormalizeNormalize(r: Interval, v: real)
    ensures Denormalize(r, Normalize(r, v)) == Clip(r, v)
  {
    var e := r.max - r.min;
    var c := Clip(r, v);
    calc {
      Denormalize(r, Normalize(r, v));
      ((c - r.min) / e) * e + r.min;
      { assert ((c - r.min) / e) * e == c - r.min; }
      c;
    }
  }

  /** The absolute value of a real. */
  function Abs(x: real): (a: real)
    ensures a >= 0.0 && (a == x || a == -x)
  {
    if x < 0.0 then -x else x
  }
}
