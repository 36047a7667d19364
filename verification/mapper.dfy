/**
  Python 2 numeric semantics and the value-mapping arithmetic the vehicle
  scripts share. `remap` computes the same value in src/PID/AUV.py,
  src/PID/auv.py and src/topside_debugger/joystick.py; the `flatten` curve
  and the dead-zone stretch are those of AUV.py and joystick.py (auv.py has
  no `compute_deflection`). Floats are modelled as exact reals.
*/
module Mapper {

  function Abs(x: real): (r: real)
    ensures r >= 0.0 && (r == x || r == -x)
  {
    if x < 0.0 then -x else x
  }

  function AbsInt(x: int): (r: int)
    ensures r >= 0 && (r == x || r == -x)
  {
    if x < 0 then -x else x
  }

  /** Python 2 `round`: the nearest integer, halves rounded away from zero. */
  function RoundHalfAway(x: real): (r: int)
    ensures x >= 0.0 ==> x - 0.5 < r as real <= x + 0.5
    ensures x < 0.0 ==> x - 0.5 <= r as real < x + 0.5
  {
    if x >= 0.0 then (x + 0.5).Floor else -((-x + 0.5).Floor)
  }

  /** Python `int()` applied to a float: truncation toward zero. */
  function Truncate(x: real): (r: int)
    ensures x >= 0.0 ==> 0 <= r && r as real <= x < r as real + 1.0
    ensures x < 0.0 ==> r <= 0 && r as real - 1.0 < x <= r as real
  {
    if x >= 0.0 then x.Floor else -((-x).Floor)
  }

  lemma RoundMonotone(x: real, y: real)
    requires x <= y
    ensures RoundHalfAway(x) <= RoundHalfAway(y)
  {
  }

  lemma TruncateMonotone(x: real, y: real)
    requires x <= y
    ensures Truncate(x) <= Truncate(y)
  {
  }

  /**
    The `flatten` curve: `value**2` for a positive value, `-value**2`
    otherwise. It keeps the sign, keeps the endpoints -1 and 1, and pulls
    every value of [-1, 1] toward zero.
  */
  function Flatten(value: real): (r: real)
    ensures r > 0.0 <==> value > 0.0
    ensures value <= 0.0 ==> r == -Square(value)
    ensures value == 1.0 ==> r == 1.0
    ensures value == -1.0 ==> r == -1.0
    ensures -1.0 <= value <= 1.0 ==> -1.0 <= r <= 1.0 && Abs(r) <= Abs(value)
  {
    SquareBounds(value);
    if value > 0.0 then Square(value) else -Square(value)
  }

  /** Python `pow(value, 2)`. */
  function Square(v: real): real
  {
    v * v
  }

  lemma SquareBounds(v: real)
    ensures Square(v) >= 0.0
    ensures v != 0.0 ==> Square(v) > 0.0
    ensures -1.0 <= v <= 1.0 ==> Square(v) <= Abs(v)
  {
    if v > 0.0 {
      MulPos(v, v);
      if v <= 1.0 {
        MulNonneg(v, 1.0 - v);
        assert Mul(v, 1.0 - v) == v - Square(v);
      }
    } else if v < 0.0 {
      MulPos(-v, -v);
      assert Mul(-v, -v) == Square(v);
      if -1.0 <= v {
        MulNonneg(-v, 1.0 + v);
        assert Mul(-v, 1.0 + v) == -v - Square(v);
      }
    }
  }

  /** The value that enters the remap: flattened when the option is on. */
  function Shaped(value: real, flatten: bool): real
  {
    if flatten then Flatten(value) else value
  }

  lemma {:induction false} FlattenMonotone(x: real, y: real)
    requires x <= y
    ensures Flatten(x) <= Flatten(y)
  {
    if x > 0.0 {
      MulNonneg(x, y - x);
      MulNonneg(y, y - x);
      assert Mul(x, y - x) == Mul(x, y) - Square(x);
      assert Mul(y, y - x) == Square(y) - Mul(x, y);
    } else if y <= 0.0 {
      MulNonneg(-y, y - x);
      MulNonneg(-x, y - x);
      assert Mul(-y, y - x) == Mul(x, y) - Square(y);
      assert Mul(-x, y - x) == Square(x) - Mul(x, y);
    } else {
      SquareBounds(x);
      SquareBounds(y);
    }
  }

  lemma ShapedMonotone(x: real, y: real, flatten: bool)
    requires x <= y
    ensures Shaped(x, flatten) <= Shaped(y, flatten)
  {
    if flatten { FlattenMonotone(x, y); }
  }

  /**
    `remap`: the linear map of [leftMin, leftMax] onto [rightMin, rightMax],
    rounded with Python 2 `round` and converted with `int()`.
  */
  function Remap(value: real, leftMin: real, leftMax: real, rightMin: int, rightMax: int): (r: int)
    requires leftMin != leftMax
    ensures value == leftMin ==> r == rightMin
    ensures value == leftMax ==> r == rightMax
    ensures leftMin < leftMax && rightMin <= rightMax && leftMin <= value <= leftMax
            ==> rightMin <= r <= rightMax
  {
    var rightSpan := rightMax - rightMin;
    ScaledBounds(value, leftMin, leftMax, rightSpan);
    RoundHalfAway(rightMin as real + Scaled(value, leftMin, leftMax, rightSpan))
  }

  /** `valueScaled * rightSpan`: how far into the right range the value lands, before rounding. */
  function Scaled(value: real, leftMin: real, leftMax: real, rightSpan: int): real
    requires leftMin != leftMax
  {
    (value - leftMin) / (leftMax - leftMin) * rightSpan as real
  }

  /** Arithmetic behind Remap's contract: the scaled value sits between the ends of the right range. */
  lemma ScaledBounds(value: real, leftMin: real, leftMax: real, rightSpan: int)
    requires leftMin != leftMax
    ensures value == leftMin ==> Scaled(value, leftMin, leftMax, rightSpan) == 0.0
    ensures value == leftMax ==> Scaled(value, leftMin, leftMax, rightSpan) == rightSpan as real
    ensures leftMin < leftMax && 0 <= rightSpan && leftMin <= value <= leftMax
            ==> 0.0 <= Scaled(value, leftMin, leftMax, rightSpan) <= rightSpan as real
  {
    var s := (value - leftMin) / (leftMax - leftMin);
    if value == leftMax {
      DivSelf(leftMax - leftMin);
    }
    if leftMin < leftMax && 0 <= rightSpan && leftMin <= value <= leftMax {
      DivBounds(value - leftMin, leftMax - leftMin);
      MulNonneg(s, rightSpan as real);
      MulNonneg(1.0 - s, rightSpan as real);
      assert Mul(1.0 - s, rightSpan as real) == rightSpan as real - Mul(s, rightSpan as real);
    }
  }

  lemma {:induction false} RemapMonotone(x: real, y: real, leftMin: real, leftMax: real, rightMin: int, rightMax: int)
    requires leftMin < leftMax && rightMin <= rightMax && x <= y
    ensures Remap(x, leftMin, leftMax, rightMin, rightMax) <= Remap(y, leftMin, leftMax, rightMin, rightMax)
  {
    var rightSpan := rightMax - rightMin;
    ScaledMonotone(x, y, leftMin, leftMax, rightSpan);
    RoundMonotone(rightMin as real + Scaled(x, leftMin, leftMax, rightSpan),
                  rightMin as real + Scaled(y, leftMin, leftMax, rightSpan));
  }

  /** Arithmetic behind the monotonicity of both remaps: the scaled position grows with the value. */
  lemma ScaledMonotone(x: real, y: real, leftMin: real, leftMax: real, rightSpan: int)
    requires leftMin < leftMax && 0 <= rightSpan && x <= y
    ensures Scaled(x, leftMin, leftMax, rightSpan) <= Scaled(y, leftMin, leftMax, rightSpan)
  {
    var leftSpan := leftMax - leftMin;
    var sx := (x - leftMin) / leftSpan;
    var sy := (y - leftMin) / leftSpan;
    assert sx <= sy by {
      assert sy - sx == (y - x) / leftSpan;
    }
    MulNonneg(sy - sx, rightSpan as real);
    assert Mul(sy - sx, rightSpan as real) == Scaled(y, leftMin, leftMax, rightSpan) - Scaled(x, leftMin, leftMax, rightSpan);
  }

  /**
    The part of `compute_deflection` that runs outside the dead zone: the
    deflection beyond the dead zone is spread over [center, rightMax] by a
    second `remap`, and mirrored as `rightMax - remap(...)` for a negative
    deflection, where `center` is `rightMax / 2` (floor division).
  */
  function Stretch(deflection: real, deadZone: int, rightMax: int): (r: int)
    requires rightMax / 2 + deadZone != rightMax
    ensures 0 <= deadZone && deflection == deadZone as real ==> r == rightMax / 2
    ensures 0 <= deadZone && rightMax / 2 + deadZone < rightMax
            && deadZone as real <= deflection <= (rightMax - rightMax / 2) as real
            ==> rightMax / 2 <= r <= rightMax
    ensures 0 <= deadZone && rightMax / 2 + deadZone < rightMax
            && -((rightMax - rightMax / 2) as real) <= deflection <= -(deadZone as real)
            ==> 0 <= r <= rightMax - rightMax / 2
  {
    var center := rightMax / 2;
    if deflection >= 0.0 then
      Remap(center as real + deflection, (center + deadZone) as real, rightMax as real, center, rightMax)
    else
      var val := Remap(center as real - deflection, (center + deadZone) as real, rightMax as real, center, rightMax);
      rightMax - val
  }

  /** The two halves of the stretch are mirror images: -d and +d land symmetrically about rightMax / 2. */
  lemma StretchMirror(deflection: real, deadZone: int, rightMax: int)
    requires rightMax / 2 + deadZone != rightMax
    requires deflection != 0.0
    ensures Stretch(deflection, deadZone, rightMax) + Stretch(-deflection, deadZone, rightMax) == rightMax
  {
  }

  /**
    Beyond the dead zone the stretch is monotone on each side, stays at or
    above the centre on the positive side and at or below rightMax - center
    on the negative side.
  */
  lemma {:induction false} StretchMonotone(x: real, y: real, deadZone: int, rightMax: int)
    requires 0 <= deadZone && rightMax / 2 + deadZone < rightMax
    requires x <= y
    requires (x >= 0.0 && y >= 0.0) || (x < 0.0 && y < 0.0)
    ensures Stretch(x, deadZone, rightMax) <= Stretch(y, deadZone, rightMax)
  {
    var center := rightMax / 2;
    var lo := (center + deadZone) as real;
    if x >= 0.0 {
      RemapMonotone(center as real + x, center as real + y, lo, rightMax as real, center, rightMax);
    } else {
      RemapMonotone(center as real - y, center as real - x, lo, rightMax as real, center, rightMax);
    }
  }

  lemma {:induction false} StretchPositiveAboveCenter(x: real, deadZone: int, rightMax: int)
    requires 0 <= deadZone && rightMax / 2 + deadZone < rightMax
    requires x >= deadZone as real
    ensures Stretch(x, deadZone, rightMax) >= rightMax / 2
  {
    var center := rightMax / 2;
    var lo := (center + deadZone) as real;
    RemapMonotone(lo, center as real + x, lo, rightMax as real, center, rightMax);
  }

  lemma {:induction false} StretchNegativeBelowMirror(x: real, deadZone: int, rightMax: int)
    requires 0 <= deadZone && rightMax / 2 + deadZone < rightMax
    requires x <= -(deadZone as real) && x < 0.0
    ensures Stretch(x, deadZone, rightMax) <= rightMax - rightMax / 2
  {
    var center := rightMax / 2;
    var lo := (center + deadZone) as real;
    RemapMonotone(lo, center as real - x, lo, rightMax as real, center, rightMax);
  }

  // Facts of real arithmetic that the solver proves in isolation but not in context.

  function Mul(a: real, b: real): real
  {
    a * b
  }

  lemma MulNeg(a: real, b: real)
    ensures Mul(-a, b) == -Mul(a, b)
  {
  }

  lemma MulNonneg(a: real, b: real)
    requires a >= 0.0 && b >= 0.0
    ensures Mul(a, b) >= 0.0
  {
  }

  lemma MulPos(a: real, b: real)
    requires a > 0.0 && b > 0.0
    ensures Mul(a, b) > 0.0
  {
  }

  lemma DivBounds(a: real, b: real)
    requires 0.0 <= a <= b && b > 0.0
    ensures 0.0 <= a / b <= 1.0
  {
  }

  lemma DivSelf(a: real)
    requires a != 0.0
    ensures a / a == 1.0
  {
  }
}
