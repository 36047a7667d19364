/**
  src/topside_debugger/joystick.py: the joystick test tool's mapper. It
  rounds, has no gain, snaps to the centre inside a dead zone of 20 by
  default, and re-stretches the rest of the range onto [center, right_max].
*/
module Joystick {
  import opened Mapper

  // Default arguments of compute_deflection.
  const LEFT_MIN := -1.0
  const LEFT_MAX := 1.0
  const RIGHT_MIN := 0
  const RIGHT_MAX := 250
  const DEAD_ZONE := 20

  /**
    The second half of compute_deflection, applied to
    `deflection = value_converted - center`: snap to the centre inside the
    dead zone, stretch outside it.
  */
  function DeadZoneMap(deflection: int, deadZone: int, rightMax: int): (r: int)
    requires AbsInt(deflection) > deadZone ==> rightMax / 2 + deadZone != rightMax
    ensures AbsInt(deflection) <= deadZone ==> r == rightMax / 2
  {
    var center := rightMax / 2;
    if AbsInt(deflection) <= deadZone then center
    else Stretch(deflection as real, deadZone, rightMax)
  }

  function ComputeDeflection(value: real, leftMin: real, leftMax: real, rightMin: int, rightMax: int,
                             deadZone: int, flatten: bool): (r: int)
    requires leftMin != leftMax
    requires AbsInt(Remap(Shaped(value, flatten), leftMin, leftMax, rightMin, rightMax) - rightMax / 2) > deadZone
             ==> rightMax / 2 + deadZone != rightMax
    ensures AbsInt(Remap(Shaped(value, flatten), leftMin, leftMax, rightMin, rightMax) - rightMax / 2) <= deadZone
            ==> r == rightMax / 2
  {
    var valueConverted := Remap(Shaped(value, flatten), leftMin, leftMax, rightMin, rightMax);
    DeadZoneMap(valueConverted - rightMax / 2, deadZone, rightMax)
  }

  /** compute_deflection called with every default argument except flatten. */
  function DefaultDeflection(value: real, flatten: bool): int
  {
    ComputeDeflection(value, LEFT_MIN, LEFT_MAX, RIGHT_MIN, RIGHT_MAX, DEAD_ZONE, flatten)
  }

  /** Full deflection either way reaches the ends of [0, 250]; rest is the centre 125. */
  lemma DefaultEndpoints(flatten: bool)
    ensures DefaultDeflection(1.0, flatten) == 250
    ensures DefaultDeflection(-1.0, flatten) == 0
    ensures DefaultDeflection(0.0, flatten) == 125
  {
    assert Shaped(0.0, flatten) == 0.0;
    assert Remap(0.0, -1.0, 1.0, 0, 250) == 125;
    assert Stretch(125.0, 20, 250) == 250;
    assert Stretch(-125.0, 20, 250) == 0;
  }

  /**
    For a value in [-1, 1] the output stays in [0, 250]: a positive
    deflection lands in [125, 250] and a negative one in [0, 125].
  */
  lemma DefaultRange(value: real, flatten: bool)
    requires -1.0 <= value <= 1.0
    ensures var converted := Remap(Shaped(value, flatten), LEFT_MIN, LEFT_MAX, RIGHT_MIN, RIGHT_MAX);
            var r := DefaultDeflection(value, flatten);
            && 0 <= r <= 250
            && (converted >= 125 ==> 125 <= r)
            && (converted <= 125 ==> r <= 125)
  {
    var converted := Remap(Shaped(value, flatten), LEFT_MIN, LEFT_MAX, RIGHT_MIN, RIGHT_MAX);
    assert 0 <= converted <= 250;
  }

  /** Mirror law: for an even right_max, deflections -d and +d give outputs that sum to right_max. */
  lemma DeadZoneMirror(deflection: int, deadZone: int, rightMax: int)
    requires AbsInt(deflection) > deadZone ==> rightMax / 2 + deadZone != rightMax
    requires rightMax % 2 == 0 && 0 <= deadZone
    ensures DeadZoneMap(deflection, deadZone, rightMax) + DeadZoneMap(-deflection, deadZone, rightMax) == rightMax
  {
    if AbsInt(deflection) > deadZone {
      StretchMirror(deflection as real, deadZone, rightMax);
    }
  }

  lemma {:induction false} DeadZoneMapMonotone(d1: int, d2: int, deadZone: int, rightMax: int)
    requires 0 <= deadZone && rightMax / 2 + deadZone < rightMax && rightMax % 2 == 0
    requires d1 <= d2
    ensures DeadZoneMap(d1, deadZone, rightMax) <= DeadZoneMap(d2, deadZone, rightMax)
  {
    var center := rightMax / 2;
    if d1 > deadZone {
      StretchMonotone(d1 as real, d2 as real, deadZone, rightMax);
    } else if d2 < -deadZone {
      StretchMonotone(d1 as real, d2 as real, deadZone, rightMax);
    } else {
      // d1 lies at or below the dead zone's upper edge and d2 at or above its lower edge
      if d1 < -deadZone {
        StretchNegativeBelowMirror(d1 as real, deadZone, rightMax);
      }
      if d2 > deadZone {
        StretchPositiveAboveCenter(d2 as real, deadZone, rightMax);
      }
    }
  }

  /**
    compute_deflection is monotone non-decreasing in the axis value: the
    flatten curve, both remaps and the dead-zone snap each are.
  */
  lemma {:induction false} ComputeDeflectionMonotone(v1: real, v2: real, leftMin: real, leftMax: real,
                                                     rightMin: int, rightMax: int, deadZone: int, flatten: bool)
    requires leftMin < leftMax && rightMin <= rightMax
    requires 0 <= deadZone && rightMax / 2 + deadZone < rightMax && rightMax % 2 == 0
    requires v1 <= v2
    ensures ComputeDeflection(v1, leftMin, leftMax, rightMin, rightMax, deadZone, flatten)
            <= ComputeDeflection(v2, leftMin, leftMax, rightMin, rightMax, deadZone, flatten)
  {
    ShapedMonotone(v1, v2, flatten);
    RemapMonotone(Shaped(v1, flatten), Shaped(v2, flatten), leftMin, leftMax, rightMin, rightMax);
    var c1 := Remap(Shaped(v1, flatten), leftMin, leftMax, rightMin, rightMax);
    var c2 := Remap(Shaped(v2, flatten), leftMin, leftMax, rightMin, rightMax);
    DeadZoneMapMonotone(c1 - rightMax / 2, c2 - rightMax / 2, deadZone, rightMax);
  }
}
