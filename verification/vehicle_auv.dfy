/**
  src/PID/AUV.py: the vehicle-side controller without depth hold. Its mapper
  rounds, multiplies the deflection by a gain before the dead-zone test, and
  re-stretches the rest of the range; its run loop answers every STOP byte
  with the whole frame.
*/
module VehicleAuv {
  import opened Common
  import opened Mapper
  import opened ControlLink

  const MIN_DEFLECTION := 0
  const MAX_DEFLECTION := 250

  // Default arguments of compute_deflection.
  const LEFT_MIN := -1.0
  const LEFT_MAX := 1.0
  const RIGHT_MIN := 0
  const RIGHT_MAX := 250
  const DEAD_ZONE := 5

  /**
    The second half of compute_deflection, applied to
    `value_converted - center`: the dead-zone test is on
    `abs(value_converted - center) * gain`, the stretch on the signed
    `(value_converted - center) * gain`.
  */
  function Deflect(offset: int, deadZone: int, rightMax: int, gain: real): (r: int)
    requires Mul(AbsInt(offset) as real, gain) > deadZone as real ==> rightMax / 2 + deadZone != rightMax
    ensures Mul(AbsInt(offset) as real, gain) <= deadZone as real ==> r == rightMax / 2
  {
    var center := rightMax / 2;
    var absoluteDeflection := Mul(AbsInt(offset) as real, gain);
    var deflection := Mul(offset as real, gain);
    if absoluteDeflection <= deadZone as real then center
    else Stretch(deflection, deadZone, rightMax)
  }

  function ComputeDeflection(value: real, leftMin: real, leftMax: real, rightMin: int, rightMax: int,
                             deadZone: int, flatten: bool, gain: real): (r: int)
    requires leftMin != leftMax
    requires Mul(AbsInt(Remap(Shaped(value, flatten), leftMin, leftMax, rightMin, rightMax) - rightMax / 2) as real, gain)
             > deadZone as real
             ==> rightMax / 2 + deadZone != rightMax
    ensures Mul(AbsInt(Remap(Shaped(value, flatten), leftMin, leftMax, rightMin, rightMax) - rightMax / 2) as real, gain)
            <= deadZone as real
            ==> r == rightMax / 2
  {
    var valueConverted := Remap(Shaped(value, flatten), leftMin, leftMax, rightMin, rightMax);
    Deflect(valueConverted - rightMax / 2, deadZone, rightMax, gain)
  }

  /** compute_deflection called with its default ranges and dead zone. */
  function DefaultDeflection(value: real, flatten: bool, gain: real): int
  {
    ComputeDeflection(value, LEFT_MIN, LEFT_MAX, RIGHT_MIN, RIGHT_MAX, DEAD_ZONE, flatten, gain)
  }

  /** With gain 1, full deflection reaches 0 and 250 and rest gives the centre 125. */
  lemma DefaultEndpoints(flatten: bool)
    ensures DefaultDeflection(1.0, flatten, 1.0) == 250
    ensures DefaultDeflection(-1.0, flatten, 1.0) == 0
    ensures DefaultDeflection(0.0, flatten, 1.0) == 125
  {
    assert Shaped(0.0, flatten) == 0.0;
    assert Remap(0.0, -1.0, 1.0, 0, 250) == 125;
    assert Stretch(125.0, 5, 250) == 250;
    assert Stretch(-125.0, 5, 250) == 0;
  }

  /** Mirror law: for an even right_max, offsets -d and +d give outputs that sum to right_max, whatever the gain. */
  lemma DeflectMirror(offset: int, deadZone: int, rightMax: int, gain: real)
    requires Mul(AbsInt(offset) as real, gain) > deadZone as real ==> rightMax / 2 + deadZone != rightMax
    requires rightMax % 2 == 0 && 0 <= deadZone
    ensures Deflect(offset, deadZone, rightMax, gain) + Deflect(-offset, deadZone, rightMax, gain) == rightMax
  {
    assert AbsInt(-offset) == AbsInt(offset);
    MulNeg(offset as real, gain);
    if offset < 0 {
      MulNeg(-offset as real, gain);
    }
    if Mul(AbsInt(offset) as real, gain) > deadZone as real {
      StretchMirror(Mul(offset as real, gain), deadZone, rightMax);
    }
  }

  class Auv {
    var data: array<int>

    ghost predicate Valid()
      reads this
    {
      data.Length == FRAME_LENGTH
    }

    /** The frame set up in __init__; opening the serial port is not modelled. */
    constructor ()
      ensures Valid() && fresh(data)
      ensures data[..] == InitialFrame()
    {
      data := new int[FRAME_LENGTH](i requires 0 <= i < FRAME_LENGTH => InitialFrame()[i]);
    }

    /** prepare_auv_data: roll, pitch, yaw and throttle go to 125, nothing else changes. */
    method PrepareAuvData()
      requires Valid()
      modifies data
      ensures Valid()
      ensures forall i | 1 <= i <= 4 :: data[i] == 125
      ensures forall i | 0 <= i < FRAME_LENGTH && !(1 <= i <= 4) :: data[i] == old(data[i])
    {
      data[1] := 125;
      data[2] := 125;
      data[3] := 125;
      data[4] := 125;
    }

    /**
      run: wait for STOP, write the frame, repeat. Over a finite stream it
      writes the frame once for every STOP byte and then blocks.
    */
    method Run(stream: seq<byte>) returns (written: seq<seq<int>>)
      requires Valid()
      ensures |written| == CountStops(stream)
      ensures forall k | 0 <= k < |written| :: written[k] == data[..]
    {
      written := [];
      var input := stream;
      while true
        invariant CountStops(stream) == |written| + CountStops(input)
        invariant forall k | 0 <= k < |written| :: written[k] == data[..]
        decreases |input|
      {
        var next := AwaitStop(input);
        AfterStopCount(input);
        if next.None? {
          return;
        }
        written := written + [data[..]];
        input := next.value;
      }
    }
  }
}
