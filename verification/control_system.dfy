/**
  src/topside_debugger/control_system.py: the topside console that flies
  the ROV with a USB joystick. Its `compute_deflection` truncates with
  `int()` and, outside the dead zone, keeps the converted value as it is;
  each cycle waits for the ROV's STOP byte and answers with the 12-slot
  frame built from the joystick, after which the first pressed button may
  change the gain or toggle the flatten curve.

  The gain is a float, so roll, pitch and yaw become floats in the frame:
  the frame is modelled as an array of reals.
*/
module ControlSystem {
  import opened Common
  import opened Mapper
  import opened ControlLink

  const NUMBER_OF_AXES := 4
  const BUTTON_INDEX := 5
  const PILOT_AXIS_START := 1
  const HAT_SWITCH_INDEX := 6
  const MIN_DEFLECTION := 0
  const MAX_DEFLECTION := 251
  const PYGAME_MIN_DEFLECTION := -1.0
  const PYGAME_MAX_DEFLECTION := 1.0
  /** The default `dead_zone` argument of `compute_deflection`. */
  const DEFAULT_DEAD_ZONE := 5

  /**
    The first half of `compute_deflection`: the value's place in
    [leftMin, leftMax] carried onto [rightMin, rightMax] and cut with `int()`.
  */
  function Converted(value: real, leftMin: real, leftMax: real, rightMin: int, rightMax: int): (r: int)
    requires leftMin != leftMax
    ensures value == leftMin ==> r == rightMin
    ensures value == leftMax ==> r == rightMax
    ensures leftMin < leftMax && rightMin <= rightMax && leftMin <= value <= leftMax
            ==> rightMin <= r <= rightMax
  {
    ScaledBounds(value, leftMin, leftMax, rightMax - rightMin);
    Truncate(rightMin as real + Scaled(value, leftMin, leftMax, rightMax - rightMin))
  }

  /**
    `compute_deflection`: the converted value, snapped to the center
    `rightMax / 2` when it lies within `deadZone` of it, and returned
    unchanged otherwise (no re-stretching here, unlike the vehicle copies).
  */
  function ComputeDeflection(value: real, leftMin: real, leftMax: real, rightMin: int, rightMax: int,
                             deadZone: int, flatten: bool): (r: int)
    requires leftMin != leftMax
    ensures var c := Converted(Shaped(value, flatten), leftMin, leftMax, rightMin, rightMax);
            (AbsInt(c - rightMax / 2) <= deadZone ==> r == rightMax / 2)
            && (AbsInt(c - rightMax / 2) > deadZone ==> r == c)
  {
    var valueConverted := Converted(Shaped(value, flatten), leftMin, leftMax, rightMin, rightMax);
    var center := rightMax / 2;
    if AbsInt(valueConverted - center) <= deadZone then center else valueConverted
  }

  /** `compute_deflection` with its default arguments, as every call in the file uses it. */
  function DefaultDeflection(value: real, flatten: bool): int
  {
    ComputeDeflection(value, PYGAME_MIN_DEFLECTION, PYGAME_MAX_DEFLECTION, MIN_DEFLECTION, MAX_DEFLECTION,
                      DEFAULT_DEAD_ZONE, flatten)
  }

  /**
    Full deflection gives 251, which is the STOP sentinel; the opposite end
    gives 0 and the rest position gives the center 125.
  */
  lemma DefaultEndpoints(flatten: bool)
    ensures DefaultDeflection(1.0, flatten) == MAX_DEFLECTION == STOP
    ensures DefaultDeflection(-1.0, flatten) == MIN_DEFLECTION
    ensures DefaultDeflection(0.0, flatten) == 125
  {
    assert Scaled(0.0, -1.0, 1.0, 251) == 125.5;
  }

  lemma DefaultRange(value: real, flatten: bool)
    requires PYGAME_MIN_DEFLECTION <= value <= PYGAME_MAX_DEFLECTION
    ensures MIN_DEFLECTION <= DefaultDeflection(value, flatten) <= MAX_DEFLECTION
  {
  }

  lemma {:induction false} ConvertedMonotone(x: real, y: real, leftMin: real, leftMax: real, rightMin: int, rightMax: int)
    requires leftMin < leftMax && rightMin <= rightMax && x <= y
    ensures Converted(x, leftMin, leftMax, rightMin, rightMax) <= Converted(y, leftMin, leftMax, rightMin, rightMax)
  {
    ScaledMonotone(x, y, leftMin, leftMax, rightMax - rightMin);
    TruncateMonotone(rightMin as real + Scaled(x, leftMin, leftMax, rightMax - rightMin),
                     rightMin as real + Scaled(y, leftMin, leftMax, rightMax - rightMin));
  }

  /** Pushing the stick further never lowers the deflection, dead-zone snap included. */
  lemma {:induction false} ComputeDeflectionMonotone(v1: real, v2: real, leftMin: real, leftMax: real,
                                                     rightMin: int, rightMax: int, deadZone: int, flatten: bool)
    requires leftMin < leftMax && rightMin <= rightMax && 0 <= deadZone && v1 <= v2
    ensures ComputeDeflection(v1, leftMin, leftMax, rightMin, rightMax, deadZone, flatten)
            <= ComputeDeflection(v2, leftMin, leftMax, rightMin, rightMax, deadZone, flatten)
  {
    ShapedMonotone(v1, v2, flatten);
    ConvertedMonotone(Shaped(v1, flatten), Shaped(v2, flatten), leftMin, leftMax, rightMin, rightMax);
  }

  /**
    `get_hat_switch_position`: up, down, left and right are the bits
    `1 << 3`, `1 << 2`, `1 << 1` and `1 << 0`; every other position,
    diagonals included, is 0.
  */
  function HatSwitchPosition(x: int, y: int): (r: int)
    ensures r in {0, 1, 2, 4, 8}
    ensures r == 8 <==> x == 0 && y == 1
    ensures r == 4 <==> x == 0 && y == -1
    ensures r == 2 <==> x == -1 && y == 0
    ensures r == 1 <==> x == 1 && y == 0
  {
    if x == 0 && y == 1 then 8
    else if x == 0 && y == -1 then 4
    else if x == -1 && y == 0 then 2
    else if x == 1 && y == 0 then 1
    else 0
  }

  /**
    The button slot of the frame: one more than the index of the first
    button that reads nonzero, or 0 when none does.
  */
  function ButtonField(buttons: seq<int>): (r: nat)
    ensures r <= |buttons|
    ensures r == 0 <==> forall b | 0 <= b < |buttons| :: buttons[b] == 0
    ensures r > 0 ==> buttons[r - 1] != 0 && forall b | 0 <= b < r - 1 :: buttons[b] == 0
  {
    if |buttons| == 0 then 0
    else if buttons[0] != 0 then 1
    else
      var rest := ButtonField(buttons[1..]);
      assert forall b | 1 <= b < |buttons| :: buttons[b] == buttons[1..][b - 1];
      if rest == 0 then 0 else rest + 1
  }

  /** What the pressed button asks for, checked in the file's order: increase, decrease, toggle. */
  datatype ButtonAction = IncreaseGain | DecreaseGain | ToggleFlatten | NoAction

  function Action(pressed: int, increaseGainButton: int, decreaseGainButton: int, toggleFlattenButton: int): (a: ButtonAction)
    ensures a == IncreaseGain <==> pressed == increaseGainButton
    ensures a == DecreaseGain <==> pressed != increaseGainButton && pressed == decreaseGainButton
    ensures a == ToggleFlatten <==> pressed != increaseGainButton && pressed != decreaseGainButton
                                    && pressed == toggleFlattenButton
  {
    if pressed == increaseGainButton then IncreaseGain
    else if pressed == decreaseGainButton then DecreaseGain
    else if pressed == toggleFlattenButton then ToggleFlatten
    else NoAction
  }

  /** The gain after a cycle: `set_gain` accepts every value, so a step of 0.1 always lands. */
  function NextGain(action: ButtonAction, gain: real): (g: real)
    ensures action == IncreaseGain ==> g - gain == 0.1
    ensures action == DecreaseGain ==> gain - g == 0.1
    ensures action != IncreaseGain && action != DecreaseGain ==> g == gain
  {
    match action
    case IncreaseGain => gain + 0.1
    case DecreaseGain => gain - 0.1
    case _ => gain
  }

  function NextFlatten(action: ButtonAction, flatten: bool): (f: bool)
    ensures f != flatten <==> action == ToggleFlatten
  {
    if action == ToggleFlatten then !flatten else flatten
  }

  /** One poll of the joystick: its axes, the button states and hat 0. */
  datatype JoystickState = JoystickState(axes: seq<real>, buttons: seq<int>, hatX: int, hatY: int)

  /**
    The frame `prepare_joystick_data` leaves behind: roll and pitch scaled
    by the gain, yaw scaled and halved, throttle unscaled and reversed, the
    hat and the first pressed button; the start byte and the manipulator
    and stop slots keep what they held.
  */
  function PreparedFrame(frame: seq<real>, js: JoystickState, gain: real, flatten: bool): (r: seq<real>)
    requires |frame| == FRAME_LENGTH && |js.axes| >= NUMBER_OF_AXES
    ensures |r| == FRAME_LENGTH
    ensures r[0] == frame[0] && r[7..] == frame[7..]
    ensures forall a | 0 <= a < 2 :: r[a + PILOT_AXIS_START] == Mul(DefaultDeflection(js.axes[a], flatten) as real, gain)
    ensures 2.0 * r[3] == Mul(DefaultDeflection(js.axes[3], flatten) as real, gain)
    ensures r[4] + DefaultDeflection(js.axes[2], flatten) as real == (MAX_DEFLECTION - 1) as real
    ensures r[BUTTON_INDEX] == ButtonField(js.buttons) as real
    ensures r[HAT_SWITCH_INDEX] == HatSwitchPosition(js.hatX, js.hatY) as real
  {
    var throttle := DefaultDeflection(js.axes[2], flatten);
    var yaw := Mul(DefaultDeflection(js.axes[3], flatten) as real, gain);
    [frame[0],
     Mul(DefaultDeflection(js.axes[0], flatten) as real, gain),
     Mul(DefaultDeflection(js.axes[1], flatten) as real, gain),
     yaw / 2.0,
     (-(throttle - (MAX_DEFLECTION - 1))) as real,
     ButtonField(js.buttons) as real,
     HatSwitchPosition(js.hatX, js.hatY) as real] + frame[7..]
  }

  /**
    With the stick at rest, no button and the hat centred, a gain of 1
    sends the centre 125 on roll, pitch and throttle and 62.5 on yaw: the
    halving makes yaw a fraction even at rest.
  */
  lemma RestFrame(frame: seq<real>, flatten: bool)
    requires |frame| == FRAME_LENGTH
    ensures var r := PreparedFrame(frame, JoystickState([0.0, 0.0, 0.0, 0.0], [], 0, 0), 1.0, flatten);
            r[1..7] == [125.0, 125.0, 62.5, 125.0, 0.0, 0.0]
  {
    DefaultEndpoints(flatten);
    var r := PreparedFrame(frame, JoystickState([0.0, 0.0, 0.0, 0.0], [], 0, 0), 1.0, flatten);
    assert Mul(125.0, 1.0) == 125.0;
    assert r[3] == 62.5;
  }

  /**
    The payload can hit the sentinels and leave the byte range: full roll
    at gain 1 puts STOP in a payload slot, and full throttle puts -1 in the
    throttle slot.
  */
  lemma FullDeflectionFrame(frame: seq<real>, flatten: bool)
    requires |frame| == FRAME_LENGTH
    ensures var r := PreparedFrame(frame, JoystickState([1.0, 1.0, 1.0, 1.0], [], 0, 0), 1.0, flatten);
            r[1] == STOP as real && r[4] == -1.0
  {
    DefaultEndpoints(flatten);
    assert Mul(251.0, 1.0) == 251.0;
  }

  /**
    The button scan of `prepare_joystick_data`: the loop over the buttons
    that stops at the first nonzero one and reports its number plus one,
    or the reset value 0 when the loop runs out.
  */
  method FirstPressed(buttons: seq<int>) returns (pressed: nat)
    ensures pressed == ButtonField(buttons)
  {
    pressed := 0;
    for b := 0 to |buttons|
      invariant pressed == 0
      invariant forall j | 0 <= j < b :: buttons[j] == 0
    {
      if buttons[b] != 0 {
        pressed := b + 1;
        break;
      }
    }
  }

  /** What a cycle changes: the frame, the gain and the flatten option. */
  datatype RovState = RovState(frame: seq<real>, gain: real, flatten: bool)

  /** The state after one request is answered with the joystick poll `js`. */
  function NextState(st: RovState, js: JoystickState, increaseGainButton: int, decreaseGainButton: int,
                     toggleFlattenButton: int): (n: RovState)
    requires |st.frame| == FRAME_LENGTH && |js.axes| >= NUMBER_OF_AXES
    ensures |n.frame| == FRAME_LENGTH
    ensures n.frame[0] == st.frame[0] && n.frame[7..] == st.frame[7..]
  {
    var action := Action(ButtonField(js.buttons) as int, increaseGainButton, decreaseGainButton, toggleFlattenButton);
    RovState(PreparedFrame(st.frame, js, st.gain, st.flatten), NextGain(action, st.gain), NextFlatten(action, st.flatten))
  }

  predicate PollsComplete(polls: seq<JoystickState>)
  {
    forall k | 0 <= k < |polls| :: |polls[k].axes| >= NUMBER_OF_AXES
  }

  /** The state after answering one request per poll, in order. */
  function Replay(st: RovState, polls: seq<JoystickState>, increaseGainButton: int, decreaseGainButton: int,
                  toggleFlattenButton: int): (r: RovState)
    requires |st.frame| == FRAME_LENGTH && PollsComplete(polls)
    ensures |r.frame| == FRAME_LENGTH
    ensures r.frame[0] == st.frame[0] && r.frame[7..] == st.frame[7..]
    decreases |polls|
  {
    if |polls| == 0 then st
    else NextState(Replay(st, polls[..|polls| - 1], increaseGainButton, decreaseGainButton, toggleFlattenButton),
                   polls[|polls| - 1], increaseGainButton, decreaseGainButton, toggleFlattenButton)
  }

  /** The frames written while replaying the polls, one per poll. */
  function ReplayFrames(st: RovState, polls: seq<JoystickState>, increaseGainButton: int, decreaseGainButton: int,
                        toggleFlattenButton: int): (frames: seq<seq<real>>)
    requires |st.frame| == FRAME_LENGTH && PollsComplete(polls)
    ensures |frames| == |polls|
    decreases |polls|
  {
    if |polls| == 0 then []
    else
      ReplayFrames(st, polls[..|polls| - 1], increaseGainButton, decreaseGainButton, toggleFlattenButton)
        + [Replay(st, polls, increaseGainButton, decreaseGainButton, toggleFlattenButton).frame]
  }

  /** The k-th frame written is the frame of the state reached after the first k + 1 polls. */
  lemma {:induction false} ReplayFramesAt(st: RovState, polls: seq<JoystickState>, k: nat, increaseGainButton: int,
                                          decreaseGainButton: int, toggleFlattenButton: int)
    requires |st.frame| == FRAME_LENGTH && PollsComplete(polls) && k < |polls|
    ensures ReplayFrames(st, polls, increaseGainButton, decreaseGainButton, toggleFlattenButton)[k]
            == Replay(st, polls[..k + 1], increaseGainButton, decreaseGainButton, toggleFlattenButton).frame
    decreases |polls|
  {
    if k < |polls| - 1 {
      var init := polls[..|polls| - 1];
      ReplayFramesAt(st, init, k, increaseGainButton, decreaseGainButton, toggleFlattenButton);
      assert init[..k + 1] == polls[..k + 1];
    } else {
      assert polls[..k + 1] == polls;
    }
  }

  lemma ReplayStep(st: RovState, polls: seq<JoystickState>, n: nat, increaseGainButton: int,
                   decreaseGainButton: int, toggleFlattenButton: int)
    requires |st.frame| == FRAME_LENGTH && PollsComplete(polls) && n < |polls|
    ensures Replay(st, polls[..n + 1], increaseGainButton, decreaseGainButton, toggleFlattenButton)
            == NextState(Replay(st, polls[..n], increaseGainButton, decreaseGainButton, toggleFlattenButton),
                         polls[n], increaseGainButton, decreaseGainButton, toggleFlattenButton)
  {
    assert polls[..n + 1][..n] == polls[..n];
  }

  lemma ReplayFramesStep(st: RovState, polls: seq<JoystickState>, n: nat, increaseGainButton: int,
                         decreaseGainButton: int, toggleFlattenButton: int)
    requires |st.frame| == FRAME_LENGTH && PollsComplete(polls) && n < |polls|
    ensures ReplayFrames(st, polls[..n + 1], increaseGainButton, decreaseGainButton, toggleFlattenButton)
            == ReplayFrames(st, polls[..n], increaseGainButton, decreaseGainButton, toggleFlattenButton)
               + [Replay(st, polls[..n + 1], increaseGainButton, decreaseGainButton, toggleFlattenButton).frame]
  {
    assert polls[..n + 1][..n] == polls[..n];
  }

  /** The ROV link of control_system.py: the frame it sends and the joystick settings. */
  class Rov {
    var data: array<real>
    var gain: real
    var flatten: bool
    const increaseGainButton: int
    const decreaseGainButton: int
    const toggleFlattenButton: int
    /** Read from the configuration but never passed to `compute_deflection`. */
    const deadZone: int

    ghost predicate Valid()
      reads this
    {
      data.Length == FRAME_LENGTH
    }

    /**
      `__init__` and `initialize_joystick`, with the [Joystick] values of
      the configuration as parameters.
    */
    constructor (gain: real, flatten: bool, increaseGainButton: int, decreaseGainButton: int,
                 toggleFlattenButton: int, deadZone: int)
      ensures Valid() && fresh(data)
      ensures data[..] == InitialRealFrame()
      ensures this.gain == gain && this.flatten == flatten
      ensures this.increaseGainButton == increaseGainButton && this.decreaseGainButton == decreaseGainButton
      ensures this.toggleFlattenButton == toggleFlattenButton && this.deadZone == deadZone
    {
      data := new real[FRAME_LENGTH](i requires 0 <= i < FRAME_LENGTH => InitialRealFrame()[i]);
      this.gain := gain;
      this.flatten := flatten;
      this.increaseGainButton := increaseGainButton;
      this.decreaseGainButton := decreaseGainButton;
      this.toggleFlattenButton := toggleFlattenButton;
      this.deadZone := deadZone;
    }

    /** `set_gain`: its guard `g > 1 and g <= 0` holds for no g, so every gain is stored. */
    method SetGain(g: real)
      modifies this`gain
      ensures gain == g
    {
      if g > 1.0 && g <= 0.0 {
        return;
      }
      gain := g;
    }

    /** `prepare_joystick_data` on one poll of the joystick. */
    method PrepareJoystickData(js: JoystickState)
      requires Valid() && |js.axes| >= NUMBER_OF_AXES
      modifies this`gain, this`flatten, data
      ensures Valid()
      ensures data[..] == PreparedFrame(old(data[..]), js, old(gain), old(flatten))
      ensures var action := Action(ButtonField(js.buttons) as int, increaseGainButton, decreaseGainButton,
                                   toggleFlattenButton);
              gain == NextGain(action, old(gain)) && flatten == NextFlatten(action, old(flatten))
    {
      ghost var target := PreparedFrame(old(data[..]), js, gain, flatten);
      // Roll and pitch are the first two axes.
      for a := 0 to 2
        modifies data
        invariant forall i | 0 <= i < FRAME_LENGTH && !(PILOT_AXIS_START <= i < a + PILOT_AXIS_START) ::
                    data[i] == old(data[i])
        invariant forall i | PILOT_AXIS_START <= i < a + PILOT_AXIS_START :: data[i] == target[i]
      {
        assert target[a + PILOT_AXIS_START] == Mul(DefaultDeflection(js.axes[a], flatten) as real, gain);
        data[a + PILOT_AXIS_START] := Mul(DefaultDeflection(js.axes[a], flatten) as real, gain);
      }
      var throttle := DefaultDeflection(js.axes[2], flatten);
      var yaw := Mul(DefaultDeflection(js.axes[3], flatten) as real, gain);
      data[3] := yaw / 2.0;
      data[4] := (-(throttle - (MAX_DEFLECTION - 1))) as real;
      data[HAT_SWITCH_INDEX] := HatSwitchPosition(js.hatX, js.hatY) as real;
      var pressed := FirstPressed(js.buttons);
      data[BUTTON_INDEX] := pressed as real;
      assert data[..] == target;
      if pressed == increaseGainButton {
        SetGain(gain + 0.1);
      } else if pressed == decreaseGainButton {
        SetGain(gain - 0.1);
      } else if pressed == toggleFlattenButton {
        if !flatten {
          flatten := true;
        } else {
          flatten := false;
        }
      }
    }

    /**
      One pass of `run`: wait for the STOP byte, then prepare and write the
      frame. A stream that runs out before a STOP leaves everything as it
      was and writes nothing (the serial read would block).
    */
    method RunCycle(stream: seq<byte>, js: JoystickState) returns (rest: Option<seq<byte>>, written: seq<real>)
      requires Valid() && |js.axes| >= NUMBER_OF_AXES
      modifies this`gain, this`flatten, data
      ensures Valid()
      ensures rest == AfterStop(stream)
      ensures rest.None? ==> written == [] && data[..] == old(data[..]) && gain == old(gain) && flatten == old(flatten)
      ensures rest.Some? ==> written == data[..] == PreparedFrame(old(data[..]), js, old(gain), old(flatten))
      ensures var action := Action(ButtonField(js.buttons) as int, increaseGainButton, decreaseGainButton,
                                   toggleFlattenButton);
              rest.Some? ==> gain == NextGain(action, old(gain)) && flatten == NextFlatten(action, old(flatten))
    {
      rest := AwaitStop(stream);
      if rest.None? {
        written := [];
        return;
      }
      PrepareJoystickData(js);
      written := data[..];
    }

    /**
      `run`: answer each STOP byte of the stream with the frame prepared
      from the next joystick poll. It ends when the stream runs out (the
      read would block) or when there is no poll left; the frames written
      are those of the replayed polls, and the start and stop slots never
      change.
    */
    method Run(stream: seq<byte>, polls: seq<JoystickState>) returns (written: seq<seq<real>>)
      requires Valid() && PollsComplete(polls)
      modifies this`gain, this`flatten, data
      ensures Valid()
      ensures |written| == if CountStops(stream) < |polls| then CountStops(stream) else |polls|
      ensures written == ReplayFrames(RovState(old(data[..]), old(gain), old(flatten)), polls[..|written|],
                                      increaseGainButton, decreaseGainButton, toggleFlattenButton)
      ensures RovState(data[..], gain, flatten)
              == Replay(RovState(old(data[..]), old(gain), old(flatten)), polls[..|written|],
                        increaseGainButton, decreaseGainButton, toggleFlattenButton)
    {
      ghost var start := RovState(data[..], gain, flatten);
      written := [];
      var input := stream;
      assert polls[..0] == [];
      while |written| < |polls|
        invariant Valid()
        invariant |written| <= |polls|
        invariant CountStops(stream) == |written| + CountStops(input)
        invariant RovState(data[..], gain, flatten)
                  == Replay(start, polls[..|written|], increaseGainButton, decreaseGainButton, toggleFlattenButton)
        invariant written
                  == ReplayFrames(start, polls[..|written|], increaseGainButton, decreaseGainButton, toggleFlattenButton)
        decreases |polls| - |written|
      {
        ghost var before := RovState(data[..], gain, flatten);
        var rest, frame := RunCycle(input, polls[|written|]);
        AfterStopCount(input);
        if rest.None? {
          return;
        }
        assert RovState(data[..], gain, flatten)
               == NextState(before, polls[|written|], increaseGainButton, decreaseGainButton, toggleFlattenButton);
        ReplayStep(start, polls, |written|, increaseGainButton, decreaseGainButton, toggleFlattenButton);
        ReplayFramesStep(start, polls, |written|, increaseGainButton, decreaseGainButton, toggleFlattenButton);
        written := written + [frame];
        input := rest.value;
      }
    }
  }
}
