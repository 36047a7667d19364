# UiS Subsea control links in Dafny

This project models the sequential, byte-exact core of the UiS Subsea
vehicle software. It has three parts.

**The value mapper.** It turns a joystick axis reading in [-1, 1] into a
protocol value. There are three variants, and the model keeps them apart:

- `src/topside_debugger/control_system.py` (module `ControlSystem`) cuts
  with `int()`. It uses `right_max = 251`. Inside the dead zone it snaps to
  the centre; outside it, it keeps the converted value unchanged.
- `src/PID/AUV.py` (module `VehicleAuv`) rounds with Python 2 `round` and
  multiplies the deflection by a gain. Outside the dead zone it stretches
  the deflection onto `[center, right_max]`, mirrored for negative
  deflections.
- `src/topside_debugger/joystick.py` (module `Joystick`) does the same
  without a gain, with a dead zone of 20.

`remap` computes the same value in joystick.py, AUV.py and
`src/PID/auv.py`: joystick.py returns `int(round(...))` at once, the other
two round first and return `int` of the rounded value. It is modelled once,
as `Mapper.Remap`, next to the flatten curve and the dead-zone stretch that
AUV.py and joystick.py share (module `Mapper`); auv.py has no
`compute_deflection`.

**The 12-slot control frame and its handshake.** The frame is
`[255, roll, pitch, yaw, throttle, button, hat, m1..m4, 251]`. The
vehicle asks for a frame by sending the STOP byte 251. The controller
discards bytes until that STOP arrives, then writes the whole frame
(module `ControlLink`). The frame lives in classes that update it in
place:

- `ControlSystem.Rov` fills it from the joystick. The first pressed
  button may change the gain or toggle the flatten curve.
- `VehicleAuv.Auv` writes its frame unchanged on every request: its
  `run` never calls `prepare_auv_data`.
- `PidAuv.Auv` reads a "heading,depth" line from the IMU each cycle and
  puts the PID controller's output on the throttle slot.

**The Tritech sonar link** (module `Sonar`). A simple command is the
14-byte `command` record, written field by field. A reply frame runs from
the header byte 0x40 to the first line feed 0x0A after it. Each reply byte
is kept as two hex digits.

Numbers follow Python 2 with exact reals in place of floats:

- `round` rounds halves away from zero.
- `int()` truncates toward zero.
- `/` on two integers is floor division; on a float it is real division.

The serial port is the finite sequence of bytes it will deliver. A read
past its end would block for ever, so the model reports it as `None` or
`Blocked`.

The model follows the code where it does not do what its own comments
and structure suggest:

- **The frame's payload can hold a sentinel.** The comment above
  `compute_deflection` in control_system.py (lines 212-213) wants values
  from 0 to 250, below the STOP byte 251. Its default `right_max` is 251,
  so full roll at gain 1 puts 251 (STOP) in a payload slot, and full
  throttle puts -1 in the throttle slot (`ControlSystem.FullDeflectionFrame`).
- **Gain is never clamped.** `set_gain`'s guard `gain > 1 and gain <= 0`
  holds for no gain, so every gain is accepted and larger values are not
  held back.
- **No resynchronisation.** `read_message`'s outer `while` (Sonar.py
  lines 65-79) is meant to read frame after frame until the length and the
  command id match. `version_data` has no such loop: it drops a frame of
  the wrong length and reads nothing more.
- **`read_message` never reads.** Its loop test indexes `message[10]` of
  an empty list, so it fails at once for any nonzero length. Even past
  that test, it compares two-digit hex strings with a raw byte, which can
  never be equal.

## Model

| member | source | states |
|---|---|---|
| Mapper.RoundHalfAway | src/PID/AUV.py:140-141 | Python 2 `round`: the result is within 0.5 of x, and a tie goes away from zero (up for x ≥ 0, down for x < 0) |
| Mapper.RoundMonotone | src/PID/AUV.py:140-141 | `round` never decreases as its argument grows |
| Mapper.Truncate | src/topside_debugger/control_system.py:236 | `int()` on a float truncates toward zero: the result is below x by less than 1 for x ≥ 0, and above it by less than 1 for x < 0 |
| Mapper.TruncateMonotone | src/topside_debugger/control_system.py:236 | truncation never decreases as its argument grows |
| Mapper.Flatten | src/PID/AUV.py:153-157 | the flatten curve keeps the sign; a value ≤ 0 gives -value²; ±1 map to ±1; [-1, 1] maps into itself with the magnitude never growing |
| Mapper.FlattenMonotone | src/topside_debugger/joystick.py:40-44 | the flatten curve is monotone non-decreasing |
| Mapper.ShapedMonotone | src/topside_debugger/joystick.py:40-44 | the value entering the remap, flattened or not, is monotone in the axis value |
| Mapper.Remap | src/topside_debugger/joystick.py:22-32 | `remap` sends left_min to right_min and left_max to right_max exactly; a value inside the left range lands inside the right range (src/PID/AUV.py lines 131-141 and src/PID/auv.py lines 144-154 compute the same value: they round, then return `int` of the result) |
| Mapper.RemapMonotone | src/topside_debugger/joystick.py:22-32 | `remap` over an increasing range is monotone non-decreasing |
| Mapper.Stretch | src/PID/AUV.py:174-180 | no jump at the dead-zone edge: a deflection equal to dead_zone lands exactly on the centre; a positive deflection lands in [center, right_max], a negative one in [0, right_max - center] |
| Mapper.StretchMirror | src/PID/AUV.py:174-180 | the stretch outputs for -d and +d sum to right_max |
| Mapper.StretchMonotone | src/topside_debugger/joystick.py:61-67 | on each side of zero the stretch is monotone non-decreasing |
| Mapper.StretchPositiveAboveCenter | src/topside_debugger/joystick.py:61-63 | a positive deflection past the dead zone never lands below the centre |
| Mapper.StretchNegativeBelowMirror | src/topside_debugger/joystick.py:64-67 | a negative deflection past the dead zone never lands above right_max - center |
| Joystick.DeadZoneMap | src/topside_debugger/joystick.py:50-67 | a deflection with absolute value ≤ dead_zone gives exactly the centre right_max / 2 |
| Joystick.ComputeDeflection | src/topside_debugger/joystick.py:34-67 | whenever the rounded value lies within dead_zone of the centre, the result is the centre (125 with the defaults) |
| Joystick.DefaultEndpoints | src/topside_debugger/joystick.py:34-67 | with the default arguments, 1 gives 250, -1 gives 0 and 0 gives 125, with or without flatten |
| Joystick.DefaultRange | src/topside_debugger/joystick.py:61-67 | for a value in [-1, 1], a converted value at or above the centre gives a result in [125, 250], one at or below it gives [0, 125], so the output stays in [0, 250] |
| Joystick.DeadZoneMirror | src/topside_debugger/joystick.py:61-67 | mirror law: for an even right_max, deflections -d and +d give outputs that sum to right_max |
| Joystick.DeadZoneMapMonotone | src/topside_debugger/joystick.py:57-67 | the dead-zone snap with the stretch is monotone non-decreasing in the deflection |
| Joystick.ComputeDeflectionMonotone | src/topside_debugger/joystick.py:40-67 | `compute_deflection` is monotone non-decreasing in the axis value |
| VehicleAuv.Deflect | src/PID/AUV.py:163-180 | when `abs(value_converted - center) * gain ≤ dead_zone`, the result is the centre right_max / 2 |
| VehicleAuv.ComputeDeflection | src/PID/AUV.py:147-180 | whenever `abs(converted - center) * gain ≤ dead_zone`, the result is the centre (125 with the defaults) |
| VehicleAuv.DefaultEndpoints | src/PID/AUV.py:147-180 | with the defaults and gain 1, value 1 gives 250, -1 gives 0 and 0 gives 125 |
| VehicleAuv.DeflectMirror | src/PID/AUV.py:174-180 | mirror law: for an even right_max, offsets -d and +d give outputs summing to right_max, for any gain |
| VehicleAuv.Auv.constructor | src/PID/AUV.py:26-39 | the frame starts as the 12-slot initial frame |
| VehicleAuv.Auv.PrepareAuvData | src/PID/AUV.py:182-186 | slots 1-4 become 125 and every other slot, the sentinels included, is unchanged; the length stays 12 |
| VehicleAuv.Auv.Run | src/PID/AUV.py:192-206 | over a stream, the whole frame is written once per STOP byte and nothing else happens |
| ControlLink.InitialFrame | src/topside_debugger/control_system.py:77-90 | the initial frame has 12 slots, START first, STOP last, 125 on roll, pitch, yaw and throttle, and payload below STOP |
| ControlLink.AfterStop | src/topside_debugger/control_system.py:333-336 | waiting for STOP blocks exactly when the stream holds no 251; otherwise it consumes the bytes up to and including the first 251 and leaves the rest |
| ControlLink.AwaitStop | src/PID/auv.py:170-175 | the byte-by-byte wait loop leaves exactly the remainder AfterStop describes |
| ControlLink.AfterStopCount | src/PID/AUV.py:196-206 | each answered request uses up exactly one STOP byte of the stream |
| ControlLink.BytesToInt | src/topside_debugger/control_system.py:319-320 | `bytes_to_int` of one byte is its value; it fails on the empty string; the value fits the byte count |
| ControlLink.BigEndianRoundTrip | src/topside_debugger/control_system.py:319-320 | reading back n written as big-endian bytes gives n |
| ControlLink.BytesToIntRoundTrip | src/PID/AUV.py:189-190 | `bytes_to_int` recovers every value that fits its byte count |
| ControlSystem.Converted | src/topside_debugger/control_system.py:228-236 | the truncating conversion sends the ends of the left range to the ends of the right range and the range into the range |
| ControlSystem.ConvertedMonotone | src/topside_debugger/control_system.py:228-236 | the truncating conversion is monotone non-decreasing |
| ControlSystem.ComputeDeflection | src/topside_debugger/control_system.py:216-245 | within dead_zone of the centre right_max / 2 the result is the centre; outside, the converted value is returned unchanged (no re-stretch) |
| ControlSystem.DefaultEndpoints | src/topside_debugger/control_system.py:216-245 | with the defaults, 1 gives 251, which is the STOP sentinel; -1 gives 0 and 0 gives 125 |
| ControlSystem.DefaultRange | src/topside_debugger/control_system.py:216-245 | for a value in [-1, 1] the result lies in [0, 251] |
| ControlSystem.ComputeDeflectionMonotone | src/topside_debugger/control_system.py:216-245 | `compute_deflection` is monotone non-decreasing in the axis value |
| ControlSystem.HatSwitchPosition | src/topside_debugger/control_system.py:303-316 | up gives 8, down 4, left 2 and right 1, each if and only if; the result is always in {0, 1, 2, 4, 8} |
| ControlSystem.ButtonField | src/topside_debugger/control_system.py:277-285 | the button slot is 1 plus the index of the first pressed button, or 0 exactly when none is pressed |
| ControlSystem.FirstPressed | src/topside_debugger/control_system.py:280-285 | the scan loop that stops at the first pressed button yields the button slot |
| ControlSystem.Action | src/topside_debugger/control_system.py:287-295 | at most one of increase gain, decrease gain and toggle flatten fires, in that priority order |
| ControlSystem.NextGain | src/topside_debugger/control_system.py:287-301 | increase adds 0.1 to the gain, decrease subtracts 0.1, and any other action keeps it |
| ControlSystem.NextFlatten | src/topside_debugger/control_system.py:291-295 | flatten flips exactly when the toggle button fires |
| ControlSystem.PreparedFrame | src/topside_debugger/control_system.py:247-285 | roll and pitch are deflection·gain; yaw is deflection·gain / 2; throttle is 250 minus the unscaled throttle deflection; the hat and button slots are encoded; slots 0 and 7-11 are untouched |
| ControlLink.InitialRealFrame | src/topside_debugger/control_system.py:77-90 | the frame as reals, as `ROV` and auv.py's `AUV` (src/PID/auv.py lines 28-41) build it: slot by slot the initial frame |
| ControlSystem.RestFrame | src/topside_debugger/control_system.py:252-278 | at rest with gain 1, roll, pitch and throttle are 125 and yaw is 62.5 |
| ControlSystem.FullDeflectionFrame | src/topside_debugger/control_system.py:252-273 | full roll at gain 1 puts STOP (251) in a payload slot; full throttle puts -1 in the throttle slot |
| ControlSystem.NextState | src/topside_debugger/control_system.py:247-295 | a cycle changes the frame, the gain and the flatten option together, and never slots 0 and 7-11 |
| ControlSystem.Replay | src/topside_debugger/control_system.py:326-348 | after any number of cycles, START and the manipulator and STOP slots keep their values |
| ControlSystem.ReplayFrames | src/topside_debugger/control_system.py:326-348 | one frame is written per answered request |
| ControlSystem.ReplayFramesAt | src/topside_debugger/control_system.py:326-348 | the k-th frame written is the frame after the first k + 1 polls |
| ControlSystem.Rov.constructor | src/topside_debugger/control_system.py:74-90 | the frame starts as the initial frame; the joystick settings are the configured ones |
| ControlSystem.Rov.SetGain | src/topside_debugger/control_system.py:297-301 | every gain is stored, because the guard can never hold |
| ControlSystem.Rov.PrepareJoystickData | src/topside_debugger/control_system.py:247-295 | the frame becomes the prepared frame, and gain and flatten follow the pressed button's action |
| ControlSystem.Rov.RunCycle | src/topside_debugger/control_system.py:329-348 | wait for STOP, then prepare and write the frame; a stream without STOP changes nothing and writes nothing |
| ControlSystem.Rov.Run | src/topside_debugger/control_system.py:326-348 | one frame per STOP byte while polls last; the frames written and the final state are those of replaying the polls in order |
| PidAuv.Split | src/PID/auv.py:168 | `split(",")` gives one more piece than there are commas, and no piece holds a comma |
| PidAuv.JoinSplit | src/PID/auv.py:168 | joining the pieces with the separator gives the line back |
| PidAuv.SplitJoin | src/PID/auv.py:168 | splitting the join of comma-free pieces gives the pieces back |
| PidAuv.ParseImuLine | src/PID/auv.py:166-168 | the line parses exactly when it has one comma; heading and depth are the raw text on either side of it |
| PidAuv.ParseImuLineRoundTrip | src/PID/auv.py:166-168 | any comma-free heading and depth are read back from "heading,depth" |
| PidAuv.AuvFrame | src/PID/auv.py:156-160 | slots 1-3 become CENTER (125), slot 4 becomes the PID output, and every other slot is unchanged |
| PidAuv.AuvCycles | src/PID/auv.py:156-160 | the frame after one `prepare_auv_data` per PID output keeps its 12 slots |
| PidAuv.AuvCyclesKeepSlots | src/PID/auv.py:177-189 | over any number of cycles, START, STOP, the button, hat and manipulator slots keep their values; after at least one cycle roll, pitch and yaw are 125 and the throttle holds the latest PID output |
| PidAuv.Auv.constructor | src/PID/auv.py:28-41 | the frame starts as the initial frame; no IMU reading yet |
| PidAuv.Auv.PrepareAuvData | src/PID/auv.py:156-160 | the frame becomes AuvFrame of itself and the PID output on the depth text |
| PidAuv.Auv.ReadImuState | src/PID/auv.py:166-168 | succeeds if and only if the line splits into two fields; on success heading and depth are those fields, and on failure both keep their values |
| PidAuv.Auv.ReadAuvState | src/PID/auv.py:170-175 | consumes the stream up to and including the first STOP and leaves the rest |
| PidAuv.Auv.RunCycle | src/PID/auv.py:177-189 | the cycle is: wait for STOP, read the IMU line, prepare the frame, write it. Blocked iff no STOP; parse error iff a STOP but a bad line; a cycle that fails changes nothing |
| Sonar.CommandFields | Sonar/Sonar.py:31-32 | a `command` record has ten fields |
| Sonar.SimpleCommand | Sonar/Sonar.py:47-60 | a simple command is 14 bytes: HEADER first, LF last, the command byte at REPLY_COMMAND_ID_IDX (10), and no other header or line feed byte |
| Sonar.CommandFieldsLayout | Sonar/Sonar.py:7-15 | the record's fields, written in order, are exactly 0x40 0x30 0x30 0x30 0x38 0x08 0x00 0xFF 0x02 0x03 cmd 0x80 0x02 0x0A |
| Sonar.SendCommand | Sonar/Sonar.py:47-60 | mtSendData fails with TypeError and writes nothing; any other command byte writes exactly the simple command |
| Sonar.ExtractFrame | Sonar/Sonar.py:94-108 | the frame starts with 0x40 and ends with the first 0x0A after it; the bytes before it hold no header; exactly junk + frame is consumed; the frame has length ≥ 2 and no LF before its end |
| Sonar.ExtractFrameBlocks | Sonar/Sonar.py:95-106 | the framing blocks exactly when no line feed follows a header anywhere in the stream |
| Sonar.ReadFrame | Sonar/Sonar.py:95-108 | the byte-by-byte seek and accumulate loops yield exactly the extracted frame and remainder |
| Sonar.ExtractSimpleCommand | Sonar/Sonar.py:95-108 | a simple command (cmd ≠ 0x0A) after header-free junk is read back whole, with the rest left over; a second 0x40 inside is kept as data |
| Sonar.Hexlify | Sonar/Sonar.py:135-137 | hexlifying n bytes gives 2n lower-case hex digits |
| Sonar.UnhexlifyHexlify | Sonar/Sonar.py:135-137 | the hex text determines the bytes: unhexlify inverts hexlify |
| Sonar.ByteToHex | Sonar/Sonar.py:135-137 | `bytes_to_hex` of one byte is two hex digits that decode back to that byte |
| Sonar.SonarRead | Sonar/Sonar.py:139-141 | `sonar_read` blocks exactly on an empty stream; otherwise it consumes one byte, whatever count it is asked for, and returns two hex digits that decode back to that byte |
| Sonar.HexList | Sonar/Sonar.py:100-108 | the reply becomes one hex string per byte, in order |
| Sonar.VersionData | Sonar/Sonar.py:94-115 | a frame is reported exactly when its length is 25; any other frame is dropped without reading again; a stream without a frame blocks |
| Sonar.LoopTest | Sonar/Sonar.py:65 | the test fails (IndexError) iff the length differs and the message has at most 10 entries; the loop stops iff the length matches or entry 10 equals the command id |
| Sonar.ReadMessage | Sonar/Sonar.py:62-81 | succeeds, with an empty message, exactly for length 0; every other length fails on the first test |
| Sonar.CommandIdNeverMatches | Sonar/Sonar.py:65-72 | a message of hex strings never matches a one-byte command id, so the loop would not stop on it |

## Left out

- Serial ports: opening them, the retry-for-ever loops, `time.sleep` and `KeyboardInterrupt` are not modelled. Each byte source is the finite sequence of bytes it will deliver.
- The conversion pyserial applies when writing a list of numbers is not modelled. A written frame is the list itself.
- pygame: initialisation and `event.pump` are not modelled. A poll of the joystick is a `JoystickState` value (axes, buttons and hat 0).
- The `pid` module is not part of this model. Its `update` is a function parameter, and the controller's state between cycles and its set point of 1.3 are not modelled.
- Logging and configuration files are not modelled. The configured gain, flatten option, buttons and dead zone are constructor parameters. The ROV's configured `dead_zone` is stored, but `compute_deflection` always receives its default of 5.
- Printing is not modelled: the `print` in `compute_deflection`, the hex display of `alive` and `version_data`, and the three "NOT IMPLEMENTED" functions. `alive` only reads 22 bytes and prints them.
- The module-level loops of joystick.py and Sonar.py are not modelled. `send_version` and `send_BBUser` are single calls of `SendCommand`.
- Supernode/Camera.py, src/topside_debugger/power_plot/arduino.py, src/sonar/Main.py, src/topside_debugger/configs.py and src/topside_debugger/logger_client.py are not part of this model.
- The 18-byte `send_data` layout is not modelled. It cannot be built, because the record's name is rebound to a function, so `SendCommand` returns `Err(TypeError)`.
- The framing loops inside `read_message` (Sonar.py lines 66-79) are the same as `version_data`'s, but no call of `read_message` can reach them, so they are modelled only through `version_data`.
- Construction of src/PID/auv.py calls `connect_to_imu`, a method that does not exist. The constructor models only the frame it builds before that call.
- Construction of control_system.py's `ROV` does not return as written: `initialize_joystick` (lines 198-207) never sets `joystick_connected` to True, so it loops for ever, and `run` is never reached. `ControlSystem.Rov.constructor` models the state the constructor evidently means to build, with the configuration as parameters.
- `connet_to_rov`'s error handler (control_system.py lines 157-158) logs `self.PORT`, which does not exist, so a missing port raises AttributeError instead of retrying. Opening the port is not modelled.
- Floats are exact reals. IEEE rounding, such as 0.1 steps of the gain that do not add up exactly, is not modelled.
- `send_command`'s `cmd is not MT_SEND_DATA` is modelled as byte inequality; CPython shares one-character strings. The command is a single byte.
- `Mapper.Remap`: requires left_min ≠ left_max; Python raises ZeroDivisionError there.
- `VehicleAuv.Auv.Run`: ends when the stream runs out; the source then blocks for ever.
- `ControlSystem.Rov.Run`: ends when the stream or the list of polls runs out; the source polls the joystick for ever.
