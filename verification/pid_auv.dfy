/**
  src/PID/auv.py: the autonomous variant of the vehicle link. Each cycle
  waits for the vehicle's STOP byte, reads one line "heading,depth" from
  the IMU, lets the PID controller turn the depth into a throttle value,
  and writes the 12-slot frame. Its `remap` is the shared Mapper.Remap.

  The PID controller lives in a module outside this model; its output is a
  parameter `pid` of the operations that use it. A PID output is a float,
  so the frame is modelled as an array of reals.
*/
module PidAuv {
  import opened Common
  import opened ControlLink

  const MIN_DEFLECTION := 0
  const MAX_DEFLECTION := 250
  const CENTER := 125
  const SEPARATOR := ','

  /** How often `c` occurs in `s`. */
  function Occurrences(s: string, c: char): nat
  {
    if |s| == 0 then 0 else (if s[0] == c then 1 else 0) + Occurrences(s[1..], c)
  }

  /**
    Python's `str.split(sep)` for a one-character separator: the pieces
    between the separators, empty pieces included.
  */
  function Split(s: string, sep: char): (parts: seq<string>)
    ensures |parts| == Occurrences(s, sep) + 1
    ensures forall i | 0 <= i < |parts| :: sep !in parts[i]
  {
    if |s| == 0 then [""]
    else
      var rest := Split(s[1..], sep);
      if s[0] == sep then [""] + rest
      else [[s[0]] + rest[0]] + rest[1..]
  }

  /** Python's `sep.join(parts)`. */
  function Join(parts: seq<string>, sep: char): string
    requires |parts| >= 1
  {
    if |parts| == 1 then parts[0] else parts[0] + [sep] + Join(parts[1..], sep)
  }

  /** Joining the pieces of a split gives the line back. */
  lemma {:induction false} JoinSplit(s: string, sep: char)
    ensures Join(Split(s, sep), sep) == s
  {
    if |s| > 0 {
      JoinSplit(s[1..], sep);
      var rest := Split(s[1..], sep);
      if s[0] != sep {
        if |rest| == 1 {
          assert Split(s, sep) == [[s[0]] + rest[0]];
        } else {
          assert Split(s, sep)[1..] == rest[1..];
        }
      }
      assert s == [s[0]] + s[1..];
    }
  }

  /** Splitting the join of separator-free pieces gives the pieces back. */
  lemma {:induction false} SplitJoin(parts: seq<string>, sep: char)
    requires |parts| >= 1
    requires forall i | 0 <= i < |parts| :: sep !in parts[i]
    ensures Split(Join(parts, sep), sep) == parts
  {
    if |parts| == 1 {
      SplitPiece(parts[0], [], sep);
      assert parts[0] + [] == parts[0];
      assert parts == [parts[0]];
    } else {
      SplitJoin(parts[1..], sep);
      SplitPiece(parts[0], Join(parts[1..], sep), sep);
      assert parts == [parts[0]] + parts[1..];
    }
  }

  /** A separator-free prefix extends the first piece of the split, or is the whole piece before a separator. */
  lemma {:induction false} SplitPiece(piece: string, tail: string, sep: char)
    requires sep !in piece
    ensures tail == [] ==> Split(piece + tail, sep) == [piece]
    ensures Split(piece + [sep] + tail, sep) == [piece] + Split(tail, sep)
  {
    if |piece| == 0 {
      assert piece + tail == tail;
      assert piece + [sep] + tail == [sep] + tail;
      assert ([sep] + tail)[1..] == tail;
    } else {
      SplitPiece(piece[1..], tail, sep);
      assert (piece + tail)[1..] == piece[1..] + tail;
      assert (piece + [sep] + tail)[1..] == piece[1..] + [sep] + tail;
      assert [piece[0]] + piece[1..] == piece;
    }
  }

  /**
    The assignment `self.heading, self.depth = line.split(",")`: it
    succeeds only when the line holds exactly one comma, and keeps both
    halves as raw text (the depth keeps the line's newline, if any).
  */
  function ParseImuLine(line: string): (r: Option<(string, string)>)
    ensures r.None? <==> Occurrences(line, SEPARATOR) != 1
    ensures r.Some? ==> SEPARATOR !in r.value.0 && SEPARATOR !in r.value.1
                        && r.value.0 + [SEPARATOR] + r.value.1 == line
  {
    var parts := Split(line, SEPARATOR);
    if |parts| == 2 then
      JoinSplit(line, SEPARATOR);
      assert Join(parts[1..], SEPARATOR) == parts[1];
      Some((parts[0], parts[1]))
    else None
  }

  lemma ParseImuLineRoundTrip(heading: string, depth: string)
    requires SEPARATOR !in heading && SEPARATOR !in depth
    ensures ParseImuLine(heading + [SEPARATOR] + depth) == Some((heading, depth))
  {
    SplitJoin([heading, depth], SEPARATOR);
    assert Join([heading, depth][1..], SEPARATOR) == depth;
  }

  /**
    The frame `prepare_auv_data` leaves behind: roll, pitch and yaw at
    CENTER, throttle at the PID output, every other slot as it was.
  */
  function AuvFrame(frame: seq<real>, pidOutput: real): (r: seq<real>)
    requires |frame| == FRAME_LENGTH
    ensures |r| == FRAME_LENGTH
    ensures forall i | 1 <= i <= 3 :: r[i] == CENTER as real
    ensures r[4] == pidOutput
    ensures forall i | 0 <= i < FRAME_LENGTH && !(1 <= i <= 4) :: r[i] == frame[i]
  {
    frame[1 := CENTER as real][2 := CENTER as real][3 := CENTER as real][4 := pidOutput]
  }

  /** The frame after one `prepare_auv_data` per PID output, in order. */
  function AuvCycles(frame: seq<real>, outputs: seq<real>): (r: seq<real>)
    requires |frame| == FRAME_LENGTH
    ensures |r| == FRAME_LENGTH
  {
    if |outputs| == 0 then frame
    else AuvFrame(AuvCycles(frame, outputs[..|outputs| - 1]), outputs[|outputs| - 1])
  }

  /**
    However many cycles run, the sentinels, the button and hat slots and the
    manipulators keep their values; after at least one cycle, roll, pitch
    and yaw sit at CENTER and the throttle holds the latest PID output.
  */
  lemma {:induction false} AuvCyclesKeepSlots(frame: seq<real>, outputs: seq<real>)
    requires |frame| == FRAME_LENGTH
    ensures var r := AuvCycles(frame, outputs);
            forall i | 0 <= i < FRAME_LENGTH && !(1 <= i <= 4) :: r[i] == frame[i]
    ensures |outputs| > 0 ==>
              var r := AuvCycles(frame, outputs);
              r[1] == r[2] == r[3] == CENTER as real && r[4] == outputs[|outputs| - 1]
  {
    if |outputs| > 0 {
      AuvCyclesKeepSlots(frame, outputs[..|outputs| - 1]);
    }
  }

  /** How one pass of `run` ends. */
  datatype CycleOutcome =
    | Blocked                                     // the stream ran out before a STOP byte
    | ImuParseError                               // the IMU line did not split into two fields
    | Written(frame: seq<real>, rest: seq<byte>)  // the frame written and the bytes after the STOP

  class Auv {
    var data: array<real>
    var heading: Option<string>
    var depth: Option<string>

    ghost predicate Valid()
      reads this
    {
      data.Length == FRAME_LENGTH
    }

    /** The frame of `__init__`; no IMU line has been read yet. */
    constructor ()
      ensures Valid() && fresh(data)
      ensures data[..] == InitialRealFrame()
      ensures heading.None? && depth.None?
    {
      data := new real[FRAME_LENGTH](i requires 0 <= i < FRAME_LENGTH => InitialRealFrame()[i]);
      heading := None;
      depth := None;
    }

    /** `prepare_auv_data`, with `pid` standing for `self.pid.update`. */
    method PrepareAuvData(pid: string -> real)
      requires Valid() && depth.Some?
      modifies data
      ensures Valid()
      ensures data[..] == AuvFrame(old(data[..]), pid(depth.value))
    {
      data[1] := CENTER as real;
      data[2] := CENTER as real;
      data[3] := CENTER as real;
      data[4] := pid(depth.value);
    }

    /**
      `read_imu_state` on the line `readline` returned. A line that does not
      split into two fields raises in the source and leaves both fields as
      they were; here it returns false.
    */
    method ReadImuState(line: string) returns (ok: bool)
      modifies this`heading, this`depth
      ensures ok <==> ParseImuLine(line).Some?
      ensures ok ==> heading == Some(ParseImuLine(line).value.0) && depth == Some(ParseImuLine(line).value.1)
      ensures !ok ==> heading == old(heading) && depth == old(depth)
    {
      var parts := Split(line, SEPARATOR);
      if |parts| != 2 {
        return false;
      }
      heading := Some(parts[0]);
      depth := Some(parts[1]);
      ok := true;
    }

    /** `read_auv_state`: consume the stream up to and including the first STOP. */
    method ReadAuvState(stream: seq<byte>) returns (rest: Option<seq<byte>>)
      ensures rest == AfterStop(stream)
    {
      rest := AwaitStop(stream);
    }

    /**
      One pass of `run`, in its order: wait for STOP, read the IMU line,
      prepare the frame, write it.
    */
    method RunCycle(stream: seq<byte>, line: string, pid: string -> real) returns (outcome: CycleOutcome)
      requires Valid()
      modifies this`heading, this`depth, data
      ensures Valid()
      ensures outcome.Blocked? <==> AfterStop(stream).None?
      ensures outcome.ImuParseError? <==> AfterStop(stream).Some? && ParseImuLine(line).None?
      ensures !outcome.Written? ==> data[..] == old(data[..]) && heading == old(heading) && depth == old(depth)
      ensures outcome.Written? ==>
                var parsed := ParseImuLine(line).value;
                && heading == Some(parsed.0) && depth == Some(parsed.1)
                && outcome.rest == AfterStop(stream).value
                && outcome.frame == data[..] == AuvFrame(old(data[..]), pid(parsed.1))
    {
      var rest := ReadAuvState(stream);
      if rest.None? {
        return Blocked;
      }
      var ok := ReadImuState(line);
      if !ok {
        return ImuParseError;
      }
      PrepareAuvData(pid);
      outcome := Written(data[..], rest.value);
    }
  }
}
