/**
  The vehicle control link as control_system.py, src/PID/AUV.py and
  src/PID/auv.py all drive it: a 12-entry frame framed by START (255) and
  STOP (251), written whole each time the vehicle asks for it by sending a
  STOP byte. The serial port is modelled as the sequence of bytes it will
  deliver; a read past its end blocks for ever, which the model reports as
  None.
*/
module ControlLink {
  import opened Common

  const START := 255
  const STOP := 251
  const FRAME_LENGTH := 12

  /** The frame every class builds in its constructor: start, roll, pitch, yaw, throttle, button, hat, four manipulators, stop. */
  function InitialFrame(): (f: seq<int>)
    ensures |f| == FRAME_LENGTH && f[0] == START && f[FRAME_LENGTH - 1] == STOP
    ensures forall i | 1 <= i <= 4 :: f[i] == 125
    ensures forall i | 1 <= i < FRAME_LENGTH - 1 :: 0 <= f[i] < STOP
  {
    [START, 125, 125, 125, 125, 0, 125, 125, 125, 0, 0, STOP]
  }

  /** The same frame as reals, as the classes whose frame takes float values hold it. */
  function InitialRealFrame(): (f: seq<real>)
    ensures |f| == FRAME_LENGTH
    ensures forall i | 0 <= i < FRAME_LENGTH :: f[i] == InitialFrame()[i] as real
  {
    seq(FRAME_LENGTH, i requires 0 <= i < FRAME_LENGTH => InitialFrame()[i] as real)
  }

  /**
    What remains of the stream once the first STOP byte has been read, or
    None when the stream ends first.
  */
  function AfterStop(s: seq<byte>): (r: Option<seq<byte>>)
    ensures r.None? <==> STOP !in s
    ensures r.Some? ==> |r.value| < |s| && s[|s| - |r.value| - 1] == STOP && r.value == s[|s| - |r.value|..]
    ensures r.Some? ==> forall j | 0 <= j < |s| - |r.value| - 1 :: s[j] != STOP
  {
    if s == [] then None
    else if s[0] == STOP then Some(s[1..])
    else AfterStop(s[1..])
  }

  /** The "wait for STOP" loop: read bytes one at a time and discard them until STOP arrives. */
  method AwaitStop(s: seq<byte>) returns (rest: Option<seq<byte>>)
    ensures rest == AfterStop(s)
  {
    var i := 0;
    while i < |s| && s[i] != STOP
      invariant 0 <= i <= |s|
      invariant forall j | 0 <= j < i :: s[j] != STOP
    {
      i := i + 1;
    }
    if i == |s| {
      rest := None;
    } else {
      rest := Some(s[i + 1..]);
      var expected := AfterStop(s);
      assert expected.Some?;
      assert |s| - |expected.value| - 1 == i;
    }
  }

  /** The number of STOP bytes in a stream: how many frames the vehicle asks for. */
  function CountStops(s: seq<byte>): nat
  {
    if s == [] then 0 else (if s[0] == STOP then 1 else 0) + CountStops(s[1..])
  }

  /** Answering one request uses up exactly one STOP byte of the stream. */
  lemma {:induction false} AfterStopCount(s: seq<byte>)
    ensures AfterStop(s).None? ==> CountStops(s) == 0
    ensures AfterStop(s).Some? ==> CountStops(s) == CountStops(AfterStop(s).value) + 1
  {
    if s != [] && s[0] != STOP {
      AfterStopCount(s[1..]);
    }
  }

  function Pow256(n: nat): (r: nat)
    ensures r >= 1
  {
    if n == 0 then 1 else 256 * Pow256(n - 1)
  }

  /** The unsigned big-endian value of a byte string. */
  function BigEndian(bs: seq<byte>): (r: nat)
    ensures r < Pow256(|bs|)
  {
    if bs == [] then 0 else BigEndian(bs[..|bs| - 1]) * 256 + bs[|bs| - 1]
  }

  /**
    bytes_to_int: `int(s.encode('hex'), 16)`, the big-endian value of the
    bytes; an empty string has an empty hex text, on which `int` raises
    ValueError (None here).
  */
  function BytesToInt(bs: seq<byte>): (r: Option<nat>)
    ensures r.None? <==> bs == []
    ensures |bs| == 1 ==> r == Some(bs[0] as nat)
    ensures r.Some? ==> r.value < Pow256(|bs|)
  {
    if bs == [] then None else Some(BigEndian(bs))
  }

  /** The inverse of BigEndian: n written as `width` big-endian bytes. */
  function ToBigEndian(n: nat, width: nat): (bs: seq<byte>)
    ensures |bs| == width
  {
    if width == 0 then [] else ToBigEndian(n / 256, width - 1) + [n % 256]
  }

  lemma {:induction false} BigEndianRoundTrip(n: nat, width: nat)
    requires n < Pow256(width)
    ensures BigEndian(ToBigEndian(n, width)) == n
  {
    if width > 0 {
      var bs := ToBigEndian(n, width);
      assert bs[..|bs| - 1] == ToBigEndian(n / 256, width - 1);
      BigEndianRoundTrip(n / 256, width - 1);
    }
  }

  /** bytes_to_int recovers every value that fits its byte count. */
  lemma BytesToIntRoundTrip(n: nat, width: nat)
    requires 1 <= width && n < Pow256(width)
    ensures BytesToInt(ToBigEndian(n, width)) == Some(n)
  {
    BigEndianRoundTrip(n, width);
  }
}
