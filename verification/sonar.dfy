/**
  Sonar/Sonar.py: the serial link to a Tritech scanning sonar. A command is
  written as the fields of a `command` record, one field at a time; a reply
  is framed by the header byte 0x40 and the line feed 0x0A, and each of its
  bytes is kept as two hex digits. The message identifiers are those of
  Tritech's sonar protocol.
*/
module Sonar {
  import opened Common

  const HEADER: byte := 0x40
  const LF: byte := 0x0A
  /** The length 8 written as four ASCII digits "0008". */
  const HEX_LENGTH: seq<byte> := [0x30, 0x30, 0x30, 0x38]
  /** The length 8 as a little-endian 16-bit word. */
  const BIN_LENGTH: seq<byte> := [0x08, 0x00]
  const TX_NDE: byte := 0xFF
  const RX_NDE: byte := 0x02
  const NO_BYTE: byte := 0x03
  const SEQ: byte := 0x80
  const NDE: byte := 0x02

  const MT_ALIVE_LENGTH := 22

  const MT_SEND_VERSION_ID: byte := 0x17
  const MT_VERSION_DATA_ID: byte := 0x01
  const MT_VERSION_DATA_LENGTH := 25

  const MT_SEND_BB_USER_ID: byte := 0x18
  const MT_BB_USER_DATA_ID: byte := 0x06
  const MT_BB_USER_DATA_LENGTH := 264

  const MT_SEND_DATA: byte := 0x19

  const REPLY_COMMAND_ID_IDX := 10

  // ---------------------------------------------------------------- commands

  /** The fields of the `command` record, in declaration order. */
  function CommandFields(cmd: byte): (fields: seq<seq<byte>>)
    ensures |fields| == 10
  {
    [[HEADER], HEX_LENGTH, BIN_LENGTH, [TX_NDE], [RX_NDE], [NO_BYTE], [cmd], [SEQ], [NDE], [LF]]
  }

  /** The bytes of the fields written one after the other. */
  function Concat(fields: seq<seq<byte>>): seq<byte>
  {
    if |fields| == 0 then [] else fields[0] + Concat(fields[1..])
  }

  lemma {:induction false} ConcatSnoc(fields: seq<seq<byte>>, last: seq<byte>)
    ensures Concat(fields + [last]) == Concat(fields) + last
  {
    if |fields| > 0 {
      ConcatSnoc(fields[1..], last);
      assert (fields + [last])[1..] == fields[1..] + [last];
    }
  }

  /**
    A simple command on the wire: 14 bytes with the header first, the line
    feed last and the command byte at the offset where a reply carries its
    command identifier; no other byte is a header or a line feed.
  */
  function SimpleCommand(cmd: byte): (c: seq<byte>)
    ensures |c| == 14 && c[0] == HEADER && c[13] == LF && c[REPLY_COMMAND_ID_IDX] == cmd
    ensures forall i | 0 <= i < 13 && i != REPLY_COMMAND_ID_IDX :: c[i] != LF
    ensures forall i | 1 <= i < 14 && i != REPLY_COMMAND_ID_IDX :: c[i] != HEADER
  {
    [0x40, 0x30, 0x30, 0x30, 0x38, 0x08, 0x00, 0xFF, 0x02, 0x03, cmd, 0x80, 0x02, 0x0A]
  }

  /** The fields of the `command` record, written in order, are exactly the 14-byte layout. */
  lemma CommandFieldsLayout(cmd: byte)
    ensures Concat(CommandFields(cmd)) == SimpleCommand(cmd)
  {
    var f: seq<seq<byte>> := CommandFields(cmd);
    assert Concat(f[9..]) == [LF] + Concat(f[10..]) by { assert f[9..][1..] == f[10..]; }
    assert Concat(f[8..]) == [NDE] + Concat(f[9..]) by { assert f[8..][1..] == f[9..]; }
    assert Concat(f[7..]) == [SEQ] + Concat(f[8..]) by { assert f[7..][1..] == f[8..]; }
    assert Concat(f[6..]) == [cmd] + Concat(f[7..]) by { assert f[6..][1..] == f[7..]; }
    assert Concat(f[5..]) == [NO_BYTE] + Concat(f[6..]) by { assert f[5..][1..] == f[6..]; }
    assert Concat(f[4..]) == [RX_NDE] + Concat(f[5..]) by { assert f[4..][1..] == f[5..]; }
    assert Concat(f[3..]) == [TX_NDE] + Concat(f[4..]) by { assert f[3..][1..] == f[4..]; }
    assert Concat(f[2..]) == BIN_LENGTH + Concat(f[3..]) by { assert f[2..][1..] == f[3..]; }
    assert Concat(f[1..]) == HEX_LENGTH + Concat(f[2..]) by { assert f[1..][1..] == f[2..]; }
    assert Concat(f) == [HEADER] + Concat(f[1..]);
  }

  /** `send_command` fails for mtSendData: the name of its record type is rebound to a function. */
  datatype SendError = TypeError

  /**
    `send_command`: write the record field by field. For mtSendData the
    record cannot be built and nothing is written.
  */
  method SendCommand(cmd: byte) returns (r: Result<seq<byte>, SendError>)
    ensures r.Err? <==> cmd == MT_SEND_DATA
    ensures r.Ok? ==> r.value == SimpleCommand(cmd)
  {
    if cmd == MT_SEND_DATA {
      return Err(TypeError);
    }
    var c := CommandFields(cmd);
    var written: seq<byte> := [];
    for i := 0 to |c|
      invariant written == Concat(c[..i])
    {
      ConcatSnoc(c[..i], c[i]);
      assert c[..i + 1] == c[..i] + [c[i]];
      written := written + c[i];
    }
    assert c[..|c|] == c;
    CommandFieldsLayout(cmd);
    r := Ok(written);
  }

  // ----------------------------------------------------------------- framing

  /** The first position at or after `from` that holds `b`. */
  function IndexOf(s: seq<byte>, b: byte, from: nat): (r: Option<nat>)
    requires from <= |s|
    decreases |s| - from
    ensures r.None? <==> forall i | from <= i < |s| :: s[i] != b
    ensures r.Some? ==> from <= r.value < |s| && s[r.value] == b
                        && forall i | from <= i < r.value :: s[i] != b
  {
    if from == |s| then None
    else if s[from] == b then Some(from)
    else IndexOf(s, b, from + 1)
  }

  lemma IndexOfIs(s: seq<byte>, b: byte, from: nat, i: nat)
    requires from <= i < |s| && s[i] == b
    requires forall j | from <= j < i :: s[j] != b
    ensures IndexOf(s, b, from) == Some(i)
  {
  }

  /** A frame taken from the stream and the bytes left after it. */
  datatype Extracted = Extracted(frame: seq<byte>, rest: seq<byte>)

  /**
    The header/line-feed framing of `read_message` and `version_data`:
    skip to the first header, then keep every byte up to and including the
    first line feed after it. None when the stream runs out first (the
    serial read would block).
  */
  function ExtractFrame(s: seq<byte>): (r: Option<Extracted>)
    ensures r.Some? ==> ConsumesFrame(s, r.value.frame, r.value.rest)
  {
    match IndexOf(s, HEADER, 0)
    case None => None
    case Some(h) =>
      match IndexOf(s, LF, h + 1)
      case None => None
      case Some(k) =>
        FrameSlices(s, h, k);
        Some(Extracted(s[h..k + 1], s[k + 1..]))
  }

  /**
    `s` is some bytes without a header, then `frame`, then `rest`; the
    frame runs from a header to the first line feed after it.
  */
  ghost predicate ConsumesFrame(s: seq<byte>, frame: seq<byte>, rest: seq<byte>)
  {
    var skipped := |s| - |frame| - |rest|;
    && 0 <= skipped
    && s == s[..skipped] + frame + rest
    && HEADER !in s[..skipped]
    && |frame| >= 2
    && frame[0] == HEADER && frame[|frame| - 1] == LF
    && LF !in frame[..|frame| - 1]
  }

  /** Cutting the stream at the header `h` and the line feed `k` after it. */
  lemma FrameSlices(s: seq<byte>, h: nat, k: nat)
    requires h < k < |s| && s[h] == HEADER && s[k] == LF
    requires HEADER !in s[..h]
    requires forall i | h + 1 <= i < k :: s[i] != LF
    ensures ConsumesFrame(s, s[h..k + 1], s[k + 1..])
  {
    assert s == s[..h] + s[h..k + 1] + s[k + 1..];
    assert s[h..k + 1][..k - h] == s[h..k];
  }

  /** The framing blocks exactly when no line feed follows a header anywhere in the stream. */
  lemma ExtractFrameBlocks(s: seq<byte>)
    ensures ExtractFrame(s).None? <==> forall h, k | 0 <= h < k < |s| :: !(s[h] == HEADER && s[k] == LF)
  {
    match IndexOf(s, HEADER, 0)
    case None =>
    case Some(h) =>
      if IndexOf(s, LF, h + 1).None? {
        forall h', k | 0 <= h' < k < |s| && s[h'] == HEADER
          ensures s[k] != LF
        {
          assert h <= h';
        }
      }
  }

  lemma ExtractFrameNoHeader(s: seq<byte>)
    requires forall i | 0 <= i < |s| :: s[i] != HEADER
    ensures ExtractFrame(s) == None
  {
  }

  lemma ExtractFrameNoLineFeed(s: seq<byte>, h: nat)
    requires h < |s| && s[h] == HEADER && forall i | 0 <= i < h :: s[i] != HEADER
    requires forall i | h < i < |s| :: s[i] != LF
    ensures ExtractFrame(s) == None
  {
    IndexOfIs(s, HEADER, 0, h);
  }

  lemma ExtractFrameAt(s: seq<byte>, h: nat, k: nat)
    requires h < k < |s| && s[h] == HEADER && s[k] == LF
    requires forall i | 0 <= i < h :: s[i] != HEADER
    requires forall i | h < i < k :: s[i] != LF
    ensures ExtractFrame(s) == Some(Extracted(s[h..k + 1], s[k + 1..]))
  {
    IndexOfIs(s, HEADER, 0, h);
    IndexOfIs(s, LF, h + 1, k);
  }

  /**
    The byte-at-a-time reading loops: wait for the header, then collect
    bytes until the line feed.
  */
  method ReadFrame(stream: seq<byte>) returns (r: Option<Extracted>)
    ensures r == ExtractFrame(stream)
  {
    var pos := 0;
    while pos < |stream| && stream[pos] != HEADER
      invariant 0 <= pos <= |stream|
      invariant forall i | 0 <= i < pos :: stream[i] != HEADER
    {
      pos := pos + 1;
    }
    if pos == |stream| {
      ExtractFrameNoHeader(stream);
      return None;
    }
    var h := pos;
    var frame := [stream[pos]];
    pos := pos + 1;
    while pos < |stream| && stream[pos] != LF
      invariant h < pos <= |stream|
      invariant frame == stream[h..pos]
      invariant forall i | h < i < pos :: stream[i] != LF
    {
      frame := frame + [stream[pos]];
      pos := pos + 1;
    }
    if pos == |stream| {
      ExtractFrameNoLineFeed(stream, h);
      return None;
    }
    frame := frame + [stream[pos]];
    assert frame == stream[h..pos + 1];
    ExtractFrameAt(stream, h, pos);
    r := Some(Extracted(frame, stream[pos + 1..]));
  }

  /**
    A simple command behind junk that holds no header is read back whole,
    and the bytes after it are left in the stream; a command byte 0x40 is
    kept as data. (A command byte 0x0A would end the frame early.)
  */
  lemma ExtractSimpleCommand(junk: seq<byte>, cmd: byte, rest: seq<byte>)
    requires HEADER !in junk && cmd != LF
    ensures ExtractFrame(junk + SimpleCommand(cmd) + rest) == Some(Extracted(SimpleCommand(cmd), rest))
  {
    var c := SimpleCommand(cmd);
    var s := junk + c + rest;
    var h := |junk|;
    assert s[h..h + 14] == c;
    assert forall j | 0 <= j < h :: s[j] == junk[j];
    IndexOfIs(s, HEADER, 0, h);
    assert forall j | h + 1 <= j < h + 13 :: s[j] == c[j - h];
    IndexOfIs(s, LF, h + 1, h + 13);
    assert s[h + 14..] == rest;
  }

  // --------------------------------------------------------------------- hex

  /** A lower-case hex digit, as `binascii.hexlify` writes them. */
  predicate IsHexDigit(c: char)
  {
    '0' <= c <= '9' || 'a' <= c <= 'f'
  }

  /** The digit for a nibble: '0'..'9', then 'a'..'f'. */
  function HexDigit(n: nat): (c: char)
    requires n < 16
    ensures IsHexDigit(c)
  {
    if n < 10 then ('0' as int + n) as char else ('a' as int + n - 10) as char
  }

  /** `binascii.hexlify`: two lower-case hex digits per byte, high nibble first. */
  function Hexlify(bs: seq<byte>): (h: string)
    ensures |h| == 2 * |bs|
    ensures forall i | 0 <= i < |h| :: IsHexDigit(h[i])
  {
    if |bs| == 0 then []
    else [HexDigit(bs[0] / 16), HexDigit(bs[0] % 16)] + Hexlify(bs[1..])
  }

  /** The value of a lower-case hex digit. */
  function DigitValue(c: char): (v: nat)
    requires IsHexDigit(c)
    ensures v < 16 && HexDigit(v) == c
  {
    if '0' <= c <= '9' then (c as int - '0' as int) else (c as int - 'a' as int) + 10
  }

  /** `binascii.unhexlify` on lower-case digits: the inverse of Hexlify. */
  function Unhexlify(h: string): (bs: seq<byte>)
    requires |h| % 2 == 0
    requires forall i | 0 <= i < |h| :: IsHexDigit(h[i])
    ensures 2 * |bs| == |h|
  {
    if |h| == 0 then []
    else [DigitValue(h[0]) * 16 + DigitValue(h[1])] + Unhexlify(h[2..])
  }

  lemma {:induction false} UnhexlifyHexlify(bs: seq<byte>)
    ensures Unhexlify(Hexlify(bs)) == bs
  {
    if |bs| > 0 {
      var h := Hexlify(bs);
      var hi, lo := bs[0] / 16, bs[0] % 16;
      assert h[0] == HexDigit(hi) && h[1] == HexDigit(lo);
      assert h[2..] == Hexlify(bs[1..]);
      UnhexlifyHexlify(bs[1..]);
      DigitIndex(hi);
      DigitIndex(lo);
      assert bs == [hi * 16 + lo] + bs[1..];
    }
  }

  lemma DigitIndex(n: nat)
    requires n < 16
    ensures DigitValue(HexDigit(n)) == n
  {
  }

  /** `bytes_to_hex` of the byte just read: a string of two hex digits. */
  function ByteToHex(b: byte): (h: string)
    ensures |h| == 2 && IsHexDigit(h[0]) && IsHexDigit(h[1]) && Unhexlify(h) == [b]
  {
    UnhexlifyHexlify([b]);
    Hexlify([b])
  }

  /** The hex strings a frame becomes, one per byte. */
  function HexList(frame: seq<byte>): (l: seq<string>)
    ensures |l| == |frame|
    ensures forall i | 0 <= i < |l| :: l[i] == ByteToHex(frame[i])
  {
    seq(|frame|, i requires 0 <= i < |frame| => ByteToHex(frame[i]))
  }

  /**
    `sonar_read`: one byte is read, whatever `numberOfBytes` asks for, and
    its two hex digits are returned with the rest of the stream. An empty
    stream blocks.
  */
  function SonarRead(stream: seq<byte>, numberOfBytes: int): (r: Option<(string, seq<byte>)>)
    ensures r.None? <==> |stream| == 0
    ensures r.Some? ==> var hex := r.value.0;
                        && |hex| == 2 && IsHexDigit(hex[0]) && IsHexDigit(hex[1])
                        && Unhexlify(hex) == [stream[0]] && r.value.1 == stream[1..]
  {
    if |stream| == 0 then None else Some((ByteToHex(stream[0]), stream[1..]))
  }

  // ------------------------------------------------------------- the replies

  /** How `version_data` ends. */
  datatype VersionOutcome =
    | VersionBlocked                                // the stream ran out inside the framing
    | Dropped(rest: seq<byte>)                      // a frame of the wrong length, not reported
    | Reported(version: seq<string>, rest: seq<byte>)

  /**
    `version_data`: read one frame and report it, as hex strings, only when
    it has the length of an mtVersionData reply; a frame of any other
    length is dropped and no further frame is read.
  */
  method VersionData(stream: seq<byte>) returns (o: VersionOutcome)
    ensures o.VersionBlocked? <==> ExtractFrame(stream).None?
    ensures o.Reported? <==> ExtractFrame(stream).Some?
                             && |ExtractFrame(stream).value.frame| == MT_VERSION_DATA_LENGTH
    ensures o.Reported? ==> o.version == HexList(ExtractFrame(stream).value.frame)
                            && |o.version| == MT_VERSION_DATA_LENGTH
    ensures !o.VersionBlocked? ==> o.rest == ExtractFrame(stream).value.rest
  {
    var r := ReadFrame(stream);
    if r.None? {
      return VersionBlocked;
    }
    var version := HexList(r.value.frame);
    if |version| == MT_VERSION_DATA_LENGTH {
      o := Reported(version, r.value.rest);
    } else {
      o := Dropped(r.value.rest);
    }
  }

  /** `read_message` fails when its loop test indexes past the end of the message. */
  datatype ReadError = IndexError

  /**
    The test of the `read_message` loop, with Python's short-circuit `and`:
    `message[10]` is looked at only when the length differs, and the loop
    goes on only while both the length and the command identifier differ.
  */
  function LoopTest(message: seq<string>, length: int, commandId: string): (r: Result<bool, ReadError>)
    ensures r.Err? <==> |message| != length && |message| <= REPLY_COMMAND_ID_IDX
    ensures r == Ok(false) <==> |message| == length
                                || (|message| > REPLY_COMMAND_ID_IDX && message[REPLY_COMMAND_ID_IDX] == commandId)
  {
    if |message| == length then Ok(false)
    else if |message| <= REPLY_COMMAND_ID_IDX then Err(IndexError)
    else Ok(message[REPLY_COMMAND_ID_IDX] != commandId)
  }

  /**
    `read_message`: the message starts empty, so the first loop test
    either ends the loop at once (length 0) or fails on `message[10]`;
    the framing in the loop body is never reached.
  */
  function ReadMessage(length: int, commandId: string): (r: Result<seq<string>, ReadError>)
    ensures r.Ok? <==> length == 0
    ensures r.Ok? ==> r.value == []
  {
    match LoopTest([], length, commandId)
    case Err(e) => Err(e)
    case Ok(again) => if again then assert false; Err(IndexError) else Ok([])
  }

  /**
    Even past the first test the command identifier could never match: the
    message holds two-digit hex strings and the identifier is one raw byte.
  */
  lemma CommandIdNeverMatches(frame: seq<byte>, commandId: byte)
    requires |frame| > REPLY_COMMAND_ID_IDX
    ensures LoopTest(HexList(frame), |frame| + 1, [commandId as char]) == Ok(true)
  {
  }
}
