/** The frame format: what sendLoop writes for a frame and what recvLoop reads back. */
module Wire {
  import opened Arith
  import opened Wrappers

  type byte = x: int | 0 <= x < 256

  const CMD_SYN: byte := 0
  const CMD_FIN: byte := 1
  const CMD_PSH: byte := 2
  const CMD_NOP: byte := 3
  const CMD_UPD: byte := 4

  const SZ_CMD_UPD := 8
  const HEADER_SIZE := 8

  datatype Frame = Frame(ver: byte, cmd: byte, sid: uint32, data: seq<byte>)

  // ---------- Little-endian numbers ----------

  function PutU16(x: int): (r: seq<byte>)
    ensures |r| == 2
  {
    [x % 256, x / 256 % 256]
  }

  function PutU32(x: uint32): (r: seq<byte>)
    ensures |r| == 4
  {
    [x % 256, x / 256 % 256, x / 0x1_0000 % 256, x / 0x100_0000 % 256]
  }

  function GetU16(s: seq<byte>): (r: int)
    requires |s| >= 2
    ensures 0 <= r < 0x1_0000
  {
    var a: int, b: int := s[0], s[1];
    a + 256 * b
  }

  function GetU32(s: seq<byte>): uint32
    requires |s| >= 4
  {
    var a: int, b: int, c: int, d: int := s[0], s[1], s[2], s[3];
    a + 256 * b + 0x1_0000 * c + 0x100_0000 * d
  }

  /** Dividing by 256 once more. */
  lemma NextDigit(x: nat, q: nat, r: nat, unit: nat)
    requires unit == 0x100 || unit == 0x1_0000
    requires x == unit * q + r && r < unit
    ensures x / unit == q && x / (256 * unit) == q / 256
  {
    var q', r' := q / 256, q % 256;
    assert q == 256 * q' + r';
    if unit == 0x100 {
      assert x == 0x1_0000 * q' + (0x100 * r' + r);
    } else {
      assert x == 0x100_0000 * q' + (0x1_0000 * r' + r);
    }
  }

  lemma ShortRoundTrip(x: nat)
    ensures x % 256 + 256 * (x / 256 % 256) == x % 0x1_0000
  {
    var q, r := x / 256, x % 256;
    NextDigit(x, q, r, 0x100);
  }

  lemma LongRoundTrip(y: uint32)
    ensures y % 256 + 256 * (y / 256 % 256) + 0x1_0000 * (y / 0x1_0000 % 256) + 0x100_0000 * (y / 0x100_0000 % 256) == y
  {
    var x: nat := y;
    NextDigit(x, x / 0x1_0000, x % 0x1_0000, 0x1_0000);
    ShortRoundTrip(x);
    var q := x / 0x1_0000;
    assert q / 256 < 256 && x / 0x100_0000 == q / 256;
  }

  /** uint16(len) keeps the low 16 bits; four bytes keep a uint32 whole. */
  lemma LittleEndianRoundTrip(x: nat, y: uint32)
    ensures GetU16(PutU16(x)) == x % 0x1_0000
    ensures GetU32(PutU32(y)) == y
  {
    ShortRoundTrip(x);
    LongRoundTrip(y);
  }

  /** The payload of an update: the bytes consumed, then the size of the window. */
  function UpdateData(consumed: uint32, window: uint32): (r: seq<byte>)
    ensures |r| == SZ_CMD_UPD
  {
    PutU32(consumed) + PutU32(window)
  }

  lemma UpdateDataBack(consumed: uint32, window: uint32)
    ensures var data := UpdateData(consumed, window);
      |data| == 8 && GetU32(data[..4]) == GetU32(data) == consumed && GetU32(data[4..]) == window
  {
    LittleEndianRoundTrip(0, consumed);
    LittleEndianRoundTrip(0, window);
    var data := UpdateData(consumed, window);
    assert data[..4] == PutU32(consumed) && data[4..] == PutU32(window);
  }

  // ---------- Encoding and decoding ----------

  function Header(f: Frame): (r: seq<byte>)
    ensures |r| == HEADER_SIZE
  {
    [f.ver, f.cmd] + PutU16(|f.data|) + PutU32(f.sid)
  }

  function Encode(f: Frame): (r: seq<byte>)
    ensures |r| == HEADER_SIZE + |f.data|
  {
    Header(f) + f.data
  }

  function EncodeAll(fs: seq<Frame>): seq<byte> {
    if fs == [] then [] else Encode(fs[0]) + EncodeAll(fs[1..])
  }

  /** One turn of recvLoop on the bytes s still to come: a frame (with the payload that was read) and the bytes
      left over, a read that the end of the connection cuts short, or a protocol error. */
  datatype Turn = Got(frame: Frame, rest: seq<byte>) | Short | Bad

  function ReceiveOne(ver: byte, s: seq<byte>): (turn: Turn)
    ensures turn.Got? ==> |turn.rest| < |s|
  {
    if |s| < HEADER_SIZE then Short
    else if s[0] != ver then Bad
    else
      var cmd, length, sid := s[1], GetU16(s[2..]), GetU32(s[4..]);
      if cmd == CMD_NOP || cmd == CMD_SYN || cmd == CMD_FIN then
        Got(Frame(ver, cmd, sid, []), s[HEADER_SIZE..])
      else if cmd == CMD_PSH then
        if |s| < HEADER_SIZE + length then Short
        else Got(Frame(ver, cmd, sid, s[HEADER_SIZE..HEADER_SIZE + length]), s[HEADER_SIZE + length..])
      else if cmd == CMD_UPD then
        if |s| < HEADER_SIZE + SZ_CMD_UPD then Short
        else Got(Frame(ver, cmd, sid, s[HEADER_SIZE..HEADER_SIZE + SZ_CMD_UPD]), s[HEADER_SIZE + SZ_CMD_UPD..])
      else Bad
  }

  /** All of recvLoop: the frames it handles, the bytes it could not use, and whether it stopped on a protocol error. */
  datatype Received = Received(frames: seq<Frame>, rest: seq<byte>, bad: bool)

  function ReceiveAll(ver: byte, s: seq<byte>): Received
    decreases |s|
  {
    match ReceiveOne(ver, s)
    case Short => Received([], s, false)
    case Bad => Received([], s, true)
    case Got(f, rest) =>
      var more := ReceiveAll(ver, rest);
      more.(frames := [f] + more.frames)
  }

  /** The frames that survive the trip: right version, known command, and a payload of the size that the
      command makes the receiver read. */
  predicate WireSafe(ver: byte, f: Frame) {
    && f.ver == ver
    && (f.cmd == CMD_SYN || f.cmd == CMD_FIN || f.cmd == CMD_NOP ==> f.data == [])
    && (f.cmd == CMD_PSH ==> |f.data| < 0x1_0000)
    && (f.cmd == CMD_UPD ==> |f.data| == SZ_CMD_UPD)
    && f.cmd <= CMD_UPD
  }

  lemma HeaderFields(f: Frame, rest: seq<byte>)
    ensures var s := Encode(f) + rest;
      && s[0] == f.ver && s[1] == f.cmd
      && GetU16(s[2..]) == |f.data| % 0x1_0000 && GetU32(s[4..]) == f.sid
      && s[HEADER_SIZE..] == f.data + rest
  {
    LittleEndianRoundTrip(|f.data|, f.sid);
    var s := Encode(f) + rest;
    assert s[2..][..2] == PutU16(|f.data|);
    assert s[4..][..4] == PutU32(f.sid);
  }

  /** A frame comes back as it was, with what follows it intact, exactly when it is WireSafe. */
  lemma OneFrameRoundTrip(ver: byte, f: Frame, rest: seq<byte>)
    ensures ReceiveOne(ver, Encode(f) + rest) == Got(f, rest) <==> WireSafe(ver, f)
  {
    HeaderFields(f, rest);
    var s, n := Encode(f) + rest, |f.data|;
    assert s[HEADER_SIZE..] == f.data + rest;
    if WireSafe(ver, f) {
      assert s[HEADER_SIZE..HEADER_SIZE + n] == f.data;
      assert s[HEADER_SIZE + n..] == rest;
    }
  }

  /** The format: version, command, length and stream id, the last two with their low byte first, and the payload. */
  lemma FrameLayout(f: Frame)
    ensures var s := Encode(f);
      && |s| == 8 + |f.data| && s[0] == f.ver && s[1] == f.cmd && s[8..] == f.data
      && (var low: int, high: int := s[2], s[3]; low + 256 * high == |f.data| % 65536)
      && (var a: int, b: int, c: int, d: int := s[4], s[5], s[6], s[7];
          a + 256 * b + 65536 * c + 16777216 * d == f.sid)
    ensures [CMD_SYN, CMD_FIN, CMD_PSH, CMD_NOP, CMD_UPD] == [0, 1, 2, 3, 4]
  {
    ShortRoundTrip(|f.data|);
    LongRoundTrip(f.sid);
  }

  /** What the receiver makes of any frame that is sent: a protocol error for exactly those of another version or with
      an unknown command, and otherwise the command decides how much of what follows is taken for its payload. */
  lemma AnyFrameReceived(ver: byte, f: Frame, rest: seq<byte>)
    ensures var t, after := ReceiveOne(ver, Encode(f) + rest), f.data + rest; var n := |f.data| % 65536;
      && (t.Bad? <==> f.ver != ver || f.cmd > 4)
      && (f.ver == ver && (f.cmd == CMD_SYN || f.cmd == CMD_FIN || f.cmd == CMD_NOP) ==>
            t == Got(f.(data := []), after))
      && (f.ver == ver && f.cmd == CMD_PSH ==> t == Got(f.(data := after[..n]), after[n..]))
      && (f.ver == ver && f.cmd == CMD_UPD ==>
            t == if |after| < 8 then Short else Got(f.(data := after[..8]), after[8..]))
  {
    HeaderFields(f, rest);
    hide Encode, GetU16, GetU32;
    var s, n := Encode(f) + rest, |f.data| % 65536;
    assert s[HEADER_SIZE..][..n] == s[HEADER_SIZE..HEADER_SIZE + n] && s[HEADER_SIZE..][n..] == s[HEADER_SIZE + n..];
    if |s| >= 16 {
      assert s[HEADER_SIZE..][..8] == s[HEADER_SIZE..16] && s[HEADER_SIZE..][8..] == s[16..];
    }
    hide Encode;
  }

  /** A frame of which only a part has arrived is waited for. */
  lemma PartIsShort(ver: byte, f: Frame, n: nat)
    requires WireSafe(ver, f) && n < |Encode(f)|
    ensures ReceiveOne(ver, Encode(f)[..n]).Short?
  {
    var s := Encode(f);
    if !ReceiveOne(ver, s[..n]).Short? {
      assert s[..n] + s[n..] == s == s + [];
      MoreBytesOne(ver, s[..n], s[n..]);
      OneFrameRoundTrip(ver, f, []);
    }
    hide ReceiveOne, Encode;
  }

  lemma ReceiveAllGot(ver: byte, s: seq<byte>, f: Frame, rest: seq<byte>)
    requires ReceiveOne(ver, s) == Got(f, rest)
    ensures ReceiveAll(ver, s) == ReceiveAll(ver, rest).(frames := [f] + ReceiveAll(ver, rest).frames)
  {}

  /** Any sequence of such frames, written one after the other, is read back as the same sequence. */
  lemma {:induction false} FramesRoundTrip(ver: byte, fs: seq<Frame>, rest: seq<byte>)
    requires forall f <- fs :: WireSafe(ver, f)
    ensures ReceiveAll(ver, EncodeAll(fs) + rest)
         == ReceiveAll(ver, rest).(frames := fs + ReceiveAll(ver, rest).frames)
  {
    hide ReceiveOne, Encode, WireSafe;
    if fs == [] {
      assert EncodeAll(fs) + rest == rest;
    } else {
      var tail := EncodeAll(fs[1..]) + rest;
      assert EncodeAll(fs) + rest == Encode(fs[0]) + tail;
      OneFrameRoundTrip(ver, fs[0], tail);
      ReceiveAllGot(ver, Encode(fs[0]) + tail, fs[0], tail);
      FramesRoundTrip(ver, fs[1..], rest);
      assert [fs[0]] + (fs[1..] + ReceiveAll(ver, rest).frames) == fs + ReceiveAll(ver, rest).frames;
    }
  }

  /** After any such frames, one of another version or with an unknown command stops the receiver: it has handled
      exactly the frames before, and reads no further. */
  lemma ErrorStops(ver: byte, fs: seq<Frame>, g: Frame, rest: seq<byte>)
    requires (forall f <- fs :: WireSafe(ver, f)) && (g.ver != ver || g.cmd > 4)
    ensures ReceiveAll(ver, EncodeAll(fs) + (Encode(g) + rest)) == Received(fs, Encode(g) + rest, true)
  {
    FramesRoundTrip(ver, fs, Encode(g) + rest);
    AnyFrameReceived(ver, g, rest);
    assert fs + [] == fs;
    hide WireSafe, ReceiveOne, Encode, EncodeAll;
  }

  /** After any such frames, a part of one more is left to be completed. */
  lemma PartIsLeft(ver: byte, fs: seq<Frame>, g: Frame, n: nat)
    requires (forall f <- fs :: WireSafe(ver, f)) && WireSafe(ver, g) && n < |Encode(g)|
    ensures ReceiveAll(ver, EncodeAll(fs) + Encode(g)[..n]) == Received(fs, Encode(g)[..n], false)
  {
    FramesRoundTrip(ver, fs, Encode(g)[..n]);
    PartIsShort(ver, g, n);
    assert fs + [] == fs;
    hide WireSafe, ReceiveOne, Encode, EncodeAll;
  }

  /** More bytes never change a frame, or a protocol error, that the bytes so far have settled. */
  lemma MoreBytesOne(ver: byte, s: seq<byte>, more: seq<byte>)
    ensures ReceiveOne(ver, s).Got? ==>
      ReceiveOne(ver, s + more) == Got(ReceiveOne(ver, s).frame, ReceiveOne(ver, s).rest + more)
    ensures ReceiveOne(ver, s).Bad? ==> ReceiveOne(ver, s + more).Bad?
  {
    if |s| >= HEADER_SIZE {
      assert (s + more)[2..][..2] == s[2..][..2];
      assert (s + more)[4..][..4] == s[4..][..4];
      match ReceiveOne(ver, s)
      case Got(f, rest) =>
        var n := |s| - |rest|;
        assert (s + more)[HEADER_SIZE..n] == s[HEADER_SIZE..n];
        assert (s + more)[n..] == rest + more;
      case _ =>
    }
  }

  /** Cutting the connection's bytes anywhere changes nothing: the frames of the first part are handled as they
      are, and the bytes left over are continued by the second part. */
  lemma {:induction false} SplitAnywhere(ver: byte, s: seq<byte>, more: seq<byte>)
    ensures var a := ReceiveAll(ver, s);
      if a.bad then ReceiveAll(ver, s + more).frames == a.frames && ReceiveAll(ver, s + more).bad
      else
        var b := ReceiveAll(ver, a.rest + more);
        ReceiveAll(ver, s + more) == b.(frames := a.frames + b.frames)
    decreases |s|
  {
    MoreBytesOne(ver, s, more);
    hide ReceiveOne;
    var one := ReceiveOne(ver, s);
    if one.Got? {
      ReceiveAllGot(ver, s, one.frame, one.rest);
      ReceiveAllGot(ver, s + more, one.frame, one.rest + more);
      SplitAnywhere(ver, one.rest, more);
      var a := ReceiveAll(ver, one.rest);
      if !a.bad {
        var b := ReceiveAll(ver, a.rest + more);
        assert [one.frame] + (a.frames + b.frames) == [one.frame] + a.frames + b.frames;
      }
    }
  }

  // ---------- The connection and the two loops ----------

  function Concat(chunks: seq<seq<byte>>): seq<byte> {
    if chunks == [] then [] else chunks[0] + Concat(chunks[1..])
  }

  /** The receiving end of a connection: an ordered byte stream that arrives in pieces of any size. */
  class Conn {
    var chunks: seq<seq<byte>>

    constructor (chunks: seq<seq<byte>>)
      ensures this.chunks == chunks
    {
      this.chunks := chunks;
    }

    ghost function Bytes(): seq<byte>
      reads this
    {
      Concat(chunks)
    }

    /** At most max bytes, and no more than the next piece; None is the end of the connection. */
    method Read(max: nat) returns (r: Option<seq<byte>>)
      modifies this
      ensures r.None? <==> old(chunks) == []
      ensures r.None? ==> chunks == []
      ensures r.Some? ==> |r.value| <= max && old(Bytes()) == r.value + Bytes()
      ensures r.Some? ==> |chunks| < |old(chunks)| || (|chunks| == |old(chunks)| && |r.value| == max)
    {
      if chunks == [] {
        return None;
      }
      if |chunks[0]| <= max {
        r, chunks := Some(chunks[0]), chunks[1..];
      } else {
        r, chunks := Some(chunks[0][..max]), [chunks[0][max..]] + chunks[1..];
        assert chunks[1..] == old(chunks)[1..];
      }
    }

    /** io.ReadFull: exactly n bytes, or None when the connection ends first. */
    method ReadFull(n: nat) returns (r: Option<seq<byte>>)
      modifies this
      ensures r.Some? <==> n <= |old(Bytes())|
      ensures r.Some? ==> r.value == old(Bytes())[..n] && Bytes() == old(Bytes())[n..]
      ensures r.None? ==> Bytes() == []
    {
      var got: seq<byte> := [];
      while |got| < n
        invariant |got| <= n && old(Bytes()) == got + Bytes()
        decreases |chunks|, n - |got|
      {
        var piece := Read(n - |got|);
        if piece.None? {
          return None;
        }
        ghost var before := got;
        got := got + piece.value;
        assert before + (piece.value + Bytes()) == got + Bytes();
      }
      r := Some(got);
    }

    /** The reading part of one turn of recvLoop: header first, then what the command says follows it. */
    method ReceiveFrame(ver: byte) returns (turn: Option<Frame>, bad: bool)
      modifies this
      ensures match ReceiveOne(ver, old(Bytes()))
              case Got(f, rest) => turn == Some(f) && !bad && Bytes() == rest
              case Short => turn.None? && !bad
              case Bad => turn.None? && bad
    {
      ghost var s := Bytes();
      var hdr := ReadFull(HEADER_SIZE);
      if hdr.None? {
        return None, false;
      }
      var h := hdr.value;
      assert h[2..][..2] == s[2..][..2] && h[4..] == s[4..][..4];
      if h[0] != ver {
        return None, true;
      }
      var sid := GetU32(h[4..]);
      if h[1] == CMD_NOP || h[1] == CMD_SYN || h[1] == CMD_FIN {
        return Some(Frame(ver, h[1], sid, [])), false;
      }
      if h[1] != CMD_PSH && h[1] != CMD_UPD {
        return None, true;
      }
      var n := if h[1] == CMD_PSH then GetU16(h[2..]) else SZ_CMD_UPD;
      var body := Some([]);
      if n > 0 {
        body := ReadFull(n);
      }
      if body.None? {
        return None, false;
      }
      assert s[HEADER_SIZE..][..n] == s[HEADER_SIZE..HEADER_SIZE + n];
      assert s[HEADER_SIZE..][n..] == s[HEADER_SIZE + n..];
      return Some(Frame(ver, h[1], sid, body.value)), false;
    }

    /** recvLoop until the connection ends or breaks the protocol: however the bytes are cut into pieces, the
        frames handled depend only on the bytes. */
    method ReceiveLoop(ver: byte) returns (frames: seq<Frame>, bad: bool)
      modifies this
      ensures frames == ReceiveAll(ver, old(Bytes())).frames
      ensures bad == ReceiveAll(ver, old(Bytes())).bad
    {
      hide ReceiveOne;
      frames := [];
      ghost var all := ReceiveAll(ver, Bytes());
      var more := true;
      bad := false;
      while more
        invariant more ==> !bad && all.frames == frames + ReceiveAll(ver, Bytes()).frames
        invariant more ==> all.bad == ReceiveAll(ver, Bytes()).bad
        invariant !more ==> frames == all.frames && bad == all.bad
        decreases more, |Bytes()|
      {
        ghost var bytes := Bytes();
        var turn;
        turn, bad := ReceiveFrame(ver);
        if turn.None? {
          more := false;
        } else {
          ReceiveAllGot(ver, bytes, turn.value, Bytes());
          frames := frames + [turn.value];
        }
      }
    }
  }

  /** sendLoop's write buffer; out is everything written to the connection. */
  class Sender {
    const buf: array<byte>
    var out: seq<byte>

    constructor ()
      ensures out == [] && buf.Length == 0x1_0000 + HEADER_SIZE && fresh(buf)
    {
      buf := new byte[0x1_0000 + HEADER_SIZE](_ => 0);
      out := [];
    }

    /** One frame of sendLoop. The header and the payload are assembled in the buffer and written at once, or,
        when the connection takes vectors, written one after the other. The buffer has room for 64 KB of payload. */
    method SendFrame(f: Frame, vectored: bool) returns (n: nat)
      requires buf.Length == 0x1_0000 + HEADER_SIZE
      requires !vectored ==> |f.data| <= 0x1_0000
      modifies this`out, buf
      ensures out == old(out) + Encode(f)
      ensures n == |f.data|
    {
      buf[0], buf[1] := f.ver, f.cmd;
      buf[2], buf[3] := PutU16(|f.data|)[0], PutU16(|f.data|)[1];
      var s := PutU32(f.sid);
      buf[4], buf[5], buf[6], buf[7] := s[0], s[1], s[2], s[3];
      assert buf[..HEADER_SIZE] == Header(f);
      if vectored {
        out := out + buf[..HEADER_SIZE] + f.data;
        n := HEADER_SIZE + |f.data|;
      } else {
        forall i | 0 <= i < |f.data| {
          buf[HEADER_SIZE + i] := f.data[i];
        }
        assert buf[..HEADER_SIZE + |f.data|] == Encode(f);
        out := out + buf[..HEADER_SIZE + |f.data|];
        n := HEADER_SIZE + |f.data|;
      }
      assert old(out) + Header(f) + f.data == old(out) + Encode(f);
      n := n - HEADER_SIZE;
    }
  }
}
