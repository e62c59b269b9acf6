/** Serial messages in HDLC-like frames (section 4.2 of RFC 1662): a flag, the
    escaped message and its checksum, a flag. The receiver finds the messages
    again however the byte stream is cut into reads. */
module Hdlc {
  import opened Common
  import opened Crc32

  const FLAG: byte := 0x7E
  const ESCAPE: byte := 0x7D
  const MAX_FRAME: nat := 256
  const BUFFER: nat := 1024

  // ---------------------------------------------------------------------
  // Sending
  // ---------------------------------------------------------------------

  function Flip(b: byte): byte { b ^ 0x20 }

  function EscapeByte(b: byte): bytes { if b == FLAG || b == ESCAPE then [ESCAPE, Flip(b)] else [b] }

  function Escape(body: bytes): bytes
    decreases body
  {
    if body == [] then [] else EscapeByte(body[0]) + Escape(body[1..])
  }

  function Body(msg: bytes): (r: bytes)
    ensures |r| == |msg| + 4
  {
    msg + LittleEndian(Not(Crc(0, msg)))
  }

  function Frame(msg: bytes): bytes { [FLAG] + Escape(Body(msg)) + [FLAG] }

  /** What `serial_send` puts on the line; longer messages are refused. */
  function Send(msg: bytes): Option<bytes> { if |msg| > MAX_FRAME then None else Some(Frame(msg)) }

  // ---------------------------------------------------------------------
  // Receiving
  // ---------------------------------------------------------------------

  /** The position of the first flag, or the end. */
  function FlagAt(rx: bytes): (k: nat)
    ensures k <= |rx| && FLAG !in rx[..k] && (k < |rx| ==> rx[k] == FLAG)
    decreases rx
  {
    if rx == [] || rx[0] == FLAG then 0
    else
      var k := FlagAt(rx[1..]);
      assert rx[..k + 1] == [rx[0]] + rx[1..][..k];
      1 + k
  }

  /** A full frame buffer takes no more. */
  function Store(frame: bytes, b: byte): (r: bytes)
    ensures |r| <= |frame| + 1
  {
    if |frame| < MAX_FRAME + 4 then frame + [b] else frame
  }

  function Unescape(frame: bytes, esc: bool, s: bytes): bytes
    decreases s
  {
    if s == [] then frame
    else if esc then Unescape(Store(frame, Flip(s[0])), false, s[1..])
    else if s[0] == ESCAPE then Unescape(frame, true, s[1..])
    else Unescape(Store(frame, s[0]), false, s[1..])
  }

  /** The message of a checked frame, cut to the caller's room. */
  function Checked(frame: bytes, cap: nat): Option<bytes> {
    if |frame| >= 5 && Crc(0, frame) == ALL_ONES then
      var n := |frame| - 4;
      Some(frame[..if n > cap then cap else n])
    else None
  }

  /** `hdlc_deframe`: the buffer afterwards, and a message if there was one. */
  function Deframe(rx: bytes, cap: nat): (bytes, Option<bytes>) {
    var rx1 := rx[FlagAt(rx)..];
    if |rx1| < 2 then (rx1, None)
    else
      var end := 1 + FlagAt(rx1[1..]);
      if end >= |rx1| then (rx1, None)
      else (rx1[end + 1..], Checked(Unescape([], false, rx1[1..end]), cap))
  }

  // ---------------------------------------------------------------------
  // One frame
  // ---------------------------------------------------------------------

  lemma FlipBack(b: byte)
    ensures Flip(Flip(b)) == b
    ensures b == FLAG || b == ESCAPE ==> Flip(b) != FLAG
  {
  }

  lemma EscapedByte(b: byte)
    ensures FLAG !in EscapeByte(b) && 1 <= |EscapeByte(b)| <= 2
  {
    hide Flip;
    FlipBack(b);
  }

  lemma {:induction false} NoFlagInside(body: bytes)
    ensures FLAG !in Escape(body) && |body| <= |Escape(body)| <= 2 * |body|
    decreases body
  {
    hide EscapeByte;
    if body != [] {
      EscapedByte(body[0]);
      NoFlagInside(body[1..]);
    }
  }

  lemma UnescapeByte(frame: bytes, b: byte, rest: bytes)
    requires |frame| < MAX_FRAME + 4
    ensures Unescape(frame, false, EscapeByte(b) + rest) == Unescape(frame + [b], false, rest)
  {
    hide Flip, Unescape;
    FlipBack(b);
    if b == FLAG || b == ESCAPE {
      assert EscapeByte(b) + rest == [ESCAPE] + ([Flip(b)] + rest);
      UnescapeNext(frame, false, ESCAPE, [Flip(b)] + rest);
      UnescapeNext(frame, true, Flip(b), rest);
    } else {
      UnescapeNext(frame, false, b, rest);
    }
  }

  lemma UnescapeNext(frame: bytes, esc: bool, b: byte, rest: bytes)
    ensures Unescape(frame, esc, [b] + rest) ==
      if esc then Unescape(Store(frame, Flip(b)), false, rest)
      else if b == ESCAPE then Unescape(frame, true, rest)
      else Unescape(Store(frame, b), false, rest)
  {
    hide Flip, Store;
    assert ([b] + rest)[1..] == rest;
  }

  /** Unescaping undoes escaping, as long as the frame buffer has room. */
  lemma {:induction false} UnescapeEscape(frame: bytes, body: bytes)
    requires |frame| + |body| <= MAX_FRAME + 4
    ensures Unescape(frame, false, Escape(body)) == frame + body
    decreases body
  {
    hide EscapeByte, Unescape;
    if body == [] {
      UnescapeNothing(frame);
      assert frame + [] == frame;
    } else {
      UnescapeByte(frame, body[0], Escape(body[1..]));
      UnescapeEscape(frame + [body[0]], body[1..]);
      assert frame + [body[0]] + body[1..] == frame + body;
    }
  }

  lemma UnescapeNothing(frame: bytes)
    ensures Unescape(frame, false, []) == frame
  {
  }

  lemma FlagIs(rx: bytes, k: nat)
    requires k <= |rx| && FLAG !in rx[..k] && (k < |rx| ==> rx[k] == FLAG)
    ensures FlagAt(rx) == k
  {
  }

  lemma FrameFits(msg: bytes)
    requires |msg| <= MAX_FRAME
    ensures |Frame(msg)| <= 522
  {
    hide Escape, Body;
    NoFlagInside(Body(msg));
    BodySize(msg);
  }

  lemma BodySize(msg: bytes)
    ensures |Body(msg)| == |msg| + 4
  {
  }

  /** A frame at the front of the buffer is taken off and its message returned. */
  lemma DeframeWhole(msg: bytes, tail: bytes, cap: nat)
    requires 1 <= |msg| <= MAX_FRAME && |msg| <= cap
    ensures Deframe(Frame(msg) + tail, cap) == (tail, Some(msg))
  {
    hide Escape, Body, Unescape, Crc;
    var mid := Escape(Body(msg));
    var rx := Frame(msg) + tail;
    NoFlagInside(Body(msg));
    BodySize(msg);
    FlagIs(rx, 0);
    assert rx[0..] == rx;
    var inner := mid + ([FLAG] + tail);
    assert rx[1..] == inner;
    assert inner[..|mid|] == mid;
    FlagIs(inner, |mid|);
    assert rx[1..1 + |mid|] == mid;
    assert rx[1 + |mid| + 1..] == tail;
    UnescapeEscape([], Body(msg));
    assert [] + Body(msg) == Body(msg);
    BodyChecks(msg);
  }

  lemma BodyChecks(msg: bytes)
    ensures Crc(0, Body(msg)) == ALL_ONES && Body(msg)[..|msg|] == msg
  {
    hide Crc, LittleEndian, Not;
    SealedResidue(0, msg);
  }

  /** Part of a frame is left for later. */
  lemma DeframePart(msg: bytes, k: nat, cap: nat)
    requires k < |Frame(msg)|
    ensures Deframe(Frame(msg)[..k], cap) == (Frame(msg)[..k], None)
  {
    hide Escape, Body, Unescape, Checked;
    var mid := Escape(Body(msg));
    var rx := Frame(msg)[..k];
    NoFlagInside(Body(msg));
    if k > 0 {
      FlagIs(rx, 0);
      assert rx[0..] == rx;
      var inner := rx[1..];
      assert inner == mid[..k - 1];
      forall i | 0 <= i < |inner|
        ensures inner[i] != FLAG
      {
        assert inner[i] == mid[i];
      }
      assert inner[..|inner|] == inner;
      FlagIs(inner, |inner|);
    } else {
      assert rx == [];
    }
  }

  // ---------------------------------------------------------------------
  // A stream of frames
  // ---------------------------------------------------------------------

  function Stream(msgs: seq<bytes>): bytes
    decreases msgs
  {
    if msgs == [] then [] else Frame(msgs[0]) + Stream(msgs[1..])
  }

  /** The receiver: bytes buffered, bytes still on the line, messages handed
      out, and whether it ever threw its buffer away. */
  datatype Receiver = Receiver(rx: bytes, line: bytes, out: seq<bytes>, resynced: bool)

  /** One turn of the loop in `serial_recv`: a message if one is complete, else
      a read of at most `n` bytes, or a restart when the buffer is full. */
  function Turn(r: Receiver, n: nat, cap: nat): Receiver {
    var (rx, msg) := Deframe(r.rx, cap);
    if msg.Some? then r.(rx := rx, out := r.out + [msg.value])
    else if |rx| < BUFFER then
      var room := BUFFER - |rx|;
      var want := if n < room then n else room;
      var k := if want < |r.line| then want else |r.line|;
      r.(rx := rx + r.line[..k], line := r.line[k..])
    else r.(rx := [], resynced := true)
  }

  function Turns(r: Receiver, sizes: seq<nat>, cap: nat): Receiver
    decreases sizes
  {
    if sizes == [] then r else Turn(Turns(r, sizes[..|sizes| - 1], cap), sizes[|sizes| - 1], cap)
  }

  predicate Sendable(msgs: seq<bytes>, cap: nat) {
    forall i :: 0 <= i < |msgs| ==> 1 <= |msgs[i]| <= MAX_FRAME && |msgs[i]| <= cap
  }

  /** The first messages are out; buffer and line hold the rest. */
  predicate Along(r: Receiver, msgs: seq<bytes>) {
    && !r.resynced && |r.rx| <= BUFFER
    && |r.out| <= |msgs| && r.out == msgs[..|r.out|]
    && r.rx + r.line == Stream(msgs[|r.out|..])
  }

  lemma StreamCons(msgs: seq<bytes>)
    requires msgs != []
    ensures Stream(msgs) == Frame(msgs[0]) + Stream(msgs[1..])
  {
  }

  /** Bytes at the front of a stream are part of its first frame or hold it. */
  lemma FrontOfStream(rx: bytes, line: bytes, frame: bytes, rest: bytes)
    requires rx + line == frame + rest
    ensures |rx| < |frame| ==> rx == frame[..|rx|]
    ensures |rx| >= |frame| ==> rx == frame + rx[|frame|..] && rx[|frame|..] + line == rest
  {
    if |rx| < |frame| {
      assert (rx + line)[..|rx|] == rx;
      assert (frame + rest)[..|rx|] == frame[..|rx|];
    } else {
      assert (frame + rest)[..|frame|] == frame;
      assert rx[..|frame|] == (rx + line)[..|frame|];
      assert (rx + line)[|frame|..] == rx[|frame|..] + line;
      assert (frame + rest)[|frame|..] == rest;
    }
  }

  lemma TurnKeeps(r: Receiver, msgs: seq<bytes>, n: nat, cap: nat)
    requires Along(r, msgs) && Sendable(msgs, cap)
    ensures Along(Turn(r, n, cap), msgs)
  {
    hide Frame, Deframe, Stream;
    var todo := msgs[|r.out|..];
    if todo == [] {
      StreamNothing();
      assert r.rx == [] && r.line == [];
      DeframeNothing(cap);
    } else {
      StreamCons(todo);
      var f := Frame(todo[0]);
      FrontOfStream(r.rx, r.line, f, Stream(todo[1..]));
      if |r.rx| >= |f| {
        DeframeWhole(todo[0], r.rx[|f|..], cap);
        assert msgs[|r.out| + 1..] == todo[1..];
        assert msgs[..|r.out| + 1] == r.out + [todo[0]];
      } else {
        DeframePart(todo[0], |r.rx|, cap);
        FrameFits(todo[0]);
        var z := Turn(r, n, cap);
        assert z.rx + z.line == r.rx + r.line;
      }
    }
  }

  lemma StreamNothing()
    ensures Stream([]) == []
  {
  }

  lemma DeframeNothing(cap: nat)
    ensures Deframe([], cap) == ([], None)
  {
  }

  lemma {:induction false} TurnsKeep(r: Receiver, msgs: seq<bytes>, sizes: seq<nat>, cap: nat)
    requires Along(r, msgs) && Sendable(msgs, cap)
    ensures Along(Turns(r, sizes, cap), msgs)
    decreases sizes
  {
    hide Along, Turn;
    if sizes != [] {
      TurnsKeep(r, msgs, sizes[..|sizes| - 1], cap);
      TurnKeeps(Turns(r, sizes[..|sizes| - 1], cap), msgs, sizes[|sizes| - 1], cap);
    }
  }

  /** For every list of messages and every way of cutting the line into reads:
      what comes out is the messages in order, all of them once line and buffer
      are empty, and the buffer is never thrown away. */
  lemma MessagesComeBack(msgs: seq<bytes>, sizes: seq<nat>, cap: nat)
    requires Sendable(msgs, cap)
    ensures var r := Turns(Receiver([], Stream(msgs), [], false), sizes, cap);
      && !r.resynced && r.out <= msgs
      && (r.line == [] && r.rx == [] ==> r.out == msgs)
  {
    hide Stream, Turns;
    var r0 := Receiver([], Stream(msgs), [], false);
    assert msgs[0..] == msgs && [] + Stream(msgs) == Stream(msgs);
    TurnsKeep(r0, msgs, sizes, cap);
    var r := Turns(r0, sizes, cap);
    if r.line == [] && r.rx == [] {
      StreamEmpty(msgs[|r.out|..]);
    }
  }

  lemma StreamEmpty(msgs: seq<bytes>)
    requires Stream(msgs) == []
    ensures msgs == []
  {
    hide Escape, Body;
  }

  /** A turn that finds a whole frame delivers it, and any other turn on a line
      with bytes left takes at least one when asked to: the receiver cannot
      stall. */
  lemma TurnProgresses(r: Receiver, msgs: seq<bytes>, n: nat, cap: nat)
    requires Along(r, msgs) && Sendable(msgs, cap) && n > 0 && (r.line != [] || r.rx != [])
    ensures var z := Turn(r, n, cap); |z.out| > |r.out| || |z.line| < |r.line|
  {
    hide Frame, Deframe, Stream;
    var todo := msgs[|r.out|..];
    if todo == [] {
      StreamNothing();
    } else {
      StreamCons(todo);
      var f := Frame(todo[0]);
      FrontOfStream(r.rx, r.line, f, Stream(todo[1..]));
      if |r.rx| >= |f| {
        DeframeWhole(todo[0], r.rx[|f|..], cap);
      } else {
        DeframePart(todo[0], |r.rx|, cap);
        FrameFits(todo[0]);
      }
    }
  }

  // ---------------------------------------------------------------------
  // The code
  // ---------------------------------------------------------------------

  /** The framing loop of `serial_send`. */
  method SendMessage(msg: bytes) returns (out: Option<bytes>)
    ensures out == Send(msg)
  {
    hide EscapeByte, Body;
    if |msg| > MAX_FRAME {
      return None;
    }
    var body := Body(msg);
    var line := [FLAG];
    var i := 0;
    assert Escape([]) == [] && body[..0] == [];
    while i < |body|
      invariant i <= |body| && line == [FLAG] + Escape(body[..i])
    {
      EscapeSnoc(body[..i], body[i]);
      assert body[..i] + [body[i]] == body[..i + 1];
      line := line + EscapeByte(body[i]);
      i := i + 1;
    }
    assert body[..|body|] == body;
    return Some(line + [FLAG]);
  }

  lemma {:induction false} EscapeSnoc(body: bytes, b: byte)
    ensures Escape(body + [b]) == Escape(body) + EscapeByte(b)
    decreases body
  {
    hide EscapeByte;
    if body == [] {
      assert body + [b] == [b] && [b][1..] == [];
      assert Escape([]) == [];
      assert EscapeByte(b) + [] == EscapeByte(b);
    } else {
      assert (body + [b])[1..] == body[1..] + [b];
      EscapeSnoc(body[1..], b);
    }
  }

  /** The receive buffer of a serial port. */
  class SerialPort {
    const rx: array<byte>
    var rxlen: nat

    ghost predicate Ok()
      reads this
    {
      rx.Length == BUFFER && rxlen <= BUFFER
    }

    ghost function Buffered(): bytes
      requires Ok()
      reads this, rx
    {
      rx[..rxlen]
    }

    constructor ()
      ensures Ok() && Buffered() == [] && fresh(rx)
    {
      rx := new byte[BUFFER];
      rxlen := 0;
    }

    /** Moves what follows the first n bytes to the front. */
    method Consume(n: nat)
      requires Ok() && n <= rxlen
      modifies this`rxlen, rx
      ensures Ok() && Buffered() == old(Buffered())[n..]
    {
      var i := 0;
      while i < rxlen - n
        invariant rxlen == old(rxlen) && i <= rxlen - n
        invariant forall k :: 0 <= k < i ==> rx[k] == old(rx[k + n])
        invariant forall k :: i <= k < BUFFER ==> rx[k] == old(rx[k])
      {
        rx[i] := rx[i + n];
        i := i + 1;
      }
      rxlen := rxlen - n;
    }

    method FindFlag(from: nat) returns (k: nat)
      requires Ok() && from <= rxlen
      ensures k == from + FlagAt(Buffered()[from..])
    {
      k := from;
      ghost var s := Buffered()[from..];
      while k < rxlen && rx[k] != FLAG
        invariant from <= k <= rxlen
        invariant forall i :: from <= i < k ==> rx[i] != FLAG
      {
        k := k + 1;
      }
      assert s[..k - from] == rx[from..k];
      FlagIs(s, k - from);
    }

    /** `hdlc_deframe`. */
    method DeframeNext(cap: nat) returns (msg: Option<bytes>)
      requires Ok()
      modifies this`rxlen, rx
      ensures Ok() && (Buffered(), msg) == Deframe(old(Buffered()), cap)
    {
      hide FlagAt, Unescape, Crc, Checked;
      var start := FindFlag(0);
      assert Buffered()[0..] == Buffered();
      Consume(start);
      ghost var rx1 := Buffered();
      if rxlen < 2 {
        return None;
      }
      var end := FindFlag(1);
      if end >= rxlen {
        return None;
      }
      var frame := UnescapeFrame(end);
      msg := Check(frame, cap);
      Consume(end + 1);
    }

    method Check(frame: bytes, cap: nat) returns (msg: Option<bytes>)
      ensures msg == Checked(frame, cap)
    {
      if |frame| >= 5 && Crc(0, frame) == ALL_ONES {
        var n := |frame| - 4;
        if n > cap {
          n := cap;
        }
        return Some(frame[..n]);
      }
      return None;
    }

    method UnescapeFrame(end: nat) returns (frame: bytes)
      requires Ok() && 1 <= end <= rxlen
      ensures frame == Unescape([], false, Buffered()[1..end])
    {
      hide Flip;
      frame := [];
      var esc := false;
      var i := 1;
      while i < end
        invariant 1 <= i <= end
        invariant Unescape(frame, esc, Buffered()[i..end]) == Unescape([], false, Buffered()[1..end])
      {
        var b := rx[i];
        assert Buffered()[i..end][0] == b && Buffered()[i..end][1..] == Buffered()[i + 1..end];
        if esc {
          frame := Store(frame, Flip(b));
          esc := false;
        } else if b == ESCAPE {
          esc := true;
        } else {
          frame := Store(frame, b);
        }
        i := i + 1;
      }
      assert Buffered()[end..end] == [];
    }
  }
}
