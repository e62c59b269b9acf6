/** SLIP frames (RFC 1055) as the updater writes and reads them. */
module Slip {
  import opened Common

  const END: byte := 0xC0
  const ESC: byte := 0xDB
  const ESC_END: byte := 0xDC
  const ESC_ESC: byte := 0xDD
  const OUT_SIZE: nat := 1024

  function EscapeByte(b: byte): bytes {
    if b == END then [ESC, ESC_END] else if b == ESC then [ESC, ESC_ESC] else [b]
  }

  function Escape(data: bytes): bytes
    decreases data
  {
    if data == [] then [] else EscapeByte(data[0]) + Escape(data[1..])
  }

  /** The output buffer while bytes are added: none is begun with less than two
      places left. */
  function Fill(out: bytes, data: bytes): Option<bytes>
    decreases data
  {
    if data == [] then Some(out)
    else if |out| > OUT_SIZE - 2 then None
    else Fill(out + EscapeByte(data[0]), data[1..])
  }

  function Write(data: bytes): Option<bytes> {
    match Fill([], data)
    case None => None
    case Some(out) => Some(out + [END])
  }

  lemma {:induction false} FillIs(out: bytes, data: bytes)
    ensures Fill(out, data).Some? ==> Fill(out, data).value == out + Escape(data)
    ensures |out + Escape(data)| <= OUT_SIZE - 1 ==> Fill(out, data).Some?
    ensures Fill(out, data).Some? && |out| <= OUT_SIZE ==> |Fill(out, data).value| <= OUT_SIZE
    decreases data
  {
    hide EscapeByte;
    if data == [] {
      assert out + [] == out;
    } else {
      SizeOfEscape(data[0]);
      assert (out + EscapeByte(data[0])) + Escape(data[1..]) == out + Escape(data);
      FillIs(out + EscapeByte(data[0]), data[1..]);
    }
  }

  lemma SizeOfEscape(b: byte)
    ensures 1 <= |EscapeByte(b)| <= 2
  {
  }

  predicate Special(b: byte) { b == END || b == ESC }

  lemma {:induction false} EscapeSnoc(data: bytes, b: byte)
    ensures Escape(data + [b]) == Escape(data) + EscapeByte(b)
    decreases data
  {
    hide EscapeByte;
    if data == [] {
      assert (data + [b])[1..] == [];
      assert [] + EscapeByte(b) == EscapeByte(b) + [];
    } else {
      assert (data + [b])[1..] == data[1..] + [b];
      EscapeSnoc(data[1..], b);
    }
  }

  /** The guard looks only at where the last byte begins. */
  lemma {:induction false} FillIff(out: bytes, data: bytes)
    requires data != []
    ensures Fill(out, data).Some? <==> |out| + |Escape(data[..|data| - 1])| <= OUT_SIZE - 2
    decreases data
  {
    hide EscapeByte;
    if |data| == 1 {
      assert data[1..] == [] && data[..0] == [];
    } else {
      SizeOfEscape(data[0]);
      var front := data[..|data| - 1];
      assert front[0] == data[0] && front[1..] == data[1..][..|data| - 2];
      FillIff(out + EscapeByte(data[0]), data[1..]);
    }
  }

  /** Writing gives the escaped data and the end mark. It is accepted exactly
      when that fits the buffer or, the guard coming one byte late, misses by one
      with a last byte that is escaped. */
  lemma WriteIs(data: bytes)
    ensures Write(data).Some? ==> Write(data).value == Escape(data) + [END]
    ensures Write(data).Some? <==>
      |Escape(data)| < OUT_SIZE || (|Escape(data)| == OUT_SIZE && data != [] && Special(data[|data| - 1]))
  {
    FillIs([], data);
    assert [] + Escape(data) == Escape(data);
    if data != [] {
      var m := |data| - 1;
      assert data == data[..m] + [data[m]];
      EscapeSnoc(data[..m], data[m]);
      FillIff([], data);
    }
  }

  /** What is accepted fits the buffer, if and only if the data is not one whose
      escaped form just fills it and ends in an escape. */
  lemma AcceptedFitsIff(data: bytes)
    ensures (Write(data).Some? ==> |Write(data).value| <= OUT_SIZE)
      <==> !(|Escape(data)| == OUT_SIZE && data != [] && Special(data[|data| - 1]))
  {
    hide Escape, Write, Special;
    WriteIs(data);
  }

  lemma {:induction false} EscapeMarks(n: nat)
    ensures |Escape(seq(n, _ => END))| == 2 * n
    decreases n
  {
    if n > 0 {
      assert seq(n, _ => END)[1..] == seq(n - 1, _ => END);
      EscapeMarks(n - 1);
    }
  }

  /** 512 end marks are accepted, and make 1025 bytes. */
  lemma OverflowExample()
    ensures var data := seq(512, _ => END); Write(data).Some? && |Write(data).value| == OUT_SIZE + 1
  {
    hide Escape, Write;
    EscapeMarks(512);
    WriteIs(seq(512, _ => END));
  }

  /** The reader over the bytes on the line: a frame of at most `max` bytes, and
      what is left on the line; `None` when the line runs dry. */
  function Read(out: bytes, esc: bool, line: bytes, max: nat): Option<(bytes, bytes)>
    decreases line
  {
    if line == [] then None
    else if esc then
      var b := if line[0] == ESC_END then END else if line[0] == ESC_ESC then ESC else line[0];
      Read(Keep(out, b, max), false, line[1..], max)
    else if line[0] == ESC then Read(out, true, line[1..], max)
    else if line[0] == END then
      if out == [] then Read(out, false, line[1..], max) else Some((out, line[1..]))
    else Read(Keep(out, line[0], max), false, line[1..], max)
  }

  function Keep(out: bytes, b: byte, max: nat): bytes { if |out| < max then out + [b] else out }

  lemma ReadByte(out: bytes, b: byte, rest: bytes, max: nat)
    requires |out| < max
    ensures Read(out, false, EscapeByte(b) + rest, max) == Read(out + [b], false, rest, max)
  {
    var line := EscapeByte(b) + rest;
    if b == END || b == ESC {
      assert line[1..] == [if b == END then ESC_END else ESC_ESC] + rest && line[1..][1..] == rest;
    } else {
      assert line[1..] == rest;
    }
  }

  lemma {:induction false} ReadEscaped(out: bytes, data: bytes, rest: bytes, max: nat)
    requires |out| + |data| <= max
    ensures Read(out, false, Escape(data) + rest, max) == Read(out + data, false, rest, max)
    decreases data
  {
    hide Read, EscapeByte;
    if data == [] {
      assert Escape(data) + rest == rest && out + data == out;
    } else {
      assert Escape(data) + rest == EscapeByte(data[0]) + (Escape(data[1..]) + rest);
      ReadByte(out, data[0], Escape(data[1..]) + rest, max);
      ReadEscaped(out + [data[0]], data[1..], rest, max);
      assert out + [data[0]] + data[1..] == out + data;
    }
  }

  lemma {:induction false} SkipMarks(marks: bytes, rest: bytes, max: nat)
    requires forall i :: 0 <= i < |marks| ==> marks[i] == END
    ensures Read([], false, marks + rest, max) == Read([], false, rest, max)
    decreases marks
  {
    if marks == [] {
      assert marks + rest == rest;
    } else {
      assert (marks + rest)[1..] == marks[1..] + rest;
      SkipMarks(marks[1..], rest, max);
    }
  }

  /** Reading undoes writing for every frame that is not empty and fits both
      buffers, whatever end marks come before it and bytes after it. */
  lemma RoundTrip(marks: bytes, data: bytes, rest: bytes, max: nat)
    requires data != [] && |data| <= max && |Escape(data)| + 1 <= OUT_SIZE
    requires forall i :: 0 <= i < |marks| ==> marks[i] == END
    ensures Write(data).Some?
    ensures Read([], false, marks + Write(data).value + rest, max) == Some((data, rest))
  {
    hide Escape, Fill, EscapeByte;
    WriteIs(data);
    var line := Escape(data) + [END] + rest;
    assert marks + Write(data).value + rest == marks + line;
    SkipMarks(marks, line, max);
    assert line == Escape(data) + ([END] + rest);
    ReadEscaped([], data, [END] + rest, max);
    assert [] + data == data;
    assert ([END] + rest)[1..] == rest;
  }

  // ---------------------------------------------------------------------
  // The code
  // ---------------------------------------------------------------------

  /** `slip_write`. */
  method WriteFrame(data: bytes) returns (r: Option<bytes>)
    ensures r == Write(data)
  {
    var out: bytes := [];
    var i := 0;
    assert data[0..] == data;
    while i < |data|
      invariant i <= |data| && Fill(out, data[i..]) == Fill([], data)
    {
      if |out| > OUT_SIZE - 2 {
        return None;
      }
      assert data[i..][1..] == data[i + 1..];
      out := out + EscapeByte(data[i]);
      i := i + 1;
    }
    return Some(out + [END]);
  }

  /** `slip_read`, over bytes that have all arrived in time. */
  method ReadFrame(line: bytes, max: nat) returns (r: Option<(bytes, bytes)>)
    ensures r == Read([], false, line, max)
  {
    var out: bytes := [];
    var esc := false;
    var i := 0;
    assert line[0..] == line;
    while i < |line|
      invariant i <= |line| && Read(out, esc, line[i..], max) == Read([], false, line, max)
    {
      var b := line[i];
      assert line[i..][0] == b && line[i..][1..] == line[i + 1..];
      i := i + 1;
      if esc {
        b := if b == ESC_END then END else if b == ESC_ESC then ESC else b;
        esc := false;
        out := Keep(out, b, max);
      } else if b == ESC {
        esc := true;
      } else if b == END {
        if out != [] {
          return Some((out, line[i..]));
        }
      } else {
        out := Keep(out, b, max);
      }
    }
    return None;
  }
}
