/** What the passes over a string agree on: the space counted is the space
    written, and literals of four digits become UTF-8. */
module JsonStrings {
  import opened Common
  import opened JsonText
  import opened JsonParse
  import opened JsonRoundTrip

  // ---------------------------------------------------------------------
  // Printing: counting and writing
  // ---------------------------------------------------------------------

  /** Extra bytes that the counting pass reckons for one byte. */
  function Extra(b: octet): nat { if Short(b) != 0 then 1 else if b < 32 then 5 else 0 }

  function ExtraAll(s: text): nat
    decreases s
  {
    if s == [] then 0 else Extra(s[0]) + ExtraAll(s[1..])
  }

  /** The counting pass finds exactly what the writing pass puts out, and none
      extra only if nothing is escaped. */
  lemma {:induction false} CountIsWritten(s: text)
    ensures |EscapeAll(s)| == |s| + ExtraAll(s)
    ensures ExtraAll(s) == 0 <==> EscapeAll(s) == s
    decreases s
  {
    if s != [] {
      CountIsWritten(s[1..]);
      assert s == [s[0]] + s[1..];
      if ExtraAll(s) == 0 {
        assert EscapeOne(s[0]) == [s[0]];
      }
    }
  }

  lemma {:induction false} EscapeSnoc(s: text, b: octet)
    ensures EscapeAll(s + [b]) == EscapeAll(s) + EscapeOne(b) && ExtraAll(s + [b]) == ExtraAll(s) + Extra(b)
    decreases s
  {
    hide EscapeOne, Extra;
    if s == [] {
      assert (s + [b])[1..] == [];
    } else {
      assert (s + [b])[1..] == s[1..] + [b];
      EscapeSnoc(s[1..], b);
    }
  }

  /** Text of a string ends nowhere early: it holds no zero byte. */
  lemma {:induction false} EscapedSolid(s: text)
    ensures forall i :: 0 <= i < |EscapeAll(s)| ==> EscapeAll(s)[i] >= 32
    decreases s
  {
    if s != [] {
      EscapedSolid(s[1..]);
      assert forall i :: 0 <= i < |EscapeOne(s[0])| ==> EscapeOne(s[0])[i] >= 32;
    }
  }

  // ---------------------------------------------------------------------
  // UTF-8
  // ---------------------------------------------------------------------

  predicate Scalar(u: nat) { u <= 0x10_FFFF && !High(u) && !Low(u) }

  predicate Trail(b: octet) { 0x80 <= b < 0xC0 }

  function Less(b: octet, mark: nat): nat { if b < mark then 0 else b - mark }

  /** The code point that bytes stand for, by the table in section 3 of RFC 3629;
      overlong forms and surrogates stand for none. */
  function Utf8Value(s: text): Option<nat> {
    if |s| == 1 && s[0] < 0x80 then Some(s[0])
    else if |s| == 2 && 0xC2 <= s[0] < 0xE0 && Trail(s[1]) then Some(Less(s[0], 0xC0) * 64 + Less(s[1], 0x80))
    else if |s| == 3 && 0xE0 <= s[0] < 0xF0 && Trail(s[1]) && Trail(s[2]) then
      var u := Less(s[0], 0xE0) * 4096 + Less(s[1], 0x80) * 64 + Less(s[2], 0x80);
      if u < 0x800 || High(u) || Low(u) then None else Some(u)
    else if |s| == 4 && 0xF0 <= s[0] < 0xF5 && Trail(s[1]) && Trail(s[2]) && Trail(s[3]) then
      var u := Less(s[0], 0xF0) * 262144 + Less(s[1], 0x80) * 4096 + Less(s[2], 0x80) * 64 + Less(s[3], 0x80);
      if u < 0x1_0000 || u > 0x10_FFFF then None else Some(u)
    else None
  }

  /** The bytes written for a code point are its UTF-8, if and only if it is a
      scalar value. */
  lemma Utf8IsUtf8(u: nat)
    requires u <= 0x10_FFFF
    ensures Utf8Value(Utf8(u)) == Some(u) <==> Scalar(u)
  {
    assert u == u / 64 * 64 + u % 64;
    assert u / 64 == u / 64 / 64 * 64 + u / 64 % 64;
    assert u / 4096 == u / 64 / 64;
    assert u / 4096 == u / 4096 / 64 * 64 + u / 4096 % 64;
    assert u / 262144 == u / 4096 / 64;
  }

  function FourHex(u: nat): text
    requires u < 0x1_0000
  {
    [BACKSLASH, LETTER_U, Hex(u / 4096), Hex(u / 256 % 16), Hex(u / 16 % 16), Hex(u % 16)]
  }

  /** A code point as section 7 of RFC 8259 escapes it: beyond the basic plane
      as a surrogate pair. */
  function Escape16(u: nat): text
    requires Scalar(u)
  {
    if u < 0x1_0000 then FourHex(u)
    else FourHex(0xD800 + (u - 0x1_0000) / 1024) + FourHex(0xDC00 + (u - 0x1_0000) % 1024)
  }

  lemma FourHexBack(u: nat, c: text, i: nat)
    requires u < 0x1_0000 && Starts(c, i, FourHex(u))
    ensures i + 6 <= |c| && c[i] == BACKSLASH && c[i + 1] == LETTER_U && Hex4(c, i + 2) == u
  {
    hide Hex, HexValue;
    var t := FourHex(u);
    StartsAt(c, i, t, 0);
    StartsAt(c, i, t, 1);
    StartsAt(c, i, t, 2);
    StartsAt(c, i, t, 3);
    StartsAt(c, i, t, 4);
    StartsAt(c, i, t, 5);
    HexBack(u / 4096);
    HexBack(u / 256 % 16);
    HexBack(u / 16 % 16);
    HexBack(u % 16);
    assert u == u / 16 * 16 + u % 16 && u / 16 == u / 256 * 16 + u / 16 % 16 && u / 256 == u / 4096 * 16 + u / 256 % 16;
  }

  /** Any scalar value escaped is read back as that value. */
  lemma LiteralBack(u: nat, c: text, i: nat, end: nat)
    requires Scalar(u) && Starts(c, i, Escape16(u)) && i + |Escape16(u)| <= end <= |c|
    ensures Utf16(c, i, end) == Literal(|Escape16(u)|, u)
  {
    hide Starts, Hex4, FourHex;
    if u < 0x1_0000 {
      FourHexLength(u);
      FourHexBack(u, c, i);
    } else {
      var hi, lo := 0xD800 + (u - 0x1_0000) / 1024, 0xDC00 + (u - 0x1_0000) % 1024;
      FourHexLength(hi);
      FourHexLength(lo);
      StartsSplit(c, i, FourHex(hi), FourHex(lo));
      FourHexBack(hi, c, i);
      FourHexBack(lo, c, i + 6);
    }
  }

  lemma FourHexLength(u: nat)
    requires u < 0x1_0000
    ensures |FourHex(u)| == 6
  {
  }

  // ---------------------------------------------------------------------
  // Parsing: the space set aside is enough
  // ---------------------------------------------------------------------

  /** Escape pairs that the first pass skips from a place on, itself being
      inside a pair or not. */
  function Skipped(c: text, i: nat, inside: bool, end: nat): (r: nat)
    requires end <= |c|
    ensures i < end ==> r <= end - i
    decreases if i < end then end - i else 0
  {
    if i >= end then 0
    else if inside then Skipped(c, i + 1, false, end)
    else if c[i] == BACKSLASH then 1 + Skipped(c, i + 1, true, end)
    else Skipped(c, i + 1, false, end)
  }

  /** The first pass arrives at the end, outside any pair. */
  predicate Arrives(c: text, i: nat, inside: bool, end: nat)
    requires i <= end <= |c|
    decreases end - i
  {
    if i == end then !inside
    else if inside then Arrives(c, i + 1, false, end)
    else Arrives(c, i + 1, c[i] == BACKSLASH, end)
  }

  function Inside(c: text, i: nat, inside: bool, n: nat): bool
    requires i + n <= |c|
    decreases n
  {
    if n == 0 then inside else Inside(c, i + 1, !inside && c[i] == BACKSLASH, n - 1)
  }

  lemma {:induction false} ArrivesOn(c: text, i: nat, inside: bool, n: nat, end: nat)
    requires i + n <= end <= |c| && Arrives(c, i, inside, end)
    ensures Arrives(c, i + n, Inside(c, i, inside, n), end)
    decreases n
  {
    if n > 0 { ArrivesOn(c, i + 1, !inside && c[i] == BACKSLASH, n - 1, end); }
  }

  lemma SkipsTwo(c: text, i: nat, inside: bool, end: nat)
    requires i + 2 <= end <= |c|
    ensures Skipped(c, i, inside, end) <= 1 + Skipped(c, i + 2, Inside(c, i, inside, 2), end)
  {
    var in1 := !inside && c[i] == BACKSLASH;
    assert Inside(c, i, inside, 2) == Inside(c, i + 1, in1, 1);
    assert Inside(c, i + 1, in1, 1) == Inside(c, i + 2, !in1 && c[i + 1] == BACKSLASH, 0);
  }

  lemma {:induction false} InsideSplit(c: text, i: nat, inside: bool, n: nat, m: nat)
    requires i + n + m <= |c|
    ensures Inside(c, i, inside, n + m) == Inside(c, i + n, Inside(c, i, inside, n), m)
    decreases n
  {
    if n > 0 { InsideSplit(c, i + 1, !inside && c[i] == BACKSLASH, n - 1, m); }
  }

  lemma {:induction false} SkipsEven(c: text, i: nat, inside: bool, k: nat, end: nat)
    requires i + 2 * k <= end <= |c|
    ensures Skipped(c, i, inside, end) <= k + Skipped(c, i + 2 * k, Inside(c, i, inside, 2 * k), end)
    decreases k
  {
    hide Skipped, Inside;
    if k == 0 {
      assert Inside(c, i, inside, 0) == inside by { InsideNone(c, i, inside); }
    } else {
      SkipsTwo(c, i, inside, end);
      SkipsEven(c, i + 2, Inside(c, i, inside, 2), k - 1, end);
      InsideSplit(c, i, inside, 2, 2 * (k - 1));
    }
  }

  lemma InsideNone(c: text, i: nat, inside: bool)
    requires i <= |c|
    ensures Inside(c, i, inside, 0) == inside
  {
  }

  /** Length of a decoded text; nothing for a failure. */
  function Size(r: Option<text>): nat { if r.Some? then |r.value| else 0 }

  lemma Utf8Size(u: nat)
    requires u <= 0x10_FFFF
    ensures |Utf8(u)| <= (if u < 0x1_0000 then 3 else 4)
  {
  }

  lemma LiteralSize(c: text, i: nat, end: nat)
    requires i <= end <= |c| && Utf16(c, i, end).Literal?
    ensures var r := Utf16(c, i, end); (r.len == 6 && |Utf8(r.u)| <= 3) || (r.len == 12 && |Utf8(r.u)| <= 4)
  {
    Utf8Size(Utf16(c, i, end).u);
  }

  /** However the second pass reads the text, wherever it is with respect to the
      pairs of the first, it puts out no more than the first set aside. */
  lemma {:induction false} OutputFits(c: text, i: nat, inside: bool, end: nat)
    requires i <= end < |c| && Arrives(c, i, inside, end)
    ensures Size(Decode(c, i, end)) + Skipped(c, i, inside, end) <= end - i
    decreases end - i
  {
    hide Utf16, Utf8, Unshort, Inside;
    if i < end {
      if c[i] != BACKSLASH {
        OutputFits(c, i + 1, false, end);
      } else if c[i + 1] == LETTER_U {
        if Utf16(c, i, end).Literal? {
          var len := Utf16(c, i, end).len;
          LiteralSize(c, i, end);
          var in1 := Inside(c, i, inside, len);
          ArrivesOn(c, i, inside, len, end);
          SkipsEven(c, i, inside, len / 2, end);
          OutputFits(c, i + len, in1, end);
        }
      } else if i + 1 < end {
        ArrivesOn(c, i, inside, 2, end);
        SkipsEven(c, i, inside, 1, end);
        OutputFits(c, i + 2, Inside(c, i, inside, 2), end);
      } else {
        LastByte(c, i, inside, end);
      }
    }
  }

  lemma LastByte(c: text, i: nat, inside: bool, end: nat)
    requires i + 1 == end < |c| && c[i] == BACKSLASH && c[i + 1] != LETTER_U && Arrives(c, i, inside, end)
    ensures Size(Decode(c, i, end)) + Skipped(c, i, inside, end) <= 1
  {
    assert !Arrives(c, i + 1, true, end);
  }
}
