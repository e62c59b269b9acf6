/** The parser at work on its buffer, moving an offset. */
module JsonParser {
  import opened Common
  import opened JsonText
  import opened JsonParse
  import opened JsonStrings

  /** Items found so far, put before the rest. */
  function Onto<T>(sofar: seq<T>, r: Parsed<seq<T>>): Parsed<seq<T>> {
    match r
    case Fail => Fail
    case Ok(rest, e) => Ok(sofar + rest, e)
  }

  lemma SkipTwice(c: text, off: nat)
    requires off <= |c|
    ensures Skip(c, Skip(c, off)) == Skip(c, off)
  {
    SolidStays(c, off);
  }

  lemma {:induction false} SolidStays(c: text, off: nat)
    requires off <= |c|
    ensures Solid(c, Solid(c, off)) == Solid(c, off)
    decreases |c| - off
  {
    if off < |c| && c[off] <= 32 { SolidStays(c, off + 1); }
  }

  lemma ItemsStep(c: text, sofar: seq<Json>, v: Json, e: nat, off: nat, depth: nat, total: Parsed<seq<Json>>)
    requires off <= |c| && total == Onto(sofar, ParseItems(c, off, depth)) && ParseValue(c, off, depth) == Ok(v, e)
    ensures e <= |c| && var p := Skip(c, e);
      && (p < |c| && c[p] == COMMA ==> total == Onto(sofar + [v], ParseItems(c, Skip(c, p + 1), depth)))
      && (p < |c| && c[p] == CLOSE_BRACKET ==> total == Ok(sofar + [v], p + 1))
      && (p == |c| || (c[p] != COMMA && c[p] != CLOSE_BRACKET) ==> total == Fail)
  {
    hide ParseValue, Skip;
    var p := Skip(c, e);
    if p < |c| && c[p] == COMMA {
      var rest := ParseItems(c, Skip(c, p + 1), depth);
      if rest.Ok? { assert sofar + ([v] + rest.value) == sofar + [v] + rest.value; }
    }
  }

  lemma ItemsFail(c: text, off: nat, depth: nat)
    requires off <= |c| && ParseValue(c, off, depth).Fail?
    ensures ParseItems(c, off, depth).Fail?
  {
  }

  lemma MembersFail(c: text, off: nat, depth: nat)
    requires off < |c| && ParseMember(c, off, depth).Fail?
    ensures ParseMembers(c, off, depth).Fail?
  {
  }

  lemma MembersStep(c: text, sofar: seq<Member>, m: Member, e: nat, off: nat, depth: nat, total: Parsed<seq<Member>>)
    requires off < |c| && total == Onto(sofar, ParseMembers(c, off, depth)) && ParseMember(c, off, depth) == Ok(m, e)
    ensures e <= |c| && var p := Skip(c, e);
      && (p + 1 < |c| && c[p] == COMMA ==> total == Onto(sofar + [m], ParseMembers(c, Skip(c, p + 1), depth)))
      && (p < |c| && c[p] == CLOSE_BRACE ==> total == Ok(sofar + [m], p + 1))
      && (p == |c| || (p + 1 == |c| && c[p] == COMMA) || (c[p] != COMMA && c[p] != CLOSE_BRACE) ==> total == Fail)
  {
    hide ParseMember, Skip;
    var p := Skip(c, e);
    if p + 1 < |c| && c[p] == COMMA {
      var rest := ParseMembers(c, Skip(c, p + 1), depth);
      if rest.Ok? { assert sofar + ([m] + rest.value) == sofar + [m] + rest.value; }
    }
  }

  /** The bytes of a code point, filled in from the last; the mask and the mark
      leave six bits and set the top one. */
  method EncodeUtf8(u: nat, output: array<octet>, at: nat) returns (n: nat)
    requires u <= 0x10_FFFF && at + |Utf8(u)| <= output.Length
    modifies output
    ensures n == |Utf8(u)| && output[at..at + n] == Utf8(u)
    ensures output[..at] == old(output[..at])
  {
    var mark: octet := 0;
    if u < 0x80 { n := 1; }
    else if u < 0x800 { n, mark := 2, 0xC0; }
    else if u < 0x1_0000 { n, mark := 3, 0xE0; }
    else { n, mark := 4, 0xF0; }
    var k: nat := n - 1;
    var rest: nat := u;
    while k > 0
      invariant k < n && output[..at] == old(output[..at])
      invariant rest == if k == n - 1 then u else if k == n - 2 then u / 64 else if k == n - 3 then u / 4096 else u / 262144
      invariant forall j :: k < j < n ==> output[at + j] == Utf8(u)[j]
    {
      output[at + k] := 0x80 + rest % 64;
      rest := rest / 64;
      k := k - 1;
    }
    output[at] := if n > 1 then mark + rest else rest;
    assert output[at..at + n] == Utf8(u);
  }

  lemma {:induction false} ClosingArrives(c: text, i: nat)
    requires i <= |c| && Closing(c, i) < |c|
    ensures Arrives(c, i, false, Closing(c, i))
    decreases |c| - i
  {
    if c[i] != QUOTE {
      if c[i] == BACKSLASH { ClosingArrives(c, i + 2); } else { ClosingArrives(c, i + 1); }
    }
  }

  /** How the second pass stands to the first: what it has put out and what it
      still may are within the space set aside. */
  predicate Within(c: text, start: nat, i: nat, inside: bool, end: nat, at: nat)
    requires start <= end <= |c|
  {
    if i <= end then start <= i && Arrives(c, i, inside, end) && at + Skipped(c, start, false, end) <= (i - start) + Skipped(c, i, inside, end)
    else i == end + 1 && at + Skipped(c, start, false, end) <= end - start
  }

  lemma WithinSpace(c: text, start: nat, i: nat, inside: bool, end: nat, at: nat)
    requires start <= end <= |c| && Within(c, start, i, inside, end, at)
    ensures at + Skipped(c, start, false, end) <= end - start
  {
  }

  lemma WithinOne(c: text, start: nat, i: nat, inside: bool, end: nat, at: nat)
    requires start <= end < |c| && Within(c, start, i, inside, end, at) && i < end && c[i] != BACKSLASH
    ensures Within(c, start, i + 1, false, end, at + 1)
  {
  }

  lemma WithinTwo(c: text, start: nat, i: nat, inside: bool, end: nat, at: nat)
    requires start <= end < |c| && Within(c, start, i, inside, end, at) && i < end && c[i] == BACKSLASH
    ensures Within(c, start, i + 2, i + 2 <= end && Inside(c, i, inside, 2), end, at + 1)
  {
    hide Inside;
    if i + 1 < end {
      var now := i + 2 <= end && Inside(c, i, inside, 2);
      assert now == Inside(c, i, inside, 2);
      ArrivesOn(c, i, inside, 2, end);
      SkipsTwo(c, i, inside, end);
    } else {
      assert Arrives(c, i + 1, !inside, end);
      assert inside && Skipped(c, i, inside, end) == Skipped(c, end, false, end);
    }
  }

  lemma WithinLiteral(c: text, start: nat, i: nat, inside: bool, end: nat, at: nat)
    requires start <= end < |c| && Within(c, start, i, inside, end, at) && i < end && Utf16(c, i, end).Literal?
    ensures var r := Utf16(c, i, end); Within(c, start, i + r.len, Inside(c, i, inside, r.len), end, at + |Utf8(r.u)|)
  {
    hide Utf16, Utf8, Inside, Skipped, Arrives;
    LiteralSize(c, i, end);
    var len := Utf16(c, i, end).len;
    ArrivesOn(c, i, inside, len, end);
    SkipsEven(c, i, inside, len / 2, end);
  }

  lemma ThenThen(a: text, b: text, r: Option<text>)
    ensures Then(a, Then(b, r)) == Then(a + b, r)
  {
    if r.Some? { assert a + (b + r.value) == a + b + r.value; }
  }

  lemma ThenNothing(r: Option<text>)
    ensures Then([], r) == r
  {
    if r.Some? { assert [] + r.value == r.value; }
  }

  lemma ThenAll(a: text)
    ensures Then(a, Some([])) == Some(a)
  {
    assert a + [] == a;
  }

  lemma NoneThen(a: text)
    ensures Then(a, None) == None
  {
  }

  lemma WithinStart(c: text, start: nat, end: nat)
    requires start <= end <= |c| && Arrives(c, start, false, end)
    ensures Within(c, start, start, false, end, 0)
  {
  }

  lemma LiteralSpace(c: text, start: nat, i: nat, inside: bool, end: nat, at: nat)
    requires start <= end < |c| && Within(c, start, i, inside, end, at) && i < end && Utf16(c, i, end).Literal?
    ensures at + |Utf8(Utf16(c, i, end).u)| + Skipped(c, start, false, end) <= end - start
  {
    hide Utf16, Utf8, Within, Inside, Skipped;
    WithinLiteral(c, start, i, inside, end, at);
    var r := Utf16(c, i, end);
    WithinSpace(c, start, i + r.len, Inside(c, i, inside, r.len), end, at + |Utf8(r.u)|);
  }

  lemma RunStep(c: text, off: nat, room: nat)
    requires off < |c| && room > 0 && Numeric(c[off])
    ensures Run(c, off, room) == [c[off]] + Run(c, off + 1, room - 1)
  {
  }

  lemma RunGroup(a: text, b: octet, c: text)
    ensures a + ([b] + c) == a + [b] + c
  {
  }

  lemma RunStops(c: text, off: nat, room: nat)
    requires off <= |c| && (room == 0 || off == |c| || !Numeric(c[off]))
    ensures Run(c, off, room) == []
  {
  }

  lemma OntoNothing<T>(r: Parsed<seq<T>>)
    ensures Onto([], r) == r
  {
    if r.Ok? { assert [] + r.value == r.value; }
  }

  class Parser {
    const content: text
    var offset: nat
    var depth: nat

    constructor (c: text)
      ensures content == c && offset == 0 && depth == 0
    {
      content, offset, depth := c, 0, 0;
    }

    method SkipWhitespace()
      requires offset <= |content|
      modifies this`offset
      ensures offset == Skip(content, old(offset))
    {
      if offset == |content| { return; }
      while offset < |content| && content[offset] <= 32
        invariant old(offset) <= offset <= |content| && Solid(content, offset) == Solid(content, old(offset))
      {
        offset := offset + 1;
      }
      if offset == |content| { offset := offset - 1; }
    }

    method ParseHex4(i: nat) returns (h: nat)
      requires i + 4 <= |content|
      ensures h == Hex4(content, i)
    {
      hide HexValue;
      var k: nat := 0;
      h := 0;
      while k < 4
        invariant k <= 4 && forall j :: i <= j < i + k ==> HexValue(content[j]) >= 0
        invariant h == if k == 0 then 0
          else if k == 1 then 16 * HexValue(content[i])
          else if k == 2 then 256 * HexValue(content[i]) + 16 * HexValue(content[i + 1])
          else if k == 3 then 4096 * HexValue(content[i]) + 256 * HexValue(content[i + 1]) + 16 * HexValue(content[i + 2])
          else 4096 * HexValue(content[i]) + 256 * HexValue(content[i + 1]) + 16 * HexValue(content[i + 2]) + HexValue(content[i + 3])
      {
        var d := HexValue(content[i + k]);
        if d < 0 { return 0; }
        h := h + d;
        if k < 3 { h := 16 * h; }
        k := k + 1;
      }
    }

    /** `utf16_literal_to_utf8`: zero for a literal that is none. */
    method Literal(i: nat, end: nat, output: array<octet>, at: nat) returns (len: nat, n: nat)
      requires i <= end <= |content|
      requires Utf16(content, i, end).Literal? ==> at + |Utf8(Utf16(content, i, end).u)| <= output.Length
      requires at <= output.Length
      modifies output
      ensures output[..at] == old(output[..at])
      ensures len == 0 <==> Utf16(content, i, end).Bad?
      ensures len > 0 ==> len == Utf16(content, i, end).len && at + n <= output.Length
      ensures len > 0 ==> output[at..at + n] == Utf8(Utf16(content, i, end).u)
    {
      hide Hex4, Utf8;
      len, n := 0, 0;
      if end - i < 6 { return; }
      var first := ParseHex4(i + 2);
      if Low(first) { return; }
      var u := first;
      if High(first) {
        if end - i < 12 || content[i + 6] != BACKSLASH || content[i + 7] != LETTER_U { return; }
        var second := ParseHex4(i + 8);
        if !Low(second) { return; }
        u := Pair(first, second);
        len := 12;
      } else {
        len := 6;
      }
      n := EncodeUtf8(u, output, at);
    }

    /** The first pass over a string: its end, and the pairs skipped. */
    method FindEnd(start: nat) returns (end: nat, skipped: nat)
      requires start <= |content|
      ensures end == Closing(content, start)
      ensures end < |content| ==> skipped == Skipped(content, start, false, end)
    {
      end, skipped := start, 0;
      ghost var e := Closing(content, start);
      while end < |content| && content[end] != QUOTE
        invariant start <= end <= |content| && Closing(content, end) == e
        invariant e < |content| ==> end <= e && skipped + Skipped(content, end, false, e) == Skipped(content, start, false, e)
      {
        if content[end] == BACKSLASH {
          if end + 1 >= |content| { return |content|, skipped; }
          skipped := skipped + 1;
          end := end + 1;
        }
        end := end + 1;
      }
    }

    /** The second pass: the text between the quotes decoded into the space that
        was set aside for it. */
    method Unescape(start: nat, end: nat, skipped: nat) returns (r: Option<text>)
      requires start <= end < |content| && Arrives(content, start, false, end) && skipped == Skipped(content, start, false, end)
      ensures r == Decode(content, start, end)
    {
      hide Utf16, Utf8, Unshort, Skipped, Arrives, Inside, Then, Within;
      WithinStart(content, start, end);
      WithinSpace(content, start, start, false, end, 0);
      var output := new octet[end + 1 - start - skipped + 1];
      var i, at: nat := start, 0;
      ghost var inside := false;
      ghost var total := Decode(content, start, end);
      ThenNothing(total);
      while i < end
        invariant start <= i && Within(content, start, i, inside, end, at) && at <= output.Length
        invariant Then(output[..at], Decode(content, i, end)) == total
        decreases end - i
      {
        ghost var was, rest := output[..at], Decode(content, i, end);
        WithinSpace(content, start, i, inside, end, at);
        if content[i] != BACKSLASH {
          ThenThen(was, [content[i]], Decode(content, i + 1, end));
          WithinOne(content, start, i, inside, end, at);
          output[at] := content[i];
          assert output[..at + 1] == was + [content[i]];
          inside := false;
          i, at := i + 1, at + 1;
        } else if content[i + 1] == LETTER_U {
          if Utf16(content, i, end).Literal? { WithinLiteral(content, start, i, inside, end, at); LiteralSpace(content, start, i, inside, end, at); }
          var len, n := Literal(i, end, output, at);
          if len == 0 {
            NoneThen(was);
            return None;
          }
          ThenThen(was, Utf8(Utf16(content, i, end).u), Decode(content, i + len, end));
          assert output[..at + n] == was + Utf8(Utf16(content, i, end).u);
          inside := Inside(content, i, inside, len);
          i, at := i + len, at + n;
        } else {
          var b := Unshort(content[i + 1]);
          if b == 0 {
            NoneThen(was);
            return None;
          }
          ThenThen(was, [b], Decode(content, i + 2, end));
          WithinTwo(content, start, i, inside, end, at);
          output[at] := b;
          assert output[..at + 1] == was + [b];
          inside := i + 2 <= end && Inside(content, i, inside, 2);
          i, at := i + 2, at + 1;
        }
      }
      ThenAll(output[..at]);
      r := Some(output[..at]);
    }

    method String() returns (r: Option<text>)
      requires offset < |content|
      modifies this`offset
      ensures r.None? <==> ParseString(content, old(offset)).Fail?
      ensures r.Some? ==> ParseString(content, old(offset)) == Ok(r.value, offset)
    {
      hide Closing, Decode, Visible, Skipped, Arrives;
      if content[offset] != QUOTE { return None; }
      var start := offset + 1;
      var end, skipped := FindEnd(start);
      if end >= |content| { return None; }
      ClosingArrives(content, start);
      r := Unescape(start, end, skipped);
      if r.None? { return; }
      r := Some(Visible(r.value));
      offset := end + 1;
    }

    /** The numeric bytes ahead, copied to a scratch buffer. */
    method Copy() returns (scratch: seq<octet>)
      requires offset <= |content|
      ensures scratch == Run(content, offset, 63)
    {
      hide Run, Numeric;
      scratch := [];
      ghost var all := Run(content, offset, 63);
      assert [] + all == all;
      while |scratch| < 63 && offset + |scratch| < |content| && Numeric(content[offset + |scratch|])
        invariant |scratch| <= 63 && offset + |scratch| <= |content|
        invariant scratch + Run(content, offset + |scratch|, 63 - |scratch|) == all
      {
        RunStep(content, offset + |scratch|, 63 - |scratch|);
        var b := content[offset + |scratch|];
        ghost var rest := Run(content, offset + |scratch| + 1, 62 - |scratch|);
        RunGroup(scratch, b, rest);
        scratch := scratch + [b];
      }
      RunStops(content, offset + |scratch|, 63 - |scratch|);
      assert scratch + [] == scratch;
    }

    method Number() returns (r: Option<Json>)
      requires offset <= |content|
      modifies this`offset
      ensures r.None? <==> ParseNumber(content, old(offset)).Fail?
      ensures r.Some? ==> ParseNumber(content, old(offset)) == Ok(r.value, offset)
    {
      hide NumberEnd, NumberOf, Run;
      var scratch := Copy();
      var e := NumberEnd(scratch);
      if e == 0 { return None; }
      r := Some(NumberOf(scratch[..e]));
      offset := offset + e;
    }

    predicate Sees(b: octet)
      reads this
    {
      offset < |content| && content[offset] == b
    }

    /** `parse_value`. */
    method Value() returns (r: Option<Json>)
      requires offset <= |content|
      modifies this
      ensures r.None? <==> ParseValue(content, old(offset), old(depth)).Fail?
      ensures r.Some? ==> ParseValue(content, old(offset), old(depth)) == Ok(r.value, offset) && depth == old(depth)
      decreases |content| - offset, 2
    {
      hide ParseArray, ParseObject, ParseString, ParseNumber;
      if Starts(content, offset, NULL_WORD) {
        offset := offset + 4;
        return Some(Null);
      }
      if Starts(content, offset, FALSE_WORD) {
        offset := offset + 5;
        return Some(Bool(false));
      }
      if Starts(content, offset, TRUE_WORD) {
        offset := offset + 4;
        return Some(Bool(true));
      }
      if Sees(QUOTE) {
        var s := String();
        return if s.None? then None else Some(Str(s.value));
      }
      if offset < |content| && (content[offset] == MINUS || Digit(content[offset])) {
        r := Number();
        return;
      }
      if Sees(OPEN_BRACKET) {
        r := Array();
        return;
      }
      if Sees(OPEN_BRACE) {
        r := Object();
        return;
      }
      r := None;
    }

    /** `parse_array`. */
    method Array() returns (r: Option<Json>)
      requires Sees(OPEN_BRACKET)
      modifies this
      ensures r.None? <==> ParseArray(content, old(offset), old(depth)).Fail?
      ensures r.Some? ==> ParseArray(content, old(offset), old(depth)) == Ok(r.value, offset) && depth == old(depth)
      decreases |content| - offset, 1
    {
      hide ParseItems, ParseValue, Skip;
      if depth >= NESTING_LIMIT { return None; }
      depth := depth + 1;
      offset := offset + 1;
      SkipWhitespace();
      if Sees(CLOSE_BRACKET) {
        depth := depth - 1;
        offset := offset + 1;
        return Some(Arr([]));
      }
      if offset >= |content| { return None; }
      ghost var total := ParseItems(content, offset, depth);
      SkipTwice(content, old(offset) + 1);
      offset := offset - 1;
      var items := [];
      OntoNothing(total);
      var more := true;
      while more
        invariant old(offset) <= offset < |content| && depth == old(depth) + 1
        invariant more ==> total == Onto(items, ParseItems(content, Skip(content, offset + 1), depth))
        invariant !more ==> content[offset] != COMMA && total == if content[offset] == CLOSE_BRACKET then Ok(items, offset + 1) else Fail
        decreases |content| - offset, more
      {
        offset := offset + 1;
        SkipWhitespace();
        ghost var at, inner := offset, depth;
        var v := Value();
        if v.None? {
          ItemsFail(content, at, inner);
          return None;
        }
        ItemsStep(content, items, v.value, offset, at, depth, total);
        SkipWhitespace();
        items := items + [v.value];
        if offset >= |content| { return None; }
        more := Sees(COMMA);
      }
      if !Sees(CLOSE_BRACKET) { return None; }
      depth := depth - 1;
      offset := offset + 1;
      r := Some(Arr(items));
    }

    /** `parse_object`. */
    method Object() returns (r: Option<Json>)
      requires Sees(OPEN_BRACE)
      modifies this
      ensures r.None? <==> ParseObject(content, old(offset), old(depth)).Fail?
      ensures r.Some? ==> ParseObject(content, old(offset), old(depth)) == Ok(r.value, offset) && depth == old(depth)
      decreases |content| - offset, 1
    {
      hide ParseMembers, ParseMember, ParseValue, Skip;
      if depth >= NESTING_LIMIT { return None; }
      depth := depth + 1;
      offset := offset + 1;
      SkipWhitespace();
      if Sees(CLOSE_BRACE) {
        depth := depth - 1;
        offset := offset + 1;
        return Some(Obj([]));
      }
      if offset >= |content| { return None; }
      ghost var total := ParseMembers(content, offset, depth);
      SkipTwice(content, old(offset) + 1);
      offset := offset - 1;
      var ms := [];
      OntoNothing(total);
      var more := true;
      while more
        invariant old(offset) <= offset < |content| && depth == old(depth) + 1
        invariant more && offset + 1 < |content| ==> total == Onto(ms, ParseMembers(content, Skip(content, offset + 1), depth))
        invariant more && offset + 1 == |content| ==> total == Fail
        invariant !more ==> content[offset] != COMMA && total == if content[offset] == CLOSE_BRACE then Ok(ms, offset + 1) else Fail
        decreases |content| - offset, more
      {
        if offset + 1 >= |content| { return None; }
        offset := offset + 1;
        SkipWhitespace();
        ghost var at, inner := offset, depth;
        var m := OneMember();
        if m.None? {
          MembersFail(content, at, inner);
          return None;
        }
        MembersStep(content, ms, m.value, offset, at, depth, total);
        SkipWhitespace();
        ms := ms + [m.value];
        if offset >= |content| { return None; }
        more := Sees(COMMA);
      }
      if !Sees(CLOSE_BRACE) { return None; }
      depth := depth - 1;
      offset := offset + 1;
      r := Some(Obj(ms));
    }

    /** A name, a colon and a value. */
    method OneMember() returns (r: Option<Member>)
      requires offset < |content|
      modifies this
      ensures r.None? <==> ParseMember(content, old(offset), old(depth)).Fail?
      ensures r.Some? ==> ParseMember(content, old(offset), old(depth)) == Ok(r.value, offset) && depth == old(depth)
      decreases |content| - offset, 3
    {
      hide ParseValue, ParseString, Skip;
      var key := String();
      if key.None? { return None; }
      SkipWhitespace();
      if !Sees(COLON) { return None; }
      offset := offset + 1;
      SkipWhitespace();
      var v := Value();
      if v.None? { return None; }
      r := Some(Member(key.value, v.value));
    }

    /** `cJSON_ParseWithLengthOpts`. */
    method Document() returns (r: Option<Json>)
      requires offset == 0 && depth == 0
      modifies this
      ensures r.None? <==> Parse(content).Fail?
      ensures r.Some? ==> Parse(content) == Ok(r.value, offset)
    {
      hide ParseValue, Skip;
      if |content| == 0 { return None; }
      if |content| > 4 && content[..3] == [0xEF, 0xBB, 0xBF] { offset := 3; }
      SkipWhitespace();
      r := Value();
    }
  }
}
