/** Printing a tree and parsing the text gives the tree back, exactly when it is
    nested no deeper than the limit. */
module JsonRoundTrip {
  import opened Common
  import opened JsonText
  import opened JsonParse

  // ---------------------------------------------------------------------
  // Text in a buffer
  // ---------------------------------------------------------------------

  lemma StartsSplit(c: text, off: nat, a: text, b: text)
    requires Starts(c, off, a + b)
    ensures Starts(c, off, a) && Starts(c, off + |a|, b)
  {
    var s := c[off..off + |a + b|];
    forall i | 0 <= i < |a|
      ensures c[off + i] == a[i]
    {
      assert s[i] == (a + b)[i];
    }
    forall i | 0 <= i < |b|
      ensures c[off + |a| + i] == b[i]
    {
      assert s[|a| + i] == (a + b)[|a| + i];
    }
  }

  lemma StartsAt(c: text, off: nat, s: text, i: nat)
    requires Starts(c, off, s) && i < |s|
    ensures off + i < |c| && c[off + i] == s[i]
  {
    assert c[off..off + |s|][i] == s[i];
  }

  lemma SkipNothing(c: text, off: nat)
    requires off < |c| && c[off] > 32
    ensures Skip(c, off) == off
  {
  }

  // ---------------------------------------------------------------------
  // Strings
  // ---------------------------------------------------------------------

  lemma HexBack(d: nat)
    requires d < 16
    ensures HexValue(Hex(d)) == d && Hex(d) != QUOTE && Hex(d) != BACKSLASH
  {
  }

  lemma ShortBack(b: octet)
    requires Short(b) != 0
    ensures Unshort(Short(b)) == b && b != 0 && Short(b) != LETTER_U
  {
  }

  lemma ClosingFour(c: text, i: nat)
    requires i + 4 <= |c| && forall k :: i <= k < i + 4 ==> c[k] != QUOTE && c[k] != BACKSLASH
    ensures Closing(c, i) == Closing(c, i + 4)
  {
    assert Closing(c, i) == Closing(c, i + 1);
    assert Closing(c, i + 1) == Closing(c, i + 2);
    assert Closing(c, i + 2) == Closing(c, i + 3);
  }

  /** An escaped byte in the buffer, by its shape. */
  lemma EscapedShape(b: octet, c: text, off: nat)
    requires Starts(c, off, EscapeOne(b))
    ensures off + |EscapeOne(b)| <= |c|
    ensures Short(b) != 0 ==> |EscapeOne(b)| == 2 && c[off] == BACKSLASH && c[off + 1] == Short(b)
    ensures Short(b) == 0 && b < 32 ==>
      && |EscapeOne(b)| == 6 && c[off] == BACKSLASH && c[off + 1] == LETTER_U
      && c[off + 2] == ZERO && c[off + 3] == ZERO && c[off + 4] == Hex(b / 16) && c[off + 5] == Hex(b % 16)
    ensures Short(b) == 0 && b >= 32 ==> |EscapeOne(b)| == 1 && c[off] == b
  {
    hide Short, Hex;
    var e := EscapeOne(b);
    StartsAt(c, off, e, 0);
    if |e| > 1 { StartsAt(c, off, e, 1); }
    if |e| > 2 {
      StartsAt(c, off, e, 2);
      StartsAt(c, off, e, 3);
      StartsAt(c, off, e, 4);
      StartsAt(c, off, e, 5);
    }
  }

  lemma PlainByte(b: octet)
    requires Short(b) == 0
    ensures b != QUOTE && b != BACKSLASH
  {
  }

  lemma ClosingOne(b: octet, c: text, off: nat)
    requires Starts(c, off, EscapeOne(b))
    ensures Closing(c, off) == Closing(c, off + |EscapeOne(b)|)
  {
    hide Short, Hex, EscapeOne;
    EscapedShape(b, c, off);
    if Short(b) == 0 {
      PlainByte(b);
      if b < 32 {
        HexBack(b / 16);
        HexBack(b % 16);
        HexBack(0);
        ClosingFour(c, off + 2);
      }
    }
  }

  lemma {:induction false} ClosingEscaped(s: text, c: text, off: nat)
    requires Starts(c, off, EscapeAll(s) + [QUOTE])
    ensures Closing(c, off) == off + |EscapeAll(s)|
    decreases s
  {
    hide EscapeOne, Closing;
    if s == [] {
      StartsAt(c, off, EscapeAll(s) + [QUOTE], 0);
      ClosingHere(c, off);
    } else {
      var e, rest := EscapeOne(s[0]), EscapeAll(s[1..]) + [QUOTE];
      assert EscapeAll(s) + [QUOTE] == e + rest;
      StartsSplit(c, off, e, rest);
      ClosingOne(s[0], c, off);
      ClosingEscaped(s[1..], c, off + |e|);
    }
  }

  lemma ClosingHere(c: text, i: nat)
    requires i < |c| && c[i] == QUOTE
    ensures Closing(c, i) == i
  {
  }

  lemma DecodeOne(b: octet, c: text, off: nat, end: nat)
    requires Starts(c, off, EscapeOne(b)) && off + |EscapeOne(b)| <= end < |c|
    ensures Decode(c, off, end) == Then([b], Decode(c, off + |EscapeOne(b)|, end))
  {
    hide Short, Hex, EscapeOne, HexValue, Unshort, Then;
    EscapedShape(b, c, off);
    if Short(b) != 0 {
      ShortBack(b);
    } else {
      PlainByte(b);
      if b < 32 {
        HexBack(b / 16);
        HexBack(b % 16);
        HexZero();
        assert Hex4(c, off + 2) == b;
        assert Utf16(c, off, end) == Literal(6, b);
      }
    }
  }

  lemma HexZero()
    ensures HexValue(ZERO) == 0
  {
  }

  /** Decoding undoes escaping, for any bytes. */
  lemma {:induction false} DecodeEscaped(s: text, c: text, off: nat, end: nat)
    requires Starts(c, off, EscapeAll(s)) && end == off + |EscapeAll(s)| < |c|
    ensures Decode(c, off, end) == Some(s)
    decreases s
  {
    hide EscapeOne, Utf16, Unshort;
    if s != [] {
      var e, rest := EscapeOne(s[0]), EscapeAll(s[1..]);
      StartsSplit(c, off, e, rest);
      DecodeOne(s[0], c, off, end);
      DecodeEscaped(s[1..], c, off + |e|, end);
      assert [s[0]] + s[1..] == s;
    }
  }

  lemma {:induction false} VisibleAll(s: text)
    requires CString(s)
    ensures Visible(s) == s
    decreases s
  {
    if s != [] { VisibleAll(s[1..]); }
  }

  lemma StringBack(s: text, c: text, off: nat)
    requires CString(s) && Starts(c, off, Quoted(s))
    ensures off < |c| && ParseString(c, off) == Ok(s, off + |Quoted(s)|)
  {
    hide EscapeAll, Closing, Decode;
    var body := EscapeAll(s) + [QUOTE];
    assert Quoted(s) == [QUOTE] + body;
    StartsSplit(c, off, [QUOTE], body);
    StartsAt(c, off, [QUOTE], 0);
    StartsSplit(c, off + 1, EscapeAll(s), [QUOTE]);
    ClosingEscaped(s, c, off + 1);
    DecodeEscaped(s, c, off + 1, off + 1 + |EscapeAll(s)|);
    VisibleAll(s);
  }

  // ---------------------------------------------------------------------
  // Numbers
  // ---------------------------------------------------------------------

  predicate AllDigits(s: text) { forall i :: 0 <= i < |s| ==> Digit(s[i]) }

  lemma {:induction false} DigitsBack(n: nat)
    ensures AllDigits(Digits(n)) && Digital(Digits(n)) == n
    decreases n
  {
    if n >= 10 {
      DigitsBack(n / 10);
      assert Digits(n)[..|Digits(n)| - 1] == Digits(n / 10);
    } else {
      assert Digits(n)[..0] == [];
    }
  }

  lemma {:induction false} DigitsShort(n: nat, k: nat, bound: nat)
    requires n < bound && k > 0 && bound == Ten(k)
    ensures |Digits(n)| <= k
    decreases k
  {
    if n >= 10 { DigitsShort(n / 10, k - 1, Ten(k - 1)); }
  }

  function Ten(k: nat): nat { if k == 0 then 1 else 10 * Ten(k - 1) }

  lemma {:induction false} DigitsEndAll(r: text, i: nat)
    requires i <= |r| && forall k :: i <= k < |r| ==> Digit(r[k])
    ensures DigitsEnd(r, i) == |r|
    decreases |r| - i
  {
    if i < |r| { DigitsEndAll(r, i + 1); }
  }

  lemma {:induction false} RunIs(c: text, off: nat, s: text, room: nat)
    requires Starts(c, off, s) && |s| < room && (forall i :: 0 <= i < |s| ==> Numeric(s[i]))
    requires off + |s| < |c| ==> !Numeric(c[off + |s|])
    ensures Run(c, off, room) == s
    decreases s
  {
    if s != [] {
      StartsAt(c, off, s, 0);
      assert s == [s[0]] + s[1..];
      StartsSplit(c, off, [s[0]], s[1..]);
      RunIs(c, off + 1, s[1..], room - 1);
    }
  }

  /** The decimal text of a 32-bit integer is a number of that value. */
  lemma DecimalBack(n: int)
    requires INT_MIN <= n <= INT_MAX
    ensures var s := Decimal(n);
      && 0 < |s| <= 11 && NumberEnd(s) == |s| && NumberOf(s) == Num(n)
      && (s[0] == MINUS || Digit(s[0])) && forall i :: 0 <= i < |s| ==> Numeric(s[i])
  {
    hide Digits, Digital, DigitsEnd;
    var m: nat := if n < 0 then -n else n;
    DigitsBack(m);
    TenTen();
    DigitsShort(m, 10, Ten(10));
    var s, ds := Decimal(n), Digits(m);
    var a := if n < 0 then 1 else 0;
    assert s[a..] == ds;
    assert forall k :: a <= k < |s| ==> s[k] == ds[k - a];
    assert Digit(ds[0]);
    DigitsEndAll(s, a);
  }

  lemma TenTen()
    ensures Ten(10) == 10_000_000_000
  {
    assert Ten(5) == 100_000;
  }

  /** What may follow a value: the end, or a byte no number goes on with. */
  predicate Ends(c: text, e: nat) { e < |c| ==> !Numeric(c[e]) }

  lemma NumberBack(n: int, c: text, off: nat)
    requires INT_MIN <= n <= INT_MAX && Starts(c, off, Decimal(n)) && Ends(c, off + |Decimal(n)|)
    ensures off < |c| && (c[off] == MINUS || Digit(c[off])) && ParseNumber(c, off) == Ok(Num(n), off + |Decimal(n)|)
  {
    hide NumberEnd, NumberOf, Decimal, Run;
    var s := Decimal(n);
    DecimalBack(n);
    StartsAt(c, off, s, 0);
    RunIs(c, off, s, 63);
    assert s[..|s|] == s;
  }

  // ---------------------------------------------------------------------
  // Values
  // ---------------------------------------------------------------------

  lemma NotWord(c: text, off: nat, word: text)
    requires off < |c| && |word| > 0 && c[off] != word[0]
    ensures !Starts(c, off, word)
  {
    assert off + |word| <= |c| ==> c[off..off + |word|][0] == c[off];
  }

  /** Printed text begins with something solid that closes nothing. */
  lemma FirstByte(v: Json, fmt: bool, d: nat)
    requires Plain(v)
    ensures var t := Text(v, fmt, d); |t| > 0 && t[0] > 32 && t[0] != CLOSE_BRACKET && t[0] != CLOSE_BRACE
  {
    if v.Num? { DecimalBack(v.n); }
  }

  /** The result of parsing what was printed. */
  function Back<T>(value: T, e: nat, fits: bool): Parsed<T> { if fits then Ok(value, e) else Fail }

  lemma WordBack(v: Json, fmt: bool, d: nat, c: text, off: nat, depth: nat)
    requires (v.Null? || v.Bool?) && Starts(c, off, Text(v, fmt, d))
    ensures ParseValue(c, off, depth) == Ok(v, off + |Text(v, fmt, d)|)
  {
    StartsAt(c, off, Text(v, fmt, d), 0);
    if v.Bool? {
      NotWord(c, off, NULL_WORD);
      if v.b { NotWord(c, off, FALSE_WORD); }
    }
  }

  lemma NoWords(c: text, off: nat)
    requires off < |c| && (c[off] == QUOTE || c[off] == MINUS || Digit(c[off]) || c[off] == OPEN_BRACKET || c[off] == OPEN_BRACE)
    ensures !Starts(c, off, NULL_WORD) && !Starts(c, off, FALSE_WORD) && !Starts(c, off, TRUE_WORD)
  {
    NotWord(c, off, NULL_WORD);
    NotWord(c, off, FALSE_WORD);
    NotWord(c, off, TRUE_WORD);
  }

  lemma LeafBack(v: Json, fmt: bool, d: nat, c: text, off: nat, depth: nat)
    requires Plain(v) && (v.Str? || v.Num?) && Starts(c, off, Text(v, fmt, d)) && Ends(c, off + |Text(v, fmt, d)|)
    ensures ParseValue(c, off, depth) == Ok(v, off + |Text(v, fmt, d)|)
  {
    hide ParseString, ParseNumber, Quoted, Decimal, Starts;
    if v.Str? {
      StringBack(v.s, c, off);
      QuoteFirst(v.s, c, off);
    } else {
      NumberBack(v.n, c, off);
    }
    NoWords(c, off);
  }

  lemma QuoteFirst(s: text, c: text, off: nat)
    requires Starts(c, off, Quoted(s))
    ensures off < |c| && c[off] == QUOTE
  {
    StartsAt(c, off, Quoted(s), 0);
  }

  /** Space in front is skipped. */
  lemma SkipOver(c: text, off: nat, space: text)
    requires Starts(c, off, space) && off + |space| < |c| && forall i :: 0 <= i < |space| ==> space[i] <= 32
    ensures Skip(c, off) == Skip(c, off + |space|)
  {
    forall i | off <= i < off + |space|
      ensures c[i] <= 32
    {
      StartsAt(c, off, space, i - off);
    }
    SolidOver(c, off, |space|);
  }

  lemma {:induction false} SolidOver(c: text, off: nat, n: nat)
    requires off + n <= |c| && forall i :: off <= i < off + n ==> c[i] <= 32
    ensures Solid(c, off) == Solid(c, off + n)
    decreases n
  {
    if n > 0 { SolidOver(c, off + 1, n - 1); }
  }

  /** Space, then a solid text: skipping finds it. */
  lemma SkipTo(c: text, off: nat, space: text, t: text)
    requires Starts(c, off, space + t) && t != [] && t[0] > 32 && forall i :: 0 <= i < |space| ==> space[i] <= 32
    ensures off + |space| < |c| && Skip(c, off) == off + |space| && c[off + |space|] == t[0] && Starts(c, off + |space|, t)
  {
    hide Starts, Skip;
    StartsSplit(c, off, space, t);
    StartsAt(c, off + |space|, t, 0);
    SkipOver(c, off, space);
    SkipNothing(c, off + |space|);
  }

  lemma First(c: text, off: nat, b: octet, rest: text)
    requires Starts(c, off, [b] + rest)
    ensures off < |c| && c[off] == b && Starts(c, off + 1, rest)
  {
    StartsSplit(c, off, [b], rest);
    StartsAt(c, off, [b], 0);
  }

  /** For every tree of plain values, compact or formatted, at any place in any
      buffer: the parser returns the tree and the place behind it if the nesting
      limit allows, and fails otherwise. */
  lemma {:induction false} ParseText(v: Json, fmt: bool, d: nat, c: text, off: nat, depth: nat)
    requires Plain(v) && Starts(c, off, Text(v, fmt, d)) && Ends(c, off + |Text(v, fmt, d)|) && depth <= NESTING_LIMIT
    ensures ParseValue(c, off, depth) == Back(v, off + |Text(v, fmt, d)|, depth + Nest(v) <= NESTING_LIMIT)
    decreases v, 1
  {
    hide Starts, ParseValue, Ends, Text, Plain, Nest;
    NestLeaf(v);
    if v.Null? || v.Bool? {
      WordBack(v, fmt, d, c, off, depth);
    } else if v.Num? || v.Str? {
      LeafBack(v, fmt, d, c, off, depth);
    } else if v.Arr? {
      ParseArrayText(v, fmt, d, c, off, depth);
    } else {
      ParseObjectText(v, fmt, d, c, off, depth);
    }
  }

  lemma {:induction false} ParseArrayText(v: Json, fmt: bool, d: nat, c: text, off: nat, depth: nat)
    requires v.Arr? && Plain(v) && Starts(c, off, Text(v, fmt, d)) && depth <= NESTING_LIMIT
    ensures ParseValue(c, off, depth) == Back(v, off + |Text(v, fmt, d)|, depth + Nest(v) <= NESTING_LIMIT)
    decreases v, 0
  {
    hide Starts, ParseValue, ParseItems, ItemsText, Text, Plain, Nest;
    var items := v.items;
    ArrayText(items, fmt, d);
    First(c, off, OPEN_BRACKET, ItemsText(items, fmt, d + 1));
    if items != [] && depth < NESTING_LIMIT {
      ParseItemsText(items, fmt, d + 1, c, off + 1, depth + 1);
    }
    ArrayBack(items, fmt, d + 1, c, off, depth);
  }

  lemma {:induction false} ParseObjectText(v: Json, fmt: bool, d: nat, c: text, off: nat, depth: nat)
    requires v.Obj? && Plain(v) && Starts(c, off, Text(v, fmt, d)) && depth <= NESTING_LIMIT
    ensures ParseValue(c, off, depth) == Back(v, off + |Text(v, fmt, d)|, depth + Nest(v) <= NESTING_LIMIT)
    decreases v, 0
  {
    hide Starts, ParseValue, ParseMembers, MembersText, Line, Text, Plain, Nest, CString, Skip;
    var ms := v.members;
    ObjectText(ms, fmt, d);
    First(c, off, OPEN_BRACE, Line(fmt) + MembersText(ms, fmt, d));
    StartsSplit(c, off + 1, Line(fmt), MembersText(ms, fmt, d));
    MembersAfterLine(ms, fmt, d, c, off + 1);
    if ms != [] && depth < NESTING_LIMIT {
      ParseMembersText(ms, fmt, d, c, off + 1 + |Line(fmt)|, depth + 1);
    }
    ObjectBack(ms, fmt, d, c, off, depth);
  }

  lemma NestLeaf(v: Json)
    requires Plain(v)
    ensures v.Null? || v.Bool? || v.Num? || v.Str? ==> Nest(v) == 0
    ensures !v.Other?
  {
  }

  lemma ArrayText(items: seq<Json>, fmt: bool, d: nat)
    requires Plain(Arr(items))
    ensures Text(Arr(items), fmt, d) == [OPEN_BRACKET] + ItemsText(items, fmt, d + 1)
    ensures Nest(Arr(items)) == 1 + NestItems(items) && forall i :: 0 <= i < |items| ==> Plain(items[i])
  {
  }

  lemma ObjectText(ms: seq<Member>, fmt: bool, d: nat)
    requires Plain(Obj(ms))
    ensures Text(Obj(ms), fmt, d) == [OPEN_BRACE] + (Line(fmt) + MembersText(ms, fmt, d))
    ensures Nest(Obj(ms)) == 1 + NestMembers(ms) && forall i :: 0 <= i < |ms| ==> CString(ms[i].key) && Plain(ms[i].value)
  {
  }

  /** An array, given its items. */
  lemma ArrayBack(items: seq<Json>, fmt: bool, d: nat, c: text, off: nat, depth: nat)
    requires Plain(Arr(items)) && off < |c| && c[off] == OPEN_BRACKET && Starts(c, off + 1, ItemsText(items, fmt, d))
    requires items != [] && depth < NESTING_LIMIT ==>
      ParseItems(c, off + 1, depth + 1) == Back(items, off + 1 + |ItemsText(items, fmt, d)|, depth + 1 + NestItems(items) <= NESTING_LIMIT)
    ensures ParseValue(c, off, depth) == Back(Arr(items), off + 1 + |ItemsText(items, fmt, d)|, depth + 1 + NestItems(items) <= NESTING_LIMIT)
  {
    hide Starts, ParseItems, Skip, ItemsText;
    NoWords(c, off);
    ItemsFirst(items, fmt, d);
    StartsAt(c, off + 1, ItemsText(items, fmt, d), 0);
    SkipNothing(c, off + 1);
  }

  lemma ItemsFirst(items: seq<Json>, fmt: bool, d: nat)
    requires forall i :: 0 <= i < |items| ==> Plain(items[i])
    ensures var t := ItemsText(items, fmt, d); |t| > 0 && t[0] > 32 && (t[0] == CLOSE_BRACKET <==> items == [])
    ensures items == [] ==> |ItemsText(items, fmt, d)| == 1
  {
    hide Text, Plain;
    if items != [] { FirstByte(items[0], fmt, d); }
  }

  lemma {:induction false} ParseItemsText(items: seq<Json>, fmt: bool, d: nat, c: text, off: nat, depth: nat)
    requires items != [] && (forall i :: 0 <= i < |items| ==> Plain(items[i])) && depth <= NESTING_LIMIT
    requires Starts(c, off, ItemsText(items, fmt, d))
    ensures ParseItems(c, off, depth) == Back(items, off + |ItemsText(items, fmt, d)|, depth + NestItems(items) <= NESTING_LIMIT)
    decreases items, 0
  {
    hide Starts, ParseValue, Text, Skip, Plain, Ends, NextItem;
    var t, rest := Text(items[0], fmt, d), items[1..];
    var e := off + |t|;
    StartsSplit(c, off, t, NextItem(rest, fmt, d));
    AfterItem(rest, fmt, d, c, e);
    ParseText(items[0], fmt, d, c, off, depth);
    assert items == [items[0]] + rest;
    if rest == [] {
      assert items == [items[0]];
    } else {
      ParseItemsText(rest, fmt, d, c, Skip(c, e + 1), depth);
    }
  }

  /** Behind an item: the closing bracket, or a comma and the next item. */
  lemma AfterItem(rest: seq<Json>, fmt: bool, d: nat, c: text, e: nat)
    requires (forall i :: 0 <= i < |rest| ==> Plain(rest[i])) && Starts(c, e, NextItem(rest, fmt, d))
    ensures Ends(c, e) && e < |c| && Skip(c, e) == e && (rest == [] ==> c[e] == CLOSE_BRACKET && |NextItem(rest, fmt, d)| == 1)
    ensures rest != [] ==>
      && c[e] == COMMA && Starts(c, Skip(c, e + 1), ItemsText(rest, fmt, d))
      && e + |NextItem(rest, fmt, d)| == Skip(c, e + 1) + |ItemsText(rest, fmt, d)|
  {
    hide Starts, Skip, ItemsText, Plain;
    if rest == [] {
      StartsAt(c, e, [CLOSE_BRACKET], 0);
    } else {
      ItemsFirst(rest, fmt, d);
      First(c, e, COMMA, Gap(fmt, SPACE) + ItemsText(rest, fmt, d));
      SkipTo(c, e + 1, Gap(fmt, SPACE), ItemsText(rest, fmt, d));
    }
    SkipNothing(c, e);
  }

  // ---------------------------------------------------------------------
  // Objects
  // ---------------------------------------------------------------------

  /** Where the first name is, or the closing brace. */
  lemma MembersFirst(ms: seq<Member>, fmt: bool, d: nat, c: text, off: nat)
    requires Starts(c, off, MembersText(ms, fmt, d))
    ensures var p := Skip(c, off);
      && p < |c| && p == off + |Lead(fmt, if ms == [] then d else d + 1)| && off < |c|
      && (ms == [] ==> c[p] == CLOSE_BRACE && p + 1 == off + |MembersText(ms, fmt, d)|)
      && (ms != [] ==> c[p] == QUOTE)
  {
    hide Starts, Skip, Text, EscapeAll, NextMember;
    if ms == [] {
      SkipTo(c, off, Lead(fmt, d), [CLOSE_BRACE]);
    } else {
      var t := Quoted(ms[0].key) + ([COLON] + (Gap(fmt, TAB) + (Text(ms[0].value, fmt, d + 1) + NextMember(ms[1..], fmt, d))));
      SkipTo(c, off, Lead(fmt, d + 1), t);
    }
  }

  /** A new line in front of members makes no difference. */
  lemma MembersAfterLine(ms: seq<Member>, fmt: bool, d: nat, c: text, off: nat)
    requires Starts(c, off, Line(fmt)) && Starts(c, off + |Line(fmt)|, MembersText(ms, fmt, d))
    ensures off <= |c| && off + |Line(fmt)| < |c| && Skip(c, off) == Skip(c, off + |Line(fmt)|)
  {
    hide Skip, MembersText, Line;
    MembersFirst(ms, fmt, d, c, off + |Line(fmt)|);
    SkipOver(c, off, Line(fmt));
  }

  lemma ObjectBack(ms: seq<Member>, fmt: bool, d: nat, c: text, off: nat, depth: nat)
    requires off < |c| && c[off] == OPEN_BRACE && Starts(c, off + 1, Line(fmt))
    requires var e := off + 1 + |Line(fmt)|;
      && Starts(c, e, MembersText(ms, fmt, d)) && e <= |c|
      && (ms != [] && depth < NESTING_LIMIT ==>
        && Skip(c, e) < |c|
        && ParseMembers(c, Skip(c, e), depth + 1) == Back(ms, e + |MembersText(ms, fmt, d)|, depth + 1 + NestMembers(ms) <= NESTING_LIMIT))
    ensures ParseValue(c, off, depth) ==
      Back(Obj(ms), off + 1 + |Line(fmt)| + |MembersText(ms, fmt, d)|, depth + 1 + NestMembers(ms) <= NESTING_LIMIT)
  {
    hide Starts, ParseMembers, Skip, MembersText, Line, Lead;
    NoWords(c, off);
    MembersAfterLine(ms, fmt, d, c, off + 1);
    MembersFirst(ms, fmt, d, c, off + 1 + |Line(fmt)|);
  }

  /** Where the parts of the first member are. */
  lemma MemberParts(ms: seq<Member>, fmt: bool, d: nat, c: text, off: nat)
    requires ms != [] && Plain(ms[0].value) && CString(ms[0].key) && Starts(c, off, MembersText(ms, fmt, d))
    ensures var p := Skip(c, off);
      var e := p + |Quoted(ms[0].key)|;
      && off < |c| && p < |c| && e < |c| && ParseString(c, p) == Ok(ms[0].key, e)
      && Skip(c, e) == e && c[e] == COLON
      && var q := Skip(c, e + 1);
         var z := q + |Text(ms[0].value, fmt, d + 1)|;
         && Starts(c, q, Text(ms[0].value, fmt, d + 1)) && Starts(c, z, NextMember(ms[1..], fmt, d))
         && off + |MembersText(ms, fmt, d)| == z + |NextMember(ms[1..], fmt, d)|
  {
    hide Starts, Skip, Text, Quoted, NextMember, Lead, ParseString;
    var v := Text(ms[0].value, fmt, d + 1) + NextMember(ms[1..], fmt, d);
    var colon := [COLON] + (Gap(fmt, TAB) + v);
    StartsSplit(c, off, Lead(fmt, d + 1), Quoted(ms[0].key) + colon);
    MembersFirst(ms, fmt, d, c, off);
    var p := off + |Lead(fmt, d + 1)|;
    StartsSplit(c, p, Quoted(ms[0].key), colon);
    StringBack(ms[0].key, c, p);
    var e := p + |Quoted(ms[0].key)|;
    First(c, e, COLON, Gap(fmt, TAB) + v);
    SkipNothing(c, e);
    FirstByte(ms[0].value, fmt, d + 1);
    SkipTo(c, e + 1, Gap(fmt, TAB), v);
    StartsSplit(c, e + 1 + |Gap(fmt, TAB)|, Text(ms[0].value, fmt, d + 1), NextMember(ms[1..], fmt, d));
  }

  /** Behind a member: the closing brace, or a comma and the next member. */
  lemma AfterMember(rest: seq<Member>, fmt: bool, d: nat, c: text, z: nat)
    requires Starts(c, z, NextMember(rest, fmt, d))
    ensures Ends(c, z) && z < |c|
    ensures rest == [] ==>
      Skip(c, z) < |c| && c[Skip(c, z)] == CLOSE_BRACE && Skip(c, z) + 1 == z + |NextMember(rest, fmt, d)|
    ensures rest != [] ==>
      && Skip(c, z) == z && c[z] == COMMA && z + 1 < |c|
      && var o := z + 1 + |Line(fmt)|;
         && o < |c| && Skip(c, z + 1) == Skip(c, o) && Starts(c, o, MembersText(rest, fmt, d))
         && z + |NextMember(rest, fmt, d)| == o + |MembersText(rest, fmt, d)|
  {
    hide Starts, Skip, MembersText, Line;
    var t := Line(fmt) + MembersText(rest, fmt, d);
    if rest == [] {
      assert [] + t == t;
      StartsSplit(c, z, Line(fmt), MembersText(rest, fmt, d));
      MembersAfterLine(rest, fmt, d, c, z);
      MembersFirst(rest, fmt, d, c, z + |Line(fmt)|);
      NoNumber(fmt, d, c, z);
    } else {
      First(c, z, COMMA, t);
      SkipNothing(c, z);
      StartsSplit(c, z + 1, Line(fmt), MembersText(rest, fmt, d));
      MembersAfterLine(rest, fmt, d, c, z + 1);
    }
  }

  lemma NoNumber(fmt: bool, d: nat, c: text, z: nat)
    requires Starts(c, z, Line(fmt)) && Starts(c, z + |Line(fmt)|, MembersText([], fmt, d))
    ensures z < |c| && Ends(c, z)
  {
    hide Starts;
    if fmt {
      StartsAt(c, z, Line(fmt), 0);
    } else {
      assert MembersText([], fmt, d) == [CLOSE_BRACE] + [] && z + |Line(fmt)| == z;
      First(c, z, CLOSE_BRACE, []);
    }
  }

  /** Members printed and parsed, the parser starting at the first name. */
  lemma {:induction false} ParseMembersText(ms: seq<Member>, fmt: bool, d: nat, c: text, off: nat, depth: nat)
    requires ms != [] && (forall i :: 0 <= i < |ms| ==> CString(ms[i].key) && Plain(ms[i].value)) && depth <= NESTING_LIMIT
    requires Starts(c, off, MembersText(ms, fmt, d))
    ensures off < |c| && Skip(c, off) < |c| && ParseMembers(c, Skip(c, off), depth) ==
      Back(ms, off + |MembersText(ms, fmt, d)|, depth + NestMembers(ms) <= NESTING_LIMIT)
    decreases ms, 0
  {
    hide Starts, ParseValue, ParseString, Skip, Quoted, Text, Plain, CString, Line, MembersText, NextMember, Ends;
    var m, rest := ms[0], ms[1..];
    MemberParts(ms, fmt, d, c, off);
    var q := Skip(c, Skip(c, off) + |Quoted(m.key)| + 1);
    var z := q + |Text(m.value, fmt, d + 1)|;
    AfterMember(rest, fmt, d, c, z);
    ParseText(m.value, fmt, d + 1, c, q, depth);
    assert ms == [m] + rest;
    if rest == [] {
      assert ms == [m];
    } else {
      ParseMembersText(rest, fmt, d, c, z + 1 + |Line(fmt)|, depth);
    }
  }

  // ---------------------------------------------------------------------
  // Whole texts
  // ---------------------------------------------------------------------

  /** Printing and parsing gives the tree back, compact or formatted, if and
      only if it is nested a thousand deep at most. */
  lemma RoundTrip(v: Json, fmt: bool)
    requires Plain(v)
    ensures (Parse(Text(v, fmt, 0) + [0]) == Ok(v, |Text(v, fmt, 0)|)) <==> Nest(v) <= NESTING_LIMIT
    ensures Nest(v) > NESTING_LIMIT ==> Parse(Text(v, fmt, 0) + [0]) == Fail
  {
    hide Text, ParseValue, Nest, Plain;
    var t := Text(v, fmt, 0);
    var c := t + [0];
    FirstByte(v, fmt, 0);
    NoMark(v, fmt);
    assert |c| > 4 ==> c[..3][0] == c[0];
    SkipNothing(c, 0);
    assert Starts(c, 0, t);
    ParseText(v, fmt, 0, c, 0, 0);
  }

  lemma NoMark(v: Json, fmt: bool)
    requires Plain(v)
    ensures |Text(v, fmt, 0)| > 0 && Text(v, fmt, 0)[0] != 0xEF
  {
    if v.Num? { DecimalBack(v.n); }
  }
}
