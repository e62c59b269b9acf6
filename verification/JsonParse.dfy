/** Parsing JSON text from a buffer, offset by offset. */
module JsonParse {
  import opened Common
  import opened JsonText

  datatype Parsed<T> = Ok(value: T, off: nat) | Fail

  // ---------------------------------------------------------------------
  // White space
  // ---------------------------------------------------------------------

  /** The first byte from an offset on that is not white space. */
  function Solid(c: text, off: nat): (r: nat)
    requires off <= |c|
    ensures off <= r <= |c|
    decreases |c| - off
  {
    if off < |c| && c[off] <= 32 then Solid(c, off + 1) else off
  }

  /** `buffer_skip_whitespace`: stays inside the buffer if it was. */
  function Skip(c: text, off: nat): (r: nat)
    requires off <= |c|
    ensures off <= r <= |c| && (off < |c| ==> r < |c|)
  {
    var e := Solid(c, off);
    if off < |c| && e == |c| then e - 1 else e
  }

  // ---------------------------------------------------------------------
  // Strings
  // ---------------------------------------------------------------------

  /** The closing quote, escape pairs skipped; the length if there is none. */
  function Closing(c: text, i: nat): (r: nat)
    requires i <= |c|
    ensures i <= r <= |c| && (r < |c| ==> c[r] == QUOTE)
    decreases |c| - i
  {
    if i == |c| || c[i] == QUOTE then i
    else if c[i] == BACKSLASH then if i + 1 == |c| then |c| else Closing(c, i + 2)
    else Closing(c, i + 1)
  }

  function HexValue(b: octet): (r: int)
    ensures -1 <= r < 16
  {
    if 48 <= b <= 57 then b - 48 else if 65 <= b <= 70 then b - 55 else if 97 <= b <= 102 then b - 87 else -1
  }

  /** Four hexadecimal digits, or zero. */
  function Hex4(c: text, i: nat): (r: nat)
    requires i + 4 <= |c|
    ensures r < 0x1_0000
  {
    var a, b, d, e := HexValue(c[i]), HexValue(c[i + 1]), HexValue(c[i + 2]), HexValue(c[i + 3]);
    if a < 0 || b < 0 || d < 0 || e < 0 then 0 else a * 4096 + b * 256 + d * 16 + e
  }

  predicate High(u: nat) { 0xD800 <= u <= 0xDBFF }

  predicate Low(u: nat) { 0xDC00 <= u <= 0xDFFF }

  function Pair(hi: nat, lo: nat): (r: nat)
    requires High(hi) && Low(lo)
    ensures 0x1_0000 <= r <= 0x10_FFFF
  {
    0x1_0000 + (hi - 0xD800) * 1024 + (lo - 0xDC00)
  }

  /** The bytes of a code point (section 3 of RFC 3629). */
  function Utf8(u: nat): (r: text)
    requires u <= 0x10_FFFF
    ensures 1 <= |r| <= 4
  {
    if u < 0x80 then [u]
    else if u < 0x800 then [0xC0 + u / 64, 0x80 + u % 64]
    else if u < 0x1_0000 then [0xE0 + u / 4096, 0x80 + u / 64 % 64, 0x80 + u % 64]
    else [0xF0 + u / 262144, 0x80 + u / 4096 % 64, 0x80 + u / 64 % 64, 0x80 + u % 64]
  }

  datatype Literal = Literal(len: nat, u: nat) | Bad

  /** One or two escapes of four digits, at a backslash. */
  function Utf16(c: text, i: nat, end: nat): (r: Literal)
    requires i <= end <= |c|
    ensures r.Literal? ==> r.u <= 0x10_FFFF && 6 <= r.len && i + r.len <= end
  {
    if end - i < 6 then Bad
    else
      var first := Hex4(c, i + 2);
      if Low(first) then Bad
      else if !High(first) then Literal(6, first)
      else if end - i < 12 || c[i + 6] != BACKSLASH || c[i + 7] != LETTER_U then Bad
      else
        var second := Hex4(c, i + 8);
        if Low(second) then Literal(12, Pair(first, second)) else Bad
  }

  /** The byte a two-character escape stands for; zero for none. */
  function Unshort(b: octet): octet {
    match b
    case 98 => 8
    case 102 => 12
    case 110 => 10
    case 114 => 13
    case 116 => 9
    case 34 => 34
    case 92 => 92
    case 47 => 47
    case _ => 0
  }

  /** The bytes between the quotes, decoded. */
  function Decode(c: text, i: nat, end: nat): Option<text>
    requires end < |c|
    decreases if i < end then end - i else 0
  {
    if i >= end then Some([])
    else if c[i] != BACKSLASH then Then([c[i]], Decode(c, i + 1, end))
    else if c[i + 1] == LETTER_U then
      match Utf16(c, i, end)
      case Bad => None
      case Literal(len, u) => Then(Utf8(u), Decode(c, i + len, end))
    else if Unshort(c[i + 1]) == 0 then None
    else Then([Unshort(c[i + 1])], Decode(c, i + 2, end))
  }

  function Then(s: text, rest: Option<text>): Option<text> {
    match rest
    case None => None
    case Some(r) => Some(s + r)
  }

  /** What a reader of a C string sees: the bytes before the first zero. */
  function Visible(s: text): text
    decreases s
  {
    if s == [] || s[0] == 0 then [] else [s[0]] + Visible(s[1..])
  }

  function ParseString(c: text, off: nat): (r: Parsed<text>)
    requires off < |c|
    ensures r.Ok? ==> off < r.off <= |c|
  {
    if c[off] != QUOTE then Fail
    else
      var end := Closing(c, off + 1);
      if end == |c| then Fail
      else
        match Decode(c, off + 1, end)
        case None => Fail
        case Some(s) => Ok(Visible(s), end + 1)
  }

  // ---------------------------------------------------------------------
  // Numbers
  // ---------------------------------------------------------------------

  predicate Digit(b: octet) { 48 <= b <= 57 }

  /** Digits, signs, point and exponent letters. */
  predicate Numeric(b: octet) { Digit(b) || b == 43 || b == 45 || b == 101 || b == 69 || b == 46 }

  /** The numeric bytes from an offset on, as many as the scratch buffer takes. */
  function Run(c: text, off: nat, room: nat): (r: text)
    requires off <= |c|
    ensures |r| <= room && off + |r| <= |c| && r == c[off..off + |r|]
    decreases room
  {
    if room == 0 || off == |c| || !Numeric(c[off]) then [] else [c[off]] + Run(c, off + 1, room - 1)
  }

  function DigitsEnd(r: text, i: nat): (e: nat)
    requires i <= |r|
    ensures i <= e <= |r| && forall k :: i <= k < e ==> Digit(r[k])
    decreases |r| - i
  {
    if i < |r| && Digit(r[i]) then DigitsEnd(r, i + 1) else i
  }

  function SignEnd(r: text, i: nat): (e: nat)
    requires i <= |r|
    ensures i <= e <= |r|
  {
    if i < |r| && (r[i] == 43 || r[i] == 45) then i + 1 else i
  }

  /** Where the integer part, and where the whole number that `strtod` takes
      ends; zero if there is none. */
  function NumberEnd(r: text): (e: nat)
    ensures e <= |r|
  {
    var a := SignEnd(r, 0);
    var b := DigitsEnd(r, a);
    var m := if b < |r| && r[b] == 46 then DigitsEnd(r, b + 1) else b;
    if b == a && m <= b + 1 then 0
    else if m < |r| && (r[m] == 101 || r[m] == 69) then
      var s := SignEnd(r, m + 1);
      var x := DigitsEnd(r, s);
      if x > s then x else m
    else m
  }

  function DigitValue(b: octet): nat { if Digit(b) then b - 48 else 0 }

  function Digital(r: text): nat
    decreases r
  {
    if r == [] then 0 else 10 * Digital(r[..|r| - 1]) + DigitValue(r[|r| - 1])
  }

  function NumberOf(token: text): Json {
    var a := SignEnd(token, 0);
    if DigitsEnd(token, a) == |token| then
      var n := Digital(token[a..]);
      var v: int := if a == 1 && token[0] == MINUS then 0 - (n as int) else n;
      if INT_MIN <= v <= INT_MAX then Num(v) else Other(token)
    else Other(token)
  }

  function ParseNumber(c: text, off: nat): (r: Parsed<Json>)
    requires off <= |c|
    ensures r.Ok? ==> off < r.off <= |c|
  {
    var run := Run(c, off, 63);
    var e := NumberEnd(run);
    if e == 0 then Fail else Ok(NumberOf(run[..e]), off + e)
  }

  // ---------------------------------------------------------------------
  // Values
  // ---------------------------------------------------------------------

  predicate Starts(c: text, off: nat, word: text) { off + |word| <= |c| && c[off..off + |word|] == word }

  function ParseValue(c: text, off: nat, depth: nat): (r: Parsed<Json>)
    requires off <= |c|
    ensures r.Ok? ==> off < r.off <= |c|
    decreases |c| - off, 2
  {
    if Starts(c, off, NULL_WORD) then Ok(Null, off + 4)
    else if Starts(c, off, FALSE_WORD) then Ok(Bool(false), off + 5)
    else if Starts(c, off, TRUE_WORD) then Ok(Bool(true), off + 4)
    else if off == |c| then Fail
    else if c[off] == QUOTE then
      match ParseString(c, off)
      case Fail => Fail
      case Ok(s, e) => Ok(Str(s), e)
    else if c[off] == MINUS || Digit(c[off]) then ParseNumber(c, off)
    else if c[off] == OPEN_BRACKET then ParseArray(c, off, depth)
    else if c[off] == OPEN_BRACE then ParseObject(c, off, depth)
    else Fail
  }

  function ParseArray(c: text, off: nat, depth: nat): (r: Parsed<Json>)
    requires off < |c| && c[off] == OPEN_BRACKET
    ensures r.Ok? ==> off < r.off <= |c|
    decreases |c| - off, 1
  {
    if depth >= NESTING_LIMIT then Fail
    else
      var p := Skip(c, off + 1);
      if p == |c| then Fail
      else if c[p] == CLOSE_BRACKET then Ok(Arr([]), p + 1)
      else
        match ParseItems(c, p, depth + 1)
        case Fail => Fail
        case Ok(items, e) => Ok(Arr(items), e)
  }

  /** Items from one on, with the closing bracket. */
  function ParseItems(c: text, off: nat, depth: nat): (r: Parsed<seq<Json>>)
    requires off <= |c|
    ensures r.Ok? ==> off < r.off <= |c|
    decreases |c| - off, 3
  {
    match ParseValue(c, off, depth)
    case Fail => Fail
    case Ok(v, e) =>
      var p := Skip(c, e);
      if p == |c| then Fail
      else if c[p] == COMMA then
        match ParseItems(c, Skip(c, p + 1), depth)
        case Fail => Fail
        case Ok(rest, z) => Ok([v] + rest, z)
      else if c[p] == CLOSE_BRACKET then Ok([v], p + 1)
      else Fail
  }

  function ParseObject(c: text, off: nat, depth: nat): (r: Parsed<Json>)
    requires off < |c| && c[off] == OPEN_BRACE
    ensures r.Ok? ==> off < r.off <= |c|
    decreases |c| - off, 1
  {
    if depth >= NESTING_LIMIT then Fail
    else
      var p := Skip(c, off + 1);
      if p == |c| then Fail
      else if c[p] == CLOSE_BRACE then Ok(Obj([]), p + 1)
      else
        match ParseMembers(c, p, depth + 1)
        case Fail => Fail
        case Ok(ms, e) => Ok(Obj(ms), e)
  }

  /** A name, a colon and a value. */
  function ParseMember(c: text, off: nat, depth: nat): (r: Parsed<Member>)
    requires off < |c|
    ensures r.Ok? ==> off < r.off <= |c|
    decreases |c| - off, 3
  {
    match ParseString(c, off)
    case Fail => Fail
    case Ok(key, e) =>
      var p := Skip(c, e);
      if p == |c| || c[p] != COLON then Fail
      else
        match ParseValue(c, Skip(c, p + 1), depth)
        case Fail => Fail
        case Ok(v, z) => Ok(Member(key, v), z)
  }

  /** Members from one on, with the closing brace. */
  function ParseMembers(c: text, off: nat, depth: nat): (r: Parsed<seq<Member>>)
    requires off < |c|
    ensures r.Ok? ==> off < r.off <= |c|
    decreases |c| - off, 4
  {
    match ParseMember(c, off, depth)
    case Fail => Fail
    case Ok(m, e) =>
      var p := Skip(c, e);
      if p == |c| then Fail
      else if c[p] == COMMA then
        if p + 1 == |c| then Fail
        else
          match ParseMembers(c, Skip(c, p + 1), depth)
          case Fail => Fail
          case Ok(rest, z) => Ok([m] + rest, z)
      else if c[p] == CLOSE_BRACE then Ok([m], p + 1)
      else Fail
  }

  /** `cJSON_ParseWithLengthOpts` without the final zero being asked for: a byte
      order mark and white space are skipped. */
  function Parse(c: text): Parsed<Json> {
    if c == [] then Fail
    else
      var bom := if |c| > 4 && c[..3] == [0xEF, 0xBB, 0xBF] then 3 else 0;
      ParseValue(c, Skip(c, bom), 0)
  }
}
