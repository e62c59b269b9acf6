/** JSON trees and the text they are printed as, compact or formatted. */
module JsonText {
  import opened Common

  const INT_MAX: int := 0x7FFF_FFFF
  const INT_MIN: int := -0x8000_0000
  const NESTING_LIMIT: nat := 1000

  const TAB: octet := 9
  const NEWLINE: octet := 10
  const SPACE: octet := 32
  const QUOTE: octet := 34
  const COMMA: octet := 44
  const MINUS: octet := 45
  const ZERO: octet := 48
  const COLON: octet := 58
  const OPEN_BRACKET: octet := 91
  const BACKSLASH: octet := 92
  const CLOSE_BRACKET: octet := 93
  const LETTER_U: octet := 117
  const OPEN_BRACE: octet := 123
  const CLOSE_BRACE: octet := 125
  const NULL_WORD: text := [110, 117, 108, 108]
  const FALSE_WORD: text := [102, 97, 108, 115, 101]
  const TRUE_WORD: text := [116, 114, 117, 101]

  /** A tree. Strings are C strings; a number that is not a 32-bit integer is
      known by its text only. */
  datatype Json =
    | Null
    | Bool(b: bool)
    | Num(n: int)
    | Other(token: text)
    | Str(s: text)
    | Arr(items: seq<Json>)
    | Obj(members: seq<Member>)
  datatype Member = Member(key: text, value: Json)

  predicate CString(s: text) { forall i :: 0 <= i < |s| ==> s[i] != 0 }

  /** Trees of null, booleans, 32-bit integers, strings, arrays and objects. */
  predicate Plain(v: Json) {
    match v
    case Null => true
    case Bool(_) => true
    case Num(n) => INT_MIN <= n <= INT_MAX
    case Other(_) => false
    case Str(s) => CString(s)
    case Arr(items) => forall i :: 0 <= i < |items| ==> Plain(items[i])
    case Obj(ms) => forall i :: 0 <= i < |ms| ==> CString(ms[i].key) && Plain(ms[i].value)
  }

  function Max(a: nat, b: nat): nat { if a < b then b else a }

  /** How deeply arrays and objects are nested. */
  function Nest(v: Json): nat {
    match v
    case Arr(items) => 1 + NestItems(items)
    case Obj(ms) => 1 + NestMembers(ms)
    case _ => 0
  }

  function NestItems(items: seq<Json>): nat {
    if items == [] then 0 else Max(Nest(items[0]), NestItems(items[1..]))
  }

  function NestMembers(ms: seq<Member>): nat {
    if ms == [] then 0 else Max(Nest(ms[0].value), NestMembers(ms[1..]))
  }

  // ---------------------------------------------------------------------
  // Strings
  // ---------------------------------------------------------------------

  function Hex(d: nat): octet
    requires d < 16
  {
    if d < 10 then ZERO + d else 87 + d
  }

  /** The letter of a two-character escape, or none. */
  function Short(b: octet): octet {
    match b
    case 34 => 34
    case 92 => 92
    case 8 => 98
    case 12 => 102
    case 10 => 110
    case 13 => 114
    case 9 => 116
    case _ => 0
  }

  function EscapeOne(b: octet): (r: text)
    ensures |r| > 0
  {
    if Short(b) != 0 then [BACKSLASH, Short(b)]
    else if b < 32 then [BACKSLASH, LETTER_U, ZERO, ZERO, Hex(b / 16), Hex(b % 16)]
    else [b]
  }

  function EscapeAll(s: text): text
    decreases s
  {
    if s == [] then [] else EscapeOne(s[0]) + EscapeAll(s[1..])
  }

  function Quoted(s: text): text { [QUOTE] + EscapeAll(s) + [QUOTE] }

  // ---------------------------------------------------------------------
  // Numbers
  // ---------------------------------------------------------------------

  function Digits(n: nat): (r: text)
    ensures |r| > 0
    decreases n
  {
    if n < 10 then [ZERO + n] else Digits(n / 10) + [ZERO + n % 10]
  }

  function Decimal(n: int): text { if n < 0 then [MINUS] + Digits(-n) else Digits(n) }

  // ---------------------------------------------------------------------
  // Values
  // ---------------------------------------------------------------------

  function Tabs(n: nat): (r: text)
    ensures |r| == n
  {
    seq(n, _ => TAB)
  }

  function Lead(fmt: bool, d: nat): (r: text)
    ensures forall i :: 0 <= i < |r| ==> r[i] <= 32
  {
    if fmt then Tabs(d) else []
  }

  function Line(fmt: bool): (r: text)
    ensures forall i :: 0 <= i < |r| ==> r[i] <= 32
  {
    if fmt then [NEWLINE] else []
  }

  /** White space behind a comma and behind a colon. */
  function Gap(fmt: bool, b: octet): (r: text)
    requires b <= 32
    ensures forall i :: 0 <= i < |r| ==> r[i] <= 32
  {
    if fmt then [b] else []
  }

  /** The text of a value at a nesting depth; only formatted objects show it. */
  function Text(v: Json, fmt: bool, d: nat): text
    decreases v, 1
  {
    match v
    case Null => NULL_WORD
    case Bool(b) => if b then TRUE_WORD else FALSE_WORD
    case Num(n) => Decimal(n)
    case Other(token) => token
    case Str(s) => Quoted(s)
    case Arr(items) => [OPEN_BRACKET] + ItemsText(items, fmt, d + 1)
    case Obj(ms) => [OPEN_BRACE] + (Line(fmt) + MembersText(ms, fmt, d))
  }

  /** Items and the closing bracket. */
  function ItemsText(items: seq<Json>, fmt: bool, d: nat): text
    decreases items, 0
  {
    if items == [] then [CLOSE_BRACKET]
    else Text(items[0], fmt, d) + NextItem(items[1..], fmt, d)
  }

  function NextItem(items: seq<Json>, fmt: bool, d: nat): text
    decreases items, 1
  {
    if items == [] then [CLOSE_BRACKET] else [COMMA] + (Gap(fmt, SPACE) + ItemsText(items, fmt, d))
  }

  /** The members of an object at a depth, and its closing brace. */
  function MembersText(ms: seq<Member>, fmt: bool, d: nat): text
    decreases ms, 0
  {
    if ms == [] then Lead(fmt, d) + [CLOSE_BRACE]
    else
      Lead(fmt, d + 1) + (Quoted(ms[0].key) + ([COLON] + (Gap(fmt, TAB)
      + (Text(ms[0].value, fmt, d + 1) + NextMember(ms[1..], fmt, d)))))
  }

  function NextMember(ms: seq<Member>, fmt: bool, d: nat): text
    decreases ms, 1
  {
    (if ms == [] then [] else [COMMA]) + (Line(fmt) + MembersText(ms, fmt, d))
  }
}
