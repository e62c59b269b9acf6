/** The printer at work on its buffer, which grows as needed. */
module JsonPrinter {
  import opened Common
  import opened JsonText
  import opened JsonParse
  import opened JsonStrings
  import opened JsonRoundTrip

  /** Printed text holds no zero byte, so its end is where the first zero is. */
  lemma {:induction false} TextSolid(v: Json, fmt: bool, d: nat)
    requires Plain(v)
    ensures CString(Text(v, fmt, d))
    decreases v, 1
  {
    hide Quoted, Decimal;
    match v
    case Null =>
    case Bool(_) =>
    case Num(n) => DecimalBack(n);
    case Str(s) => QuotedSolid(s);
    case Arr(items) => ItemsSolid(items, fmt, d + 1);
    case Obj(ms) => MembersSolid(ms, fmt, d);
  }

  lemma QuotedSolid(s: text)
    ensures CString(Quoted(s))
  {
    EscapedSolid(s);
  }

  lemma {:induction false} ItemsSolid(items: seq<Json>, fmt: bool, d: nat)
    requires forall i :: 0 <= i < |items| ==> Plain(items[i])
    ensures CString(ItemsText(items, fmt, d))
    decreases items, 0
  {
    hide Text, Plain;
    if items != [] {
      TextSolid(items[0], fmt, d);
      ItemsSolid(items[1..], fmt, d);
    }
  }

  lemma {:induction false} MembersSolid(ms: seq<Member>, fmt: bool, d: nat)
    requires forall i :: 0 <= i < |ms| ==> CString(ms[i].key) && Plain(ms[i].value)
    ensures CString(MembersText(ms, fmt, d))
    decreases ms, 0
  {
    hide Text, Plain, Quoted;
    if ms != [] {
      QuotedSolid(ms[0].key);
      TextSolid(ms[0].value, fmt, d + 1);
      MembersSolid(ms[1..], fmt, d);
      CatSolid(Line(fmt), MembersText(ms[1..], fmt, d));
      CatSolid(if ms[1..] == [] then [] else [COMMA], Line(fmt) + MembersText(ms[1..], fmt, d));
      var t4 := Text(ms[0].value, fmt, d + 1) + NextMember(ms[1..], fmt, d);
      CatSolid(Text(ms[0].value, fmt, d + 1), NextMember(ms[1..], fmt, d));
      CatSolid(Gap(fmt, TAB), t4);
      CatSolid([COLON], Gap(fmt, TAB) + t4);
      CatSolid(Quoted(ms[0].key), [COLON] + (Gap(fmt, TAB) + t4));
      CatSolid(Lead(fmt, d + 1), Quoted(ms[0].key) + ([COLON] + (Gap(fmt, TAB) + t4)));
    }
  }

  lemma CatSolid(a: text, b: text)
    requires CString(a) && CString(b)
    ensures CString(a + b)
  {
  }

  lemma WriteStart(s: text)
    ensures [] + EscapeAll(s[0..]) == EscapeAll(s)
  {
    assert s[0..] == s;
    assert [] + EscapeAll(s) == EscapeAll(s);
  }

  lemma WriteStep(s: text, i: nat, done: text)
    requires i < |s| && done + EscapeAll(s[i..]) == EscapeAll(s)
    ensures done + EscapeOne(s[i]) + EscapeAll(s[i + 1..]) == EscapeAll(s)
    ensures |done + EscapeOne(s[i])| <= |EscapeAll(s)|
  {
    hide EscapeOne, EscapeAll;
    EscapeCons(s, i);
    Group(done, EscapeOne(s[i]), EscapeAll(s[i + 1..]));
  }

  lemma EscapeCons(s: text, i: nat)
    requires i < |s|
    ensures EscapeAll(s[i..]) == EscapeOne(s[i]) + EscapeAll(s[i + 1..])
  {
    hide EscapeOne;
    assert s[i..][1..] == s[i + 1..];
  }

  lemma Group(a: text, b: text, c: text)
    ensures a + (b + c) == a + b + c && |a + b| <= |a + b + c|
  {
  }

  lemma WriteEnd(s: text, done: text)
    requires done + EscapeAll(s[|s|..]) == EscapeAll(s)
    ensures done == EscapeAll(s)
  {
    assert s[|s|..] == [];
    assert done + [] == done;
  }

  lemma Regroup(a: text, b: text, c: text)
    ensures a + ([QUOTE] + b) + c == a + ([QUOTE] + (b + c))
  {
  }

  // ---------------------------------------------------------------------
  // Pieces of arrays and objects
  // ---------------------------------------------------------------------

  function Separator(fmt: bool): text { [COMMA] + Gap(fmt, SPACE) }

  lemma ItemPieces(items: seq<Json>, i: nat, fmt: bool, d: nat, t: text)
    requires i < |items|
    ensures i + 1 < |items| ==>
      t + ItemsText(items[i..], fmt, d) == t + Text(items[i], fmt, d) + Separator(fmt) + ItemsText(items[i + 1..], fmt, d)
    ensures i + 1 == |items| ==>
      t + ItemsText(items[i..], fmt, d) == t + Text(items[i], fmt, d) + ItemsText(items[i + 1..], fmt, d)
  {
    hide Text, Gap;
    var v, rest := Text(items[i], fmt, d), items[i + 1..];
    assert items[i..][0] == items[i] && items[i..][1..] == rest;
    if rest == [] {
      Group(t, v, ItemsText(rest, fmt, d));
    } else {
      var more := ItemsText(rest, fmt, d);
      Group([COMMA], Gap(fmt, SPACE), more);
      Group(t, v, Separator(fmt) + more);
      Group(t + v, Separator(fmt), more);
    }
  }

  function MemberEnd(fmt: bool, last: bool): text { (if last then [] else [COMMA]) + Line(fmt) }

  function Colon(fmt: bool): text { [COLON] + Gap(fmt, TAB) }

  function MemberText(m: Member, fmt: bool, d: nat, last: bool): text {
    Lead(fmt, d + 1) + Quoted(m.key) + Colon(fmt) + Text(m.value, fmt, d + 1) + MemberEnd(fmt, last)
  }

  lemma MemberPieces(ms: seq<Member>, i: nat, fmt: bool, d: nat)
    requires i < |ms|
    ensures MembersText(ms[i..], fmt, d) == MemberText(ms[i], fmt, d, i + 1 == |ms|) + MembersText(ms[i + 1..], fmt, d)
  {
    hide Text, Quoted, MembersText, Lead, Gap, Line;
    var m, rest := ms[i], MembersText(ms[i + 1..], fmt, d);
    MembersUnfold(ms[i..], fmt, d);
    assert ms[i..][0] == m && ms[i..][1..] == ms[i + 1..];
    var a, b, c, v, e := Lead(fmt, d + 1), Quoted(m.key), Colon(fmt), Text(m.value, fmt, d + 1), MemberEnd(fmt, i + 1 == |ms|);
    Group(if i + 1 == |ms| then [] else [COMMA], Line(fmt), rest);
    Group([COLON], Gap(fmt, TAB), v + (e + rest));
    Group(a, b, c + (v + (e + rest)));
    Group(a + b, c, v + (e + rest));
    Group(a + b + c, v, e + rest);
    Group(a + b + c + v, e, rest);
  }

  lemma MembersUnfold(ms: seq<Member>, fmt: bool, d: nat)
    requires ms != []
    ensures MembersText(ms, fmt, d) ==
      Lead(fmt, d + 1) + (Quoted(ms[0].key) + ([COLON] + (Gap(fmt, TAB)
      + (Text(ms[0].value, fmt, d + 1) + ((if ms[1..] == [] then [] else [COMMA]) + (Line(fmt) + MembersText(ms[1..], fmt, d)))))))
  {
  }

  lemma NoItems(fmt: bool, d: nat)
    ensures ItemsText([], fmt, d) == [CLOSE_BRACKET]
  {
  }

  lemma NoMembers(fmt: bool, d: nat)
    ensures MembersText([], fmt, d) == Lead(fmt, d) + [CLOSE_BRACE]
  {
  }

  lemma SuffixSolid(all: text, was: text, t: text, from: nat)
    requires all == was + t && CString(t) && |was| <= from <= |all|
    ensures forall i :: from <= i < |all| ==> all[i] != 0
  {
  }

  class Printer {
    var buffer: array<octet>
    var offset: nat
    var depth: nat
    const format: bool
    const noalloc: bool
    /** The largest block the allocator gives, and what it is filled with. */
    const limit: nat
    const junk: octet

    constructor (size: nat, fmt: bool, fixed: bool, most: nat, fill: octet)
      requires size > 0
      ensures offset == 0 && depth == 0 && format == fmt && noalloc == fixed && limit == most && junk == fill
      ensures fresh(buffer) && buffer.Length == size
    {
      format, noalloc, limit, junk := fmt, fixed, most, fill;
      buffer := new octet[size](_ => fill);
      offset, depth := 0, 0;
    }

    /** How large the buffer may become. */
    function Room(): int {
      if noalloc then 0 else if limit < INT_MAX then limit else INT_MAX
    }

    /** `ensure`: room for some bytes and one more behind the offset. */
    method Ensure(needed: nat) returns (ok: bool)
      requires offset < buffer.Length
      modifies this`buffer
      ensures buffer == old(buffer) || fresh(buffer)
      ensures ok ==> offset + needed < buffer.Length && buffer[..offset] == old(buffer[..offset])
      ensures !ok ==> 2 * (offset + needed + 1) > Room()
    {
      if needed > INT_MAX { return false; }
      var total := needed + offset + 1;
      if total <= buffer.Length { return true; }
      if noalloc { return false; }
      var newsize: nat;
      if total > INT_MAX / 2 {
        if total > INT_MAX { return false; }
        newsize := INT_MAX;
      } else {
        newsize := 2 * total;
      }
      if newsize > limit { return false; }
      var bigger := new octet[newsize](_ => junk);
      var i: nat := 0;
      while i <= offset
        invariant buffer == old(buffer) && buffer[..] == old(buffer[..])
        invariant i <= offset + 1 && forall k :: 0 <= k < i ==> bigger[k] == buffer[k]
      {
        bigger[i] := buffer[i];
        i := i + 1;
      }
      buffer := bigger;
      ok := true;
    }

    /** The buffer's text up to a zero byte that the offset has not passed. */
    ghost predicate Terminated(all: text)
      reads this, buffer
    {
      |all| < buffer.Length && buffer[..|all|] == all && buffer[|all|] == 0 && offset <= |all|
    }

    /** Bytes put somewhere. */
    method StoreAt(p: nat, t: text)
      requires p + |t| <= buffer.Length
      modifies buffer
      ensures buffer[..p + |t|] == old(buffer[..p]) + t
    {
      var i: nat := 0;
      ghost var was := buffer[..p];
      while i < |t|
        invariant i <= |t| && buffer[..p + i] == was + t[..i]
      {
        buffer[p + i] := t[i];
        i := i + 1;
      }
      assert t[..|t|] == t;
    }

    /** Bytes put at the offset, without moving it. */
    method Store(t: text)
      requires offset + |t| <= buffer.Length
      modifies buffer
      ensures buffer[..offset + |t|] == old(buffer[..offset]) + t
    {
      StoreAt(offset, t);
    }

    /** Bytes put at the offset, which moves behind them. */
    method Append(t: text, needed: nat) returns (ok: bool)
      requires offset < buffer.Length && |t| <= needed
      modifies this`buffer, this`offset, buffer
      ensures buffer == old(buffer) || fresh(buffer)
      ensures ok ==> offset == old(offset) + |t| < buffer.Length && buffer[..offset] == old(buffer[..offset]) + t
      ensures !ok ==> 2 * (old(offset) + needed + 1) > Room() && offset == old(offset)
    {
      ok := Ensure(needed);
      if ok {
        Store(t);
        offset := offset + |t|;
      }
    }

    /** Bytes and a zero put at the offset, which stays. */
    method Finish(t: text, needed: nat) returns (ok: bool)
      requires offset < buffer.Length && |t| <= needed
      modifies this`buffer, buffer
      ensures buffer == old(buffer) || fresh(buffer)
      ensures ok ==> Terminated(old(buffer[..offset]) + t)
      ensures !ok ==> 2 * (offset + needed + 1) > Room()
    {
      ok := Ensure(needed);
      if ok {
        ghost var was := buffer[..offset];
        Store(t + [0]);
        assert buffer[..offset + |t|] == buffer[..offset + |t + [0]|][..offset + |t|];
        assert buffer[offset + |t|] == buffer[..offset + |t + [0]|][offset + |t|];
        assert was + (t + [0]) == (was + t) + [0];
      }
    }

    /** `update_offset`: to the zero. */
    method UpdateOffset(ghost all: text)
      requires Terminated(all) && forall i :: offset <= i < |all| ==> all[i] != 0
      modifies this`offset
      ensures offset == |all| && offset < buffer.Length && buffer[..offset] == all
    {
      assert forall i :: offset <= i < |all| ==> buffer[i] == buffer[..|all|][i];
      while buffer[offset] != 0
        invariant offset <= |all|
        invariant forall i :: offset <= i < |all| ==> buffer[i] != 0
        decreases |all| - offset
      {
        offset := offset + 1;
      }
    }

    /** `print_string_ptr`: a counting pass, then a copying or a writing one into
        the space counted. */
    method PrintString(s: text) returns (ok: bool)
      requires offset < buffer.Length && CString(s)
      modifies this`buffer, buffer
      ensures buffer == old(buffer) || fresh(buffer)
      ensures ok ==> Terminated(old(buffer[..offset]) + Quoted(s))
      ensures !ok ==> 2 * (offset + |Quoted(s)| + 2) > Room()
    {
      hide EscapeOne, Extra;
      var escapes := CountExtra(s);
      CountIsWritten(s);
      var length := |s| + escapes;
      ok := Ensure(length + 3);
      if !ok { return; }
      ghost var was := buffer[..offset];
      assert was == old(buffer[..offset]);
      if escapes == 0 {
        var t := [QUOTE] + s + [QUOTE, 0];
        Store(t);
        assert t == Quoted(s) + [0];
      } else {
        WriteEscaped(s, length);
      }
      assert buffer[..offset + length + 3] == was + (Quoted(s) + [0]);
      TerminatedBy(was, Quoted(s));
    }

    /** Text with a zero behind it is terminated. */
    lemma TerminatedBy(was: text, t: text)
      requires offset == |was| && offset + |t| < buffer.Length && buffer[..offset + |t| + 1] == was + (t + [0])
      ensures Terminated(was + t)
    {
      var all := was + (t + [0]);
      assert buffer[..offset + |t|] == all[..offset + |t|];
      assert all[..offset + |t|] == was + t;
      assert buffer[offset + |t|] == all[offset + |t|];
    }

    /** The counting pass. */
    method CountExtra(s: text) returns (n: nat)
      ensures n == ExtraAll(s)
    {
      hide Extra;
      n := 0;
      var i: nat := 0;
      while i < |s|
        invariant i <= |s| && n == ExtraAll(s[..i])
      {
        assert s[..i + 1] == s[..i] + [s[i]];
        EscapeSnoc(s[..i], s[i]);
        n := n + Extra(s[i]);
        i := i + 1;
      }
      assert s[..|s|] == s;
    }

    /** The writing pass, into room for what was counted. */
    method WriteEscaped(s: text, length: nat)
      requires length == |EscapeAll(s)| && offset + length + 3 <= buffer.Length
      modifies buffer
      ensures buffer[..offset + length + 3] == old(buffer[..offset]) + (Quoted(s) + [0])
    {
      hide EscapeOne, EscapeAll;
      ghost var was := buffer[..offset];
      StoreAt(offset, [QUOTE]);
      var p := offset + 1;
      var i: nat := 0;
      ghost var done: text := [];
      WriteStart(s);
      assert was + [QUOTE] == was + ([QUOTE] + done);
      while i < |s|
        invariant i <= |s| && p == offset + 1 + |done| && done + EscapeAll(s[i..]) == EscapeAll(s)
        invariant buffer[..p] == was + ([QUOTE] + done)
      {
        WriteStep(s, i, done);
        var e := EscapeOne(s[i]);
        StoreAt(p, e);
        Regroup(was, done, e);
        done := done + e;
        p := p + |e|;
        i := i + 1;
      }
      WriteEnd(s, done);
      StoreAt(p, [QUOTE, 0]);
      assert was + ([QUOTE] + EscapeAll(s)) + [QUOTE, 0] == was + (Quoted(s) + [0]);
    }

    /** `print_value`: the value's text, ended by a zero, behind what was there. */
    method PrintValue(v: Json) returns (ok: bool)
      requires offset < buffer.Length && Plain(v)
      modifies this`buffer, this`offset, this`depth, buffer
      ensures (buffer == old(buffer) || fresh(buffer)) && old(offset) <= offset
      ensures ok ==> Terminated(old(buffer[..offset]) + Text(v, format, old(depth))) && depth == old(depth)
      ensures !ok ==> 2 * (old(offset) + |Text(v, format, old(depth))| + 2) > Room()
      decreases v, 1
    {
      hide Quoted, ItemsText, MembersText, Terminated, Room, Decimal;
      match v
      case Null => ok := Finish(NULL_WORD, 5);
      case Bool(b) => if b { ok := Finish(TRUE_WORD, 5); } else { ok := Finish(FALSE_WORD, 6); }
      case Num(n) => ok := PrintNumber(n);
      case Str(s) => ok := PrintString(s);
      case Arr(items) => ok := PrintArray(items);
      case Obj(ms) => ok := PrintObject(ms);
    }

    method PrintNumber(n: int) returns (ok: bool)
      requires offset < buffer.Length
      modifies this`buffer, this`offset, buffer
      ensures (buffer == old(buffer) || fresh(buffer)) && old(offset) <= offset
      ensures ok ==> Terminated(old(buffer[..offset]) + Decimal(n))
      ensures !ok ==> 2 * (old(offset) + |Decimal(n)| + 2) > Room()
    {
      hide Decimal, Room;
      var t := Decimal(n);
      ok := Finish(t, |t| + 1);
      if ok { offset := offset + |t|; }
    }

    /** `print_array`. */
    method PrintArray(items: seq<Json>) returns (ok: bool)
      requires offset < buffer.Length && forall i :: 0 <= i < |items| ==> Plain(items[i])
      modifies this`buffer, this`offset, this`depth, buffer
      ensures (buffer == old(buffer) || fresh(buffer)) && old(offset) <= offset
      ensures var t := [OPEN_BRACKET] + ItemsText(items, format, old(depth) + 1);
        && (ok ==> Terminated(old(buffer[..offset]) + t) && depth == old(depth))
        && (!ok ==> 2 * (old(offset) + |t| + 2) > Room())
      decreases items, 0
    {
      hide Text, ItemsText, Plain, Gap, Room;
      ghost var was, d := buffer[..offset], depth + 1;
      ghost var whole := [OPEN_BRACKET] + ItemsText(items, format, d);
      ok := Append([OPEN_BRACKET], 1);
      if !ok { return; }
      depth := depth + 1;
      ghost var t: text := [OPEN_BRACKET];
      var i: nat := 0;
      assert items[0..] == items;
      while i < |items|
        invariant i <= |items| && depth == d && (buffer == old(buffer) || fresh(buffer)) && old(offset) <= offset < buffer.Length
        invariant buffer[..offset] == was + t && t + ItemsText(items[i..], format, d) == whole
      {
        ItemPieces(items, i, format, d, t);
        ghost var v := Text(items[i], format, d);
        ok := PrintPast(items[i]);
        if !ok { return; }
        Group(was, t, v);
        t := t + v;
        if i + 1 < |items| {
          ok := Append(Separator(format), |Separator(format)| + 1);
          if !ok { return; }
          Group(was, t, Separator(format));
          t := t + Separator(format);
        }
        i := i + 1;
      }
      assert items[i..] == [];
      NoItems(format, d);
      ok := Finish([CLOSE_BRACKET], 2);
      if ok {
        Group(was, t, [CLOSE_BRACKET]);
        depth := depth - 1;
      }
    }

    /** A member with its lead, name, colon and what follows it. */
    method PrintMember(m: Member, last: bool) returns (ok: bool)
      requires offset < buffer.Length && CString(m.key) && Plain(m.value) && depth > 0
      modifies this`buffer, this`offset, this`depth, buffer
      ensures (buffer == old(buffer) || fresh(buffer)) && old(offset) <= offset
      ensures ok ==> offset < buffer.Length && buffer[..offset] == old(buffer[..offset]) + MemberText(m, format, old(depth) - 1, last) && depth == old(depth)
      ensures !ok ==> 2 * (old(offset) + |MemberText(m, format, old(depth) - 1, last)| + 2) > Room()
      decreases m, 2
    {
      hide Text, Quoted, Plain, Room, Gap, Line, Lead;
      ghost var was, d := buffer[..offset], depth;
      ghost var name, v := Lead(format, d) + Quoted(m.key), Text(m.value, format, d);
      ok := PrintName(m.key);
      if !ok { return; }
      ok := Append(Colon(format), |Colon(format)|);
      if !ok { return; }
      ok := PrintPast(m.value);
      if !ok { return; }
      ok := Append(MemberEnd(format, last), |MemberEnd(format, last)| + 1);
      if !ok { return; }
      Group(was, name, Colon(format));
      Group(was, name + Colon(format), v);
      Group(was, name + Colon(format) + v, MemberEnd(format, last));
    }

    /** A name behind its lead, and the offset behind both. */
    method PrintName(key: text) returns (ok: bool)
      requires offset < buffer.Length && CString(key)
      modifies this`buffer, this`offset, buffer
      ensures (buffer == old(buffer) || fresh(buffer)) && old(offset) <= offset
      ensures ok ==> offset < buffer.Length && buffer[..offset] == old(buffer[..offset]) + (Lead(format, depth) + Quoted(key))
      ensures !ok ==> 2 * (old(offset) + |Lead(format, depth) + Quoted(key)| + 2) > Room()
    {
      hide Quoted, Room, Lead;
      ghost var was, t, q := buffer[..offset], Lead(format, depth), Quoted(key);
      LeadTabs(depth);
      if format {
        ok := Append(Tabs(depth), depth);
        if !ok { return; }
      }
      assert was + [] == was;
      QuotedSolid(key);
      ok := PrintString(key);
      if !ok { return; }
      SuffixSolid(was + t + q, was + t, q, offset);
      UpdateOffset(was + t + q);
      Group(was, t, q);
    }

    /** A value, and the offset behind it. */
    method PrintPast(v: Json) returns (ok: bool)
      requires offset < buffer.Length && Plain(v)
      modifies this`buffer, this`offset, this`depth, buffer
      ensures (buffer == old(buffer) || fresh(buffer)) && old(offset) <= offset
      ensures ok ==> offset < buffer.Length && buffer[..offset] == old(buffer[..offset]) + Text(v, format, old(depth)) && depth == old(depth)
      ensures !ok ==> 2 * (old(offset) + |Text(v, format, old(depth))| + 2) > Room()
      decreases v, 2
    {
      hide Text, Plain, Room;
      ghost var was, t := buffer[..offset], Text(v, format, depth);
      TextSolid(v, format, depth);
      ok := PrintValue(v);
      if !ok { return; }
      SuffixSolid(was + t, was, t, offset);
      UpdateOffset(was + t);
    }

    /** `print_object`. */
    method PrintObject(ms: seq<Member>) returns (ok: bool)
      requires offset < buffer.Length && forall i :: 0 <= i < |ms| ==> CString(ms[i].key) && Plain(ms[i].value)
      modifies this`buffer, this`offset, this`depth, buffer
      ensures (buffer == old(buffer) || fresh(buffer)) && old(offset) <= offset
      ensures var t := [OPEN_BRACE] + (Line(format) + MembersText(ms, format, old(depth)));
        && (ok ==> Terminated(old(buffer[..offset]) + t) && depth == old(depth))
        && (!ok ==> 2 * (old(offset) + |t| + 2) > Room())
      decreases ms, 0
    {
      hide MembersText, Plain, CString, MemberText, Room, Line, Lead;
      ghost var was, d := buffer[..offset], depth;
      ghost var whole := [OPEN_BRACE] + (Line(format) + MembersText(ms, format, d));
      var head := [OPEN_BRACE] + Line(format);
      ok := Append(head, |head| + 1);
      if !ok { return; }
      depth := depth + 1;
      ghost var t: text := head;
      var i: nat := 0;
      assert ms[0..] == ms;
      Group([OPEN_BRACE], Line(format), MembersText(ms, format, d));
      while i < |ms|
        invariant i <= |ms| && depth == d + 1 && (buffer == old(buffer) || fresh(buffer)) && old(offset) <= offset < buffer.Length
        invariant buffer[..offset] == was + t && t + MembersText(ms[i..], format, d) == whole
      {
        MemberPieces(ms, i, format, d);
        ghost var m := MemberText(ms[i], format, d, i + 1 == |ms|);
        Group(t, m, MembersText(ms[i + 1..], format, d));
        Group(was, t, m);
        ok := PrintMember(ms[i], i + 1 == |ms|);
        if !ok { return; }
        t := t + m;
        i := i + 1;
      }
      assert ms[i..] == [];
      NoMembers(format, d);
      ghost var tail := Lead(format, d) + [CLOSE_BRACE];
      LeadTabs(d);
      ok := Finish(Lead(format, depth - 1) + [CLOSE_BRACE], if format then depth + 1 else 2);
      if ok {
        Group(was, t, tail);
        depth := depth - 1;
      }
    }

    lemma LeadTabs(d: nat)
      ensures Lead(format, d) == if format then Tabs(d) else []
    {
    }

    /** `print`: the text of a tree, and the parser's answer to it. */
    method Print(v: Json) returns (r: Option<text>)
      requires offset == 0 && depth == 0 && buffer.Length > 0 && Plain(v)
      modifies this`buffer, this`offset, this`depth, buffer
      ensures r.Some? ==> r.value == Text(v, format, 0)
      ensures r.None? ==> 2 * (|Text(v, format, 0)| + 2) > Room()
      ensures r.Some? ==> (Parse(r.value + [0]) == Ok(v, |r.value|) <==> Nest(v) <= NESTING_LIMIT)
    {
      hide Text, Plain, Room, Parse, Nest;
      RoundTrip(v, format);
      assert buffer[..0] == [];
      var ok := PrintPast(v);
      if !ok { return None; }
      assert [] + Text(v, format, 0) == Text(v, format, 0);
      r := Some(buffer[..offset]);
    }
  }
}
