/** Serial wire debug on the wire: a request's bits, the target's ear for them,
    and the answers it drives (section 4.2 of ADIv5). */
module DapWire {
  import opened Common
  import opened Dap

  // ---------------------------------------------------------------------
  // Bits
  // ---------------------------------------------------------------------

  /** The low bits of a number, least significant first. */
  function Bits(v: nat, n: nat): (r: seq<bool>)
    ensures |r| == n
    decreases n
  {
    if n == 0 then [] else [v % 2 == 1] + Bits(v / 2, n - 1)
  }

  function Value(bits: seq<bool>): nat
    decreases bits
  {
    if bits == [] then 0 else (if bits[0] then 1 else 0) + 2 * Value(bits[1..])
  }

  function Parity(bits: seq<bool>): bool
    decreases bits
  {
    if bits == [] then false else bits[0] != Parity(bits[1..])
  }

  /** Reading the bits of a number back gives it, if they were enough. */
  lemma {:induction false} ValueOfBits(v: nat, n: nat)
    requires v < Pow2(n)
    ensures Value(Bits(v, n)) == v
    decreases n
  {
    if n > 0 {
      ValueOfBits(v / 2, n - 1);
      assert Bits(v, n)[1..] == Bits(v / 2, n - 1);
    }
  }

  lemma {:induction false} ValueSnoc(bits: seq<bool>, b: bool)
    ensures Value(bits + [b]) == Value(bits) + (if b then Pow2(|bits|) else 0)
    decreases bits
  {
    if bits == [] {
      assert (bits + [b])[1..] == [];
    } else {
      assert (bits + [b])[1..] == bits[1..] + [b];
      ValueSnoc(bits[1..], b);
    }
  }

  lemma {:induction false} ParitySnoc(bits: seq<bool>, b: bool)
    ensures Parity(bits + [b]) == (Parity(bits) != b)
    decreases bits
  {
    if bits == [] {
      assert (bits + [b])[1..] == [];
    } else {
      assert (bits + [b])[1..] == bits[1..] + [b];
      ParitySnoc(bits[1..], b);
    }
  }

  lemma Word32()
    ensures Pow2(32) == WORD
  {
    assert Pow2(4) == 16;
    assert Pow2(8) == 256;
    assert Pow2(12) == 0x1000;
    assert Pow2(16) == 0x1_0000;
    assert Pow2(20) == 0x10_0000;
    assert Pow2(24) == 0x100_0000;
    assert Pow2(28) == 0x1000_0000;
  }

  lemma WordBack(v: nat)
    requires v < WORD
    ensures Value(Bits(v, 32)) == v
  {
    Word32();
    ValueOfBits(v, 32);
  }

  // ---------------------------------------------------------------------
  // Requests
  // ---------------------------------------------------------------------

  /** An access to one of four registers of the debug port or an access port. */
  datatype Request = Request(ap: bool, read: bool, reg: nat, data: nat)

  predicate Proper(q: Request) { q.reg < 4 && q.data < WORD && (q.read ==> q.data == 0) }

  function Raw(x: Xfer): Request {
    match x
    case SetSelect(v) => Request(false, false, 2, v)
    case SetTar(v) => Request(true, false, 1, v)
    case ReadDrw(_) => Request(true, true, 3, 0)
    case ReadBuff(_) => Request(false, true, 3, 0)
    case WriteDrw(v) => Request(true, false, 3, v)
    case Abort => Request(false, false, 0, 0x1e)
  }

  /** The values a transfer carries are words. */
  predicate Fits(x: Xfer) {
    match x
    case SetSelect(v) => v < WORD
    case SetTar(v) => v < WORD
    case WriteDrw(v) => v < WORD
    case _ => true
  }

  function RawAll(xs: seq<Xfer>): (r: seq<Request>)
    ensures |r| == |xs| && forall i :: 0 <= i < |xs| ==> r[i] == Raw(xs[i])
  {
    seq(|xs|, i requires 0 <= i < |xs| => Raw(xs[i]))
  }

  /** What the target understands by a request. */
  predicate Known(q: Request) {
    if q.ap then q.reg == 3 || (q.reg == 1 && !q.read)
    else if q.read then q.reg == 3
    else q.reg == 2 || q.reg == 0
  }

  function Access(q: Request): Xfer
    requires Known(q)
  {
    if q.ap then if q.reg == 1 then SetTar(q.data) else if q.read then ReadDrw(-1) else WriteDrw(q.data)
    else if q.read then ReadBuff(-1) else if q.reg == 2 then SetSelect(q.data) else Abort
  }

  /** The target does what was asked: only where the host keeps the result is
      not on the wire. */
  lemma AccessOfRaw(t: Target, x: Xfer, f: Fate)
    ensures Known(Raw(x)) && Clock(t, Access(Raw(x)), f) == Clock(t, x, f)
      && (Acked(t, Access(Raw(x)), f) <==> Acked(t, x, f)) && Raw(x).read == Reads(x)
  {
  }

  // ---------------------------------------------------------------------
  // The line
  // ---------------------------------------------------------------------

  /** One clock cycle: whether the host drives the line, and the level. */
  datatype Cycle = Cycle(drive: bool, level: bool)

  function Out(bits: seq<bool>): (r: seq<Cycle>)
    ensures |r| == |bits| && forall i :: 0 <= i < |bits| ==> r[i] == Cycle(true, bits[i])
  {
    seq(|bits|, i requires 0 <= i < |bits| => Cycle(true, bits[i]))
  }

  function Listen(n: nat): (r: seq<Cycle>)
    ensures |r| == n && forall i :: 0 <= i < n ==> r[i] == Cycle(false, false)
  {
    seq(n, _ => Cycle(false, false))
  }

  function Header(q: Request): (r: seq<bool>)
    ensures |r| == 8
  {
    var a2, a3 := q.reg % 2 == 1, q.reg / 2 % 2 == 1;
    [true, q.ap, q.read, a2, a3, ((q.ap != q.read) != a2) != a3, false, true]
  }

  /** What follows the header: turnarounds and answer, then the data if it is
      the host's. */
  function Body(q: Request): (r: seq<Cycle>)
    ensures |r| == 38
  {
    if q.read then Listen(38) else Listen(5) + Out(Bits(q.data, 32)) + Out([Parity(Bits(q.data, 32))])
  }

  function Idle(n: nat): (r: seq<Cycle>)
    ensures |r| == n
  {
    Out(seq(n, _ => false))
  }

  /** A transfer: idle cycles follow an access to an access port. */
  function Sent(q: Request): (r: seq<Cycle>)
    ensures |r| == if q.ap then 54 else 46
  {
    Out(Header(q)) + Body(q) + Idle(if q.ap then 8 else 0)
  }

  function SentAll(qs: seq<Request>): seq<Cycle>
    decreases qs
  {
    if qs == [] then [] else Sent(qs[0]) + SentAll(qs[1..])
  }

  lemma {:induction false} SentSnoc(qs: seq<Request>, q: Request)
    ensures SentAll(qs + [q]) == SentAll(qs) + Sent(q)
    decreases qs
  {
    hide Sent;
    if qs == [] {
      assert (qs + [q])[1..] == [];
    } else {
      assert (qs + [q])[1..] == qs[1..] + [q];
      SentSnoc(qs[1..], q);
    }
  }

  // ---------------------------------------------------------------------
  // The target's ear
  // ---------------------------------------------------------------------

  datatype Heard = Heard(qs: seq<Request>) | Garbled

  predicate HeaderOk(c: seq<Cycle>)
    requires |c| == 8
  {
    && (forall i :: 0 <= i < 8 ==> c[i].drive)
    && c[0].level && !c[6].level && c[7].level
    && (((c[1].level != c[2].level) != c[3].level) != c[4].level) == c[5].level
  }

  function Levels(c: seq<Cycle>): (r: seq<bool>)
    ensures |r| == |c| && forall i :: 0 <= i < |c| ==> r[i] == c[i].level
  {
    seq(|c|, i requires 0 <= i < |c| => c[i].level)
  }

  predicate Floating(c: seq<Cycle>) { forall i :: 0 <= i < |c| ==> !c[i].drive }

  predicate Driving(c: seq<Cycle>) { forall i :: 0 <= i < |c| ==> c[i].drive }

  /** The request in 46 cycles, if they make one: header with its parity, the
      line released where the target answers, and the data with its parity. */
  function HearOne(c: seq<Cycle>): Heard
    requires |c| == 46
  {
    var reg := (if c[3].level then 1 else 0) + (if c[4].level then 2 else 0);
    if !HeaderOk(c[..8]) then Garbled
    else if c[2].level then
      if Floating(c[8..]) then Heard([Request(c[1].level, true, reg, 0)]) else Garbled
    else
      var word := Levels(c[13..45]);
      if Floating(c[8..13]) && Driving(c[13..]) && c[45].level == Parity(word)
      then Heard([Request(c[1].level, false, reg, Value(word))]) else Garbled
  }

  /** Low cycles are idle; a high one starts a request. */
  function Hear(c: seq<Cycle>): Heard
    decreases c
  {
    if c == [] then Heard([])
    else if c[0] == Cycle(true, false) then Hear(c[1..])
    else if |c| < 46 then Garbled
    else
      var one := HearOne(c[..46]);
      var rest := Hear(c[46..]);
      if one.Heard? && rest.Heard? then Heard(one.qs + rest.qs) else Garbled
  }

  lemma {:induction false} HearIdle(n: nat, c: seq<Cycle>)
    ensures Hear(Idle(n) + c) == Hear(c)
    decreases n
  {
    hide HearOne;
    var all := Idle(n) + c;
    if n == 0 {
      assert all == c;
    } else {
      assert all[1..] == Idle(n - 1) + c;
      HearIdle(n - 1, c);
    }
  }

  lemma HeaderHeard(q: Request, c: seq<Cycle>)
    requires q.reg < 4 && |c| == 46 && c[..8] == Out(Header(q))
    ensures HeaderOk(c[..8]) && c[1].level == q.ap && c[2].level == q.read
    ensures (if c[3].level then 1 else 0) + (if c[4].level then 2 else 0) == q.reg
  {
    var h := Header(q);
    assert c[1] == c[..8][1] && c[2] == c[..8][2] && c[3] == c[..8][3] && c[4] == c[..8][4];
  }

  lemma ReadHeard(c: seq<Cycle>, q: Request)
    requires |c| == 46 && q.read && c[8..] == Body(q)
    ensures Floating(c[8..])
  {
  }

  lemma WriteHeard(c: seq<Cycle>, q: Request)
    requires |c| == 46 && !q.read && c[8..] == Body(q)
    ensures Floating(c[8..13]) && Driving(c[13..]) && Levels(c[13..45]) == Bits(q.data, 32)
    ensures c[45].level == Parity(Bits(q.data, 32))
  {
    hide Parity, Bits;
    var word := Bits(q.data, 32);
    var b := Body(q);
    assert b[..5] == Listen(5) && b[5..37] == Out(word) && b[37] == Cycle(true, Parity(word));
    assert c[8..13] == b[..5] && c[13..45] == b[5..37] && c[45] == b[37];
    assert c[13..] == b[5..];
    assert Levels(c[13..45]) == word;
  }

  /** The target hears the request that was sent. */
  lemma HearSent(q: Request)
    requires Proper(q)
    ensures HearOne(Out(Header(q)) + Body(q)) == Heard([q])
  {
    hide Parity, Value, Bits, Header, Body, Out, HeaderOk, Floating, Levels;
    var c := Out(Header(q)) + Body(q);
    assert c[..8] == Out(Header(q)) && c[8..] == Body(q);
    HeaderHeard(q, c);
    if q.read {
      ReadHeard(c, q);
    } else {
      WriteHeard(c, q);
      WordBack(q.data);
    }
  }

  predicate AllProper(qs: seq<Request>) { forall i :: 0 <= i < |qs| ==> Proper(qs[i]) }

  /** Any batch with its trailing idle cycles is heard as the requests queued. */
  lemma {:induction false} HearAll(qs: seq<Request>, n: nat)
    requires AllProper(qs)
    ensures Hear(SentAll(qs) + Idle(n)) == Heard(qs)
    decreases qs
  {
    hide Sent, Proper, Hear, Idle;
    if qs == [] {
      HearIdle(n, []);
      assert SentAll(qs) + Idle(n) == Idle(n) + [];
      HearNothing();
    } else {
      var rest := SentAll(qs[1..]) + Idle(n);
      assert SentAll(qs) + Idle(n) == Sent(qs[0]) + rest;
      HearAll(qs[1..], n);
      HearNext(qs[0], rest);
      assert [qs[0]] + qs[1..] == qs;
    }
  }

  lemma HearNothing()
    ensures Hear([]) == Heard([])
  {
  }

  lemma HearNext(q: Request, rest: seq<Cycle>)
    requires Proper(q) && Hear(rest).Heard?
    ensures Hear(Sent(q) + rest) == Heard([q] + Hear(rest).qs)
  {
    hide HearOne, Body, Header, Sent, Proper, Out, Idle;
    var one := Out(Header(q)) + Body(q);
    var pad := Idle(if q.ap then 8 else 0);
    SentSplits(q, rest);
    HearSent(q);
    HearIdle(if q.ap then 8 else 0, rest);
    var all := one + (pad + rest);
    assert all[..46] == one && all[46..] == pad + rest && all[0] == one[0];
  }

  lemma HeaderStarts(q: Request)
    ensures Header(q)[0]
  {
  }

  // ---------------------------------------------------------------------
  // Answers
  // ---------------------------------------------------------------------

  const ACK_OK: nat := 1
  const ACK_WAIT: nat := 2
  const ACK_FAULT: nat := 4

  /** Three bits of acknowledge; for a read the word and a parity bit. */
  datatype Answer = Answer(ack: nat, value: nat, parity: bool)

  function AckOf(t: Target, x: Xfer, f: Fate): nat {
    if Acked(t, x, f) then ACK_OK else if f == Wait then ACK_WAIT else ACK_FAULT
  }

  function Reply(t: Target, x: Xfer, f: Fate): Answer {
    var v := Clock(t, x, f).1;
    Answer(AckOf(t, x, f), v, Parity(Bits(v, 32)) != (f == BadParity))
  }

  /** The levels the target puts on the line during a transfer, and noise where
      it drives nothing. */
  function Driven(q: Request, a: Answer, noise: bool): (r: seq<bool>)
    ensures |r| == |Sent(q)|
  {
    var data := if q.read then Bits(a.value, 32) + [a.parity, noise, noise] else seq(35, _ => noise);
    seq(8, _ => noise) + Bits(a.ack, 3) + data + seq(if q.ap then 8 else 0, _ => noise)
  }

  /** All levels of a batch. */
  function DrivenAll(t: Target, qs: seq<Request>, fates: seq<Fate>, noise: bool): (r: seq<bool>)
    requires forall i :: 0 <= i < |qs| ==> Known(qs[i])
    ensures |r| == |SentAll(qs)|
    decreases qs
  {
    if qs == [] then []
    else
      var f := if fates == [] then Okay else fates[0];
      var x := Access(qs[0]);
      Driven(qs[0], Reply(t, x, f), noise) + DrivenAll(Clock(t, x, f).0, qs[1..], if fates == [] then [] else fates[1..], noise)
  }

  /** The target after a batch. */
  function After(t: Target, qs: seq<Request>, fates: seq<Fate>): Target
    requires forall i :: 0 <= i < |qs| ==> Known(qs[i])
    decreases qs
  {
    if qs == [] then t
    else
      var f := if fates == [] then Okay else fates[0];
      After(Clock(t, Access(qs[0]), f).0, qs[1..], if fates == [] then [] else fates[1..])
  }

  lemma RawTail(xs: seq<Xfer>)
    requires xs != []
    ensures RawAll(xs)[0] == Raw(xs[0]) && RawAll(xs)[1..] == RawAll(xs[1..])
  {
  }

  lemma RawKnown(xs: seq<Xfer>)
    ensures forall i :: 0 <= i < |xs| ==> Known(RawAll(xs)[i])
  {
  }

  /** A batch put on the wire leaves the target as the same batch of transfers. */
  lemma {:induction false} AfterIs(t: Target, xs: seq<Xfer>, fates: seq<Fate>, words: seq<nat>, ok: bool)
    requires forall i :: 0 <= i < |RawAll(xs)| ==> Known(RawAll(xs)[i])
    ensures After(t, RawAll(xs), fates) == Flush(t, xs, fates, words, ok).t
    decreases xs
  {
    hide Clock, Stored, Good, Access, Known;
    if xs != [] {
      var f := if fates == [] then Okay else fates[0];
      RawTail(xs);
      AccessOfRaw(t, xs[0], f);
      RawKnown(xs[1..]);
      var good := ok && Good(t, xs[0], f);
      var (t1, v) := Clock(t, xs[0], f);
      AfterIs(t1, xs[1..], if fates == [] then [] else fates[1..], if good then Stored(words, xs[0], v) else words, good);
    }
  }

  /** The target holds words. */
  predicate Wordly(t: Target) {
    t.posted < WORD && t.noise < WORD && forall a | a in t.mem :: t.mem[a] < WORD
  }

  lemma ClockWordly(t: Target, x: Xfer, f: Fate)
    requires Wordly(t) && Fits(x)
    ensures Wordly(Clock(t, x, f).0) && Clock(t, x, f).1 < WORD
  {
  }

  // ---------------------------------------------------------------------
  // The target on the line
  // ---------------------------------------------------------------------

  predicate Understood(c: seq<Cycle>)
    requires |c| == 46
  {
    var one := HearOne(c);
    one.Heard? && |one.qs| == 1 && Known(one.qs[0])
  }

  /** The levels read back while the line is clocked: silence, or an answer to
      every request heard. */
  function Drive(t: Target, c: seq<Cycle>, fates: seq<Fate>, noise: bool): (r: seq<bool>)
    ensures |r| == |c|
    decreases c
  {
    if c == [] then []
    else if c[0] == Cycle(true, false) || |c| < 46 then [noise] + Drive(t, c[1..], fates, noise)
    else if !Understood(c[..46]) then seq(46, _ => noise) + Drive(t, c[46..], fates, noise)
    else
      var q := HearOne(c[..46]).qs[0];
      var f := if fates == [] then Okay else fates[0];
      var (t1, v) := Clock(t, Access(q), f);
      Driven(q, Reply(t, Access(q), f), noise)[..46] + Drive(t1, c[46..], if fates == [] then [] else fates[1..], noise)
  }

  /** The target after the same cycles. */
  function Clocked(t: Target, c: seq<Cycle>, fates: seq<Fate>): Target
    decreases c
  {
    if c == [] then t
    else if c[0] == Cycle(true, false) || |c| < 46 then Clocked(t, c[1..], fates)
    else if !Understood(c[..46]) then Clocked(t, c[46..], fates)
    else
      var f := if fates == [] then Okay else fates[0];
      Clocked(Clock(t, Access(HearOne(c[..46]).qs[0]), f).0, c[46..], if fates == [] then [] else fates[1..])
  }

  lemma DriveLow(t: Target, c: seq<Cycle>, fates: seq<Fate>, noise: bool)
    requires c != [] && c[0] == Cycle(true, false)
    ensures Drive(t, c, fates, noise) == [noise] + Drive(t, c[1..], fates, noise)
    ensures Clocked(t, c, fates) == Clocked(t, c[1..], fates)
  {
    hide Understood, HearOne, Driven, Reply, Clock, Access;
  }

  lemma IdleTail(n: nat, c: seq<Cycle>)
    requires n > 0
    ensures (Idle(n) + c)[0] == Cycle(true, false) && (Idle(n) + c)[1..] == Idle(n - 1) + c
  {
  }

  lemma {:induction false} DriveIdle(t: Target, n: nat, c: seq<Cycle>, fates: seq<Fate>, noise: bool)
    ensures Drive(t, Idle(n) + c, fates, noise) == seq(n, _ => noise) + Drive(t, c, fates, noise)
    ensures Clocked(t, Idle(n) + c, fates) == Clocked(t, c, fates)
    decreases n
  {
    hide Drive, Clocked, Idle;
    if n == 0 {
      assert Idle(0) + c == c;
      assert seq(0, _ => noise) + Drive(t, c, fates, noise) == Drive(t, c, fates, noise);
    } else {
      IdleTail(n, c);
      DriveLow(t, Idle(n) + c, fates, noise);
      DriveIdle(t, n - 1, c, fates, noise);
      assert seq(n, _ => noise) == [noise] + seq(n - 1, _ => noise);
      assert [noise] + (seq(n - 1, _ => noise) + Drive(t, c, fates, noise)) == [noise] + seq(n - 1, _ => noise) + Drive(t, c, fates, noise);
    }
  }

  lemma DriveStep(t: Target, q: Request, one: seq<Cycle>, rest: seq<Cycle>, fates: seq<Fate>, noise: bool)
    requires |one| == 46 && one[0] == Cycle(true, true) && HearOne(one) == Heard([q]) && Known(q)
    ensures var f := if fates == [] then Okay else fates[0];
      var more := if fates == [] then [] else fates[1..];
      var t1 := Clock(t, Access(q), f).0;
      && Drive(t, one + rest, fates, noise) == Driven(q, Reply(t, Access(q), f), noise)[..46] + Drive(t1, rest, more, noise)
      && Clocked(t, one + rest, fates) == Clocked(t1, rest, more)
  {
    hide HearOne, Driven, Reply, Clock, Access, Sent, Known;
    var c := one + rest;
    assert c[..46] == one && c[46..] == rest;
  }

  lemma SentSplits(q: Request, rest: seq<Cycle>)
    ensures var one := Out(Header(q)) + Body(q);
      one[0] == Cycle(true, true) && Sent(q) + rest == one + (Idle(if q.ap then 8 else 0) + rest)
  {
    hide Body, Header;
    HeaderStarts(q);
  }

  lemma DriveOne(t: Target, q: Request, rest: seq<Cycle>, fates: seq<Fate>, noise: bool)
    requires Proper(q) && Known(q)
    ensures var f := if fates == [] then Okay else fates[0];
      var more := if fates == [] then [] else fates[1..];
      var t1 := Clock(t, Access(q), f).0;
      && Drive(t, Sent(q) + rest, fates, noise) == Driven(q, Reply(t, Access(q), f), noise) + Drive(t1, rest, more, noise)
      && Clocked(t, Sent(q) + rest, fates) == Clocked(t1, rest, more)
  {
    hide HearOne, Body, Header, Proper, Driven, Reply, Clock, Access, Sent, Drive, Clocked, Known, Out, Idle;
    var pad := if q.ap then 8 else 0;
    SentSplits(q, rest);
    HearSent(q);
    DriveStep(t, q, Out(Header(q)) + Body(q), Idle(pad) + rest, fates, noise);
    var f := if fates == [] then Okay else fates[0];
    DriveIdle(Clock(t, Access(q), f).0, pad, rest, if fates == [] then [] else fates[1..], noise);
    DrivenTail(q, Reply(t, Access(q), f), noise);
  }

  lemma DrivenTail(q: Request, a: Answer, noise: bool)
    ensures Driven(q, a, noise) == Driven(q, a, noise)[..46] + seq(if q.ap then 8 else 0, _ => noise)
  {
    hide Bits, Sent;
  }

  /** A batch as queued gets its answers, each where its transfer was. */
  lemma {:induction false} DriveAll(t: Target, qs: seq<Request>, fates: seq<Fate>, n: nat, noise: bool)
    requires AllProper(qs) && forall i :: 0 <= i < |qs| ==> Known(qs[i])
    ensures Drive(t, SentAll(qs) + Idle(n), fates, noise) == DrivenAll(t, qs, fates, noise) + seq(n, _ => noise)
    ensures Clocked(t, SentAll(qs) + Idle(n), fates) == After(t, qs, fates)
    decreases qs
  {
    hide Sent, Proper, Known, Access, Clock, Driven, Reply, Drive, Clocked;
    if qs == [] {
      assert SentAll(qs) + Idle(n) == Idle(n) + [];
      DriveIdle(t, n, [], fates, noise);
      DriveNothing(t, fates, noise);
      assert DrivenAll(t, qs, fates, noise) == [];
    } else {
      var rest := SentAll(qs[1..]) + Idle(n);
      assert SentAll(qs) + Idle(n) == Sent(qs[0]) + rest;
      DriveOne(t, qs[0], rest, fates, noise);
      var f := if fates == [] then Okay else fates[0];
      DriveAll(Clock(t, Access(qs[0]), f).0, qs[1..], if fates == [] then [] else fates[1..], n, noise);
    }
  }

  lemma DriveNothing(t: Target, fates: seq<Fate>, noise: bool)
    ensures Drive(t, [], fates, noise) == [] && Clocked(t, [], fates) == t
  {
  }

  /** Where the host looks for an answer, it is there. */
  lemma AnswerAt(q: Request, a: Answer, noise: bool)
    requires a.ack < 8
    ensures var d := Driven(q, a, noise);
      && Value(d[8..11]) == a.ack
      && (q.read ==> d[11..43] == Bits(a.value, 32) && d[43] == a.parity)
  {
    hide Bits, Sent, Value;
    var d := Driven(q, a, noise);
    assert d[8..11] == Bits(a.ack, 3);
    assert Pow2(3) == 8;
    ValueOfBits(a.ack, 3);
    if q.read {
      assert d[11..43] == Bits(a.value, 32);
    }
  }
}
