/** The host's transfer queue: bits gathered in byte buffers, clocked out by the
    probe in one go, and the answers picked out of what came back. */
module DapQueue {
  import opened Common
  import opened Dap
  import opened DapWire

  const XFER_BITS: nat := 54
  const IDLE_BITS: nat := 8

  // ---------------------------------------------------------------------
  // Bits in bytes
  // ---------------------------------------------------------------------

  /** One shifted left. */
  function Mask(b: nat): bv8 {
    match b
    case 0 => 1
    case 1 => 2
    case 2 => 4
    case 3 => 8
    case 4 => 16
    case 5 => 32
    case 6 => 64
    case _ => 128
  }

  predicate Has(x: bv8, b: nat) { x & Mask(b) != 0 }

  function With(x: bv8, b: nat, v: bool): bv8 { if v then x | Mask(b) else x & !Mask(b) }

  predicate Bit(bytes: seq<bv8>, k: nat)
    requires k < 8 * |bytes|
  {
    Has(bytes[k / 8], k % 8)
  }

  function BitsOf(bytes: seq<bv8>): (r: seq<bool>)
    ensures |r| == 8 * |bytes|
  {
    seq(8 * |bytes|, k requires 0 <= k < 8 * |bytes| => Bit(bytes, k))
  }

  lemma HasWith(x: bv8, a: nat, b: nat, v: bool)
    requires a < 8 && b < 8
    ensures Has(With(x, a, v), b) <==> if a == b then v else Has(x, b)
  {
  }

  function Put(bytes: seq<bv8>, k: nat, v: bool): (r: seq<bv8>)
    requires k < 8 * |bytes|
    ensures |r| == |bytes|
  {
    bytes[k / 8 := With(bytes[k / 8], k % 8, v)]
  }

  lemma PutBit(bytes: seq<bv8>, k: nat, v: bool, j: nat)
    requires k < 8 * |bytes| && j < 8 * |bytes|
    ensures Bit(Put(bytes, k, v), j) <==> if j == k then v else Bit(bytes, j)
  {
    hide Has, With;
    if j / 8 == k / 8 {
      HasWith(bytes[k / 8], k % 8, j % 8, v);
    }
  }

  /** Changing a bit of a byte changes that bit of the buffer. */
  lemma PutIs(bytes: seq<bv8>, k: nat, v: bool)
    requires k < 8 * |bytes|
    ensures BitsOf(Put(bytes, k, v)) == BitsOf(bytes)[k := v]
  {
    hide Bit, Put;
    forall j | 0 <= j < 8 * |bytes|
      ensures Bit(Put(bytes, k, v), j) == BitsOf(bytes)[k := v][j]
    {
      PutBit(bytes, k, v, j);
    }
  }

  lemma BitsZero(bytes: seq<bv8>)
    requires forall i :: 0 <= i < |bytes| ==> bytes[i] == 0
    ensures BitsOf(bytes) == seq(8 * |bytes|, _ => false)
  {
    hide Mask;
    forall k | 0 <= k < 8 * |bytes|
      ensures !BitsOf(bytes)[k]
    {
      assert bytes[k / 8] == 0;
    }
  }

  /** The cycles two buffers describe. */
  function Cycles(dir: seq<bool>, out: seq<bool>, n: nat): (r: seq<Cycle>)
    requires n <= |dir| && n <= |out|
    ensures |r| == n
  {
    seq(n, k requires 0 <= k < n => Cycle(dir[k], out[k]))
  }

  function Line(drive: bool, bits: seq<bool>): (r: seq<Cycle>)
    ensures |r| == |bits| && forall i :: 0 <= i < |bits| ==> r[i] == Cycle(drive, bits[i])
  {
    seq(|bits|, i requires 0 <= i < |bits| => Cycle(drive, bits[i]))
  }

  lemma LineCons(drive: bool, v: nat, n: nat)
    requires n > 0
    ensures Line(drive, Bits(v, n)) == [Cycle(drive, v % 2 == 1)] + Line(drive, Bits(v / 2, n - 1))
  {
  }

  lemma ValueOfThree(a: bool, b: bool, c: bool)
    ensures Value([a, b, c]) == (if a then 1 else 0) + (if b then 2 else 0) + (if c then 4 else 0)
  {
    assert [a, b, c][1..] == [b, c];
    assert [b, c][1..] == [c];
    assert [c][1..] == [];
    assert Value([c]) == if c then 1 else 0;
    assert Value([b, c]) == (if b then 1 else 0) + (if c then 2 else 0);
  }

  predicate Blank(bits: seq<bool>, from: nat) { forall k :: from <= k < |bits| ==> !bits[k] }

  // ---------------------------------------------------------------------
  // Probe
  // ---------------------------------------------------------------------

  /** The probe with the target behind it, and what becomes of the transfers of
      batches to come. */
  class Probe {
    var t: Target
    var fates: seq<seq<Fate>>
    const noise: bool

    constructor (target: Target, becomes: seq<seq<Fate>>, level: bool)
      ensures t == target && fates == becomes && noise == level
    {
      t, fates, noise := target, becomes, level;
    }

    ghost function Next(): seq<Fate>
      reads this
    {
      if fates == [] then [] else fates[0]
    }

    /** `jlink_swd_io`: the line is clocked, and sampled into a third buffer. */
    method Io(dir: array<bv8>, out: array<bv8>, inp: array<bv8>, nbits: nat)
      requires dir.Length == out.Length == inp.Length && nbits <= 8 * dir.Length && inp != dir && inp != out
      modifies this, inp
      ensures var c := Cycles(BitsOf(dir[..]), BitsOf(out[..]), nbits);
        && t == Clocked(old(t), c, old(Next()))
        && BitsOf(inp[..])[..nbits] == Drive(old(t), c, old(Next()), noise)
    {
      hide With, Bit, Drive, Clocked, BitsOf, Cycles;
      var c := Cycles(BitsOf(dir[..]), BitsOf(out[..]), nbits);
      var f := if fates == [] then [] else fates[0];
      var levels := Drive(t, c, f, noise);
      var k: nat := 0;
      while k < nbits
        invariant k <= nbits && dir[..] == old(dir[..]) && out[..] == old(out[..])
        invariant t == old(t) && fates == old(fates)
        invariant BitsOf(inp[..])[..k] == levels[..k]
      {
        ghost var was := inp[..];
        inp[k / 8] := With(inp[k / 8], k % 8, levels[k]);
        PutIs(was, k, levels[k]);
        assert inp[..] == Put(was, k, levels[k]);
        assert BitsOf(inp[..])[..k + 1] == levels[..k + 1];
        k := k + 1;
      }
      t := Clocked(t, c, f);
      if fates != [] { fates := fates[1..]; }
    }
  }

  // ---------------------------------------------------------------------
  // Queue
  // ---------------------------------------------------------------------

  /** A transfer whose answer is awaited: where a read's word goes, and where
      in the buffer the answer begins. */
  datatype Pend = Pend(read: bool, dst: int, off: nat)

  function Dst(x: Xfer): int {
    match x
    case ReadDrw(d) => d
    case ReadBuff(d) => d
    case _ => -1
  }

  /** The bit at which a queued transfer begins. */
  function At(xs: seq<Xfer>, i: nat): nat
    requires i <= |xs|
  {
    |SentAll(RawAll(xs[..i]))|
  }

  predicate AllFit(xs: seq<Xfer>) { forall i :: 0 <= i < |xs| ==> Fits(xs[i]) }

  predicate Awaits(pend: seq<Pend>, xs: seq<Xfer>) {
    |pend| == |xs| && forall i :: 0 <= i < |xs| ==> pend[i] == Pend(Reads(xs[i]), Dst(xs[i]), At(xs, i) + 8)
  }

  lemma RawSnoc(xs: seq<Xfer>, x: Xfer)
    ensures RawAll(xs + [x]) == RawAll(xs) + [Raw(x)]
    ensures SentAll(RawAll(xs + [x])) == SentAll(RawAll(xs)) + Sent(Raw(x))
  {
    hide SentAll, Sent, Raw;
    assert RawAll(xs + [x]) == RawAll(xs) + [Raw(x)];
    SentSnoc(RawAll(xs), Raw(x));
  }

  /** A transfer put last awaits its answer behind all the others'. */
  lemma AwaitsSnoc(pend: seq<Pend>, xs: seq<Xfer>, x: Xfer)
    requires Awaits(pend, xs)
    ensures Awaits(pend + [Pend(Reads(x), Dst(x), |SentAll(RawAll(xs))| + 8)], xs + [x])
  {
    hide SentAll, RawAll, Reads, Dst;
    forall i | 0 <= i <= |xs|
      ensures At(xs + [x], i) == At(xs, i)
    {
      assert (xs + [x])[..i] == xs[..i];
    }
    assert xs[..|xs|] == xs;
  }

  /** Answers to the transfers from one on: the next one's, then the others'. */
  lemma DrivenHead(t: Target, xs: seq<Xfer>, fates: seq<Fate>, noise: bool)
    requires xs != [] && forall i :: 0 <= i < |xs| ==> Known(RawAll(xs)[i])
    ensures forall i :: 0 <= i < |xs[1..]| ==> Known(RawAll(xs[1..])[i])
    ensures var f := if fates == [] then Okay else fates[0];
      DrivenAll(t, RawAll(xs), fates, noise) ==
        Driven(Raw(xs[0]), Reply(t, xs[0], f), noise)
        + DrivenAll(Clock(t, xs[0], f).0, RawAll(xs[1..]), if fates == [] then [] else fates[1..], noise)
  {
    hide Driven, Clock, Known, Access, Sent;
    RawTail(xs);
    RawKnown(xs[1..]);
    var f := if fates == [] then Okay else fates[0];
    AccessOfRaw(t, xs[0], f);
  }

  lemma {:induction false} FailedKeepsWords(t: Target, xs: seq<Xfer>, fates: seq<Fate>, words: seq<nat>)
    ensures Flush(t, xs, fates, words, false).words == words
    decreases xs
  {
    hide Good, Clock, Stored;
    if xs != [] {
      var f := if fates == [] then Okay else fates[0];
      FailedKeepsWords(Clock(t, xs[0], f).0, xs[1..], if fates == [] then [] else fates[1..], words);
    }
  }

  lemma {:induction false} ZeroBits(n: nat)
    ensures Bits(0, n) == seq(n, _ => false)
    decreases n
  {
    if n > 0 { ZeroBits(n - 1); }
  }

  lemma IdleLine(n: nat)
    ensures Line(true, Bits(0, n)) == Idle(n)
  {
    ZeroBits(n);
  }

  lemma ListenLine(n: nat)
    ensures Line(false, Bits(0, n)) == Listen(n)
  {
    ZeroBits(n);
  }

  lemma RawProper(xs: seq<Xfer>)
    requires AllFit(xs)
    ensures AllProper(RawAll(xs))
  {
  }

  /** A queued batch clocked out: the answers come back in place, and the target
      has gone through the batch. */
  lemma Exchange(t: Target, xs: seq<Xfer>, fates: seq<Fate>, noise: bool, words: seq<nat>)
    requires AllFit(xs) && forall i :: 0 <= i < |xs| ==> Known(RawAll(xs)[i])
    ensures var c := SentAll(RawAll(xs)) + Idle(IDLE_BITS);
      && Drive(t, c, fates, noise) == DrivenAll(t, RawAll(xs), fates, noise) + seq(IDLE_BITS, _ => noise)
      && Clocked(t, c, fates) == Flush(t, xs, fates, words, true).t
  {
    hide Drive, Clocked, Flush, DrivenAll, SentAll, RawAll, Fits, Known, Proper;
    RawProper(xs);
    DriveAll(t, RawAll(xs), fates, IDLE_BITS, noise);
    AfterIs(t, xs, fates, words, true);
  }

  /** The next answer is where it is looked for, and the others follow. */
  lemma AnswerHere(t: Target, xs: seq<Xfer>, fates: seq<Fate>, noise: bool, bits: seq<bool>)
    requires xs != [] && (forall i :: 0 <= i < |xs| ==> Known(RawAll(xs)[i])) && bits == DrivenAll(t, RawAll(xs), fates, noise)
    ensures forall i :: 0 <= i < |xs[1..]| ==> Known(RawAll(xs[1..])[i])
    ensures var f := if fates == [] then Okay else fates[0];
      var n := |Sent(Raw(xs[0]))|;
      && |bits| >= n >= 46 && Value(bits[8..11]) == AckOf(t, xs[0], f)
      && (Reads(xs[0]) ==> bits[11..43] == Bits(Clock(t, xs[0], f).1, 32) && bits[43] == Reply(t, xs[0], f).parity)
      && bits[n..] == DrivenAll(Clock(t, xs[0], f).0, RawAll(xs[1..]), if fates == [] then [] else fates[1..], noise)
  {
    hide Driven, DrivenAll, RawAll, Known, Bits, Value, Clock;
    var f := if fates == [] then Okay else fates[0];
    DrivenHead(t, xs, fates, noise);
    var q, a := Raw(xs[0]), Reply(t, xs[0], f);
    var d := Driven(q, a, noise);
    AnswerAt(q, a, noise);
    AccessOfRaw(t, xs[0], f);
    assert bits[..|d|] == d;
    assert bits[8..11] == d[8..11] && bits[11..43] == d[11..43];
  }

  lemma AtNext(xs: seq<Xfer>, i: nat)
    requires i < |xs|
    ensures At(xs, i + 1) == At(xs, i) + |Sent(Raw(xs[i]))| && At(xs, i) >= 0
  {
    assert xs[..i + 1] == xs[..i] + [xs[i]];
    RawSnoc(xs[..i], xs[i]);
  }

  lemma NothingSent()
    ensures SentAll(RawAll([])) == []
  {
  }

  /** What a decoded answer says about the transfer. */
  lemma AckTells(t: Target, x: Xfer, f: Fate)
    ensures (AckOf(t, x, f) == ACK_OK) <==> Acked(t, x, f)
    ensures Acked(t, x, f) ==> ((Reply(t, x, f).parity == Parity(Bits(Clock(t, x, f).1, 32))) <==> f == Okay)
  {
  }

  /** An answer looks good exactly when the transfer went well, and a good read
      carries the target's word. */
  predicate LooksGood(bits: seq<bool>, off: nat, read: bool)
    requires off + 36 <= |bits|
  {
    Value(bits[off..off + 3]) == ACK_OK && (read ==> bits[off + 35] == Parity(bits[off + 3..off + 35]))
  }

  lemma AnswerMeans(t: Target, xs: seq<Xfer>, fates: seq<Fate>, noise: bool, bits: seq<bool>)
    requires xs != [] && (forall i :: 0 <= i < |xs| ==> Known(RawAll(xs)[i])) && bits == DrivenAll(t, RawAll(xs), fates, noise)
    requires Wordly(t) && Fits(xs[0])
    ensures var f := if fates == [] then Okay else fates[0];
      && |bits| >= 46
      && (LooksGood(bits, 8, Reads(xs[0])) <==> Good(t, xs[0], f))
      && (Good(t, xs[0], f) && Reads(xs[0]) ==> Value(bits[11..43]) == Clock(t, xs[0], f).1)
  {
    hide DrivenAll, RawAll, Known, Bits, Value, Clock, Reply, AckOf, Acked, Parity, Sent;
    var f := if fates == [] then Okay else fates[0];
    AnswerHere(t, xs, fates, noise, bits);
    AckTells(t, xs[0], f);
    ClockWordly(t, xs[0], f);
    WordBack(Clock(t, xs[0], f).1);
  }

  lemma SubSlice(s: seq<bool>, total: nat, at: nat, i: nat, j: nat)
    requires i <= j && at + j <= total <= |s|
    ensures s[..total][at..][i..j] == s[at + i..at + j]
  {
    var a, b := s[..total][at..][i..j], s[at + i..at + j];
    assert |a| == |b|;
    forall k | 0 <= k < |a|
      ensures a[k] == b[k]
    {
    }
  }

  lemma LooksThere(bits: seq<bool>, total: nat, at: nat, read: bool)
    requires at + 46 <= total <= |bits|
    ensures LooksGood(bits, at + 8, read) <==> LooksGood(bits[..total][at..], 8, read)
    ensures bits[at + 11..at + 43] == bits[..total][at..][11..43]
  {
    hide Value, Parity;
    SubSlice(bits, total, at, 8, 11);
    SubSlice(bits, total, at, 11, 43);
  }

  /** The answers still to be looked at. */
  ghost predicate Remaining(t: Target, xs: seq<Xfer>, i: nat, fates: seq<Fate>, noise: bool, bits: seq<bool>) {
    && i <= |xs| && At(xs, i) <= |bits| && Wordly(t) && AllFit(xs)
    && (forall j :: 0 <= j < |xs[i..]| ==> Known(RawAll(xs[i..])[j]))
    && bits[At(xs, i)..] == DrivenAll(t, RawAll(xs[i..]), fates, noise)
  }

  lemma RemainingAll(t: Target, xs: seq<Xfer>, fates: seq<Fate>, noise: bool, bits: seq<bool>)
    requires Wordly(t) && AllFit(xs) && (forall j :: 0 <= j < |xs| ==> Known(RawAll(xs)[j]))
    requires bits == DrivenAll(t, RawAll(xs), fates, noise)
    ensures Remaining(t, xs, 0, fates, noise, bits)
  {
    hide DrivenAll, RawAll, SentAll, Known, Wordly;
    assert xs[0..] == xs && xs[..0] == [];
    NothingSent();
    assert bits[0..] == bits;
  }

  lemma RemainingStep(t: Target, xs: seq<Xfer>, i: nat, fates: seq<Fate>, noise: bool, bits: seq<bool>)
    requires Remaining(t, xs, i, fates, noise, bits) && i < |xs|
    ensures Remaining(Clock(t, xs[i], if fates == [] then Okay else fates[0]).0, xs, i + 1, if fates == [] then [] else fates[1..], noise, bits)
    ensures At(xs, i) + 46 <= |bits|
  {
    hide DrivenAll, RawAll, SentAll, Known, Wordly, Clock, Sent, Fits, Value, Bits;
    assert xs[i..][0] == xs[i] && xs[i..][1..] == xs[i + 1..];
    AnswerHere(t, xs[i..], fates, noise, bits[At(xs, i)..]);
    AtNext(xs, i);
    ClockWordly(t, xs[i], if fates == [] then Okay else fates[0]);
    var n := |Sent(Raw(xs[i]))|;
    assert bits[At(xs, i)..][n..] == bits[At(xs, i) + n..];
  }

  lemma RemainingSeen(t: Target, xs: seq<Xfer>, i: nat, fates: seq<Fate>, noise: bool, all: seq<bool>, total: nat)
    requires total <= |all| && Remaining(t, xs, i, fates, noise, all[..total]) && i < |xs| && At(xs, i) + 46 <= total
    ensures var f := if fates == [] then Okay else fates[0];
      var off := At(xs, i) + 8;
      && (LooksGood(all, off, Reads(xs[i])) <==> Good(t, xs[i], f))
      && (Good(t, xs[i], f) && Reads(xs[i]) ==> Value(all[off + 3..off + 35]) == Clock(t, xs[i], f).1)
  {
    hide DrivenAll, RawAll, SentAll, Known, Wordly, Clock, Sent, Fits, Value, Bits, LooksGood, Good;
    assert xs[i..][0] == xs[i];
    AnswerMeans(t, xs[i..], fates, noise, all[..total][At(xs, i)..]);
    LooksThere(all, total, At(xs, i), Reads(xs[i]));
  }

  /** The request byte, as the host puts it together. */
  function RequestByte(q: Request): nat {
    var a2, a3 := q.reg % 2, q.reg / 2 % 2;
    var parity := ((q.ap != q.read) != (a2 == 1)) != (a3 == 1);
    0x81 + (if q.ap then 2 else 0) + (if q.read then 4 else 0) + 8 * a2 + 16 * a3 + (if parity then 32 else 0)
  }

  function Num(b: bool): nat { if b then 1 else 0 }

  lemma {:induction false} BitsOfValue(bits: seq<bool>)
    ensures Bits(Value(bits), |bits|) == bits
    decreases bits
  {
    if bits != [] { BitsOfValue(bits[1..]); }
  }

  lemma ValueFrom(bits: seq<bool>, i: nat)
    requires i < |bits|
    ensures Value(bits[i..]) == Num(bits[i]) + 2 * Value(bits[i + 1..])
  {
    assert bits[i..][1..] == bits[i + 1..];
  }

  lemma ValueOfFour(h: seq<bool>, i: nat)
    requires i + 4 <= |h|
    ensures Value(h[i..]) == Num(h[i]) + 2 * Num(h[i + 1]) + 4 * Num(h[i + 2]) + 8 * Num(h[i + 3]) + 16 * Value(h[i + 4..])
  {
    hide Value, Num;
    ValueFrom(h, i);
    ValueFrom(h, i + 1);
    ValueFrom(h, i + 2);
    ValueFrom(h, i + 3);
  }

  lemma ValueOfByte(h: seq<bool>)
    requires |h| == 8
    ensures Value(h) == Num(h[0]) + 2 * Num(h[1]) + 4 * Num(h[2]) + 8 * Num(h[3])
      + 16 * Num(h[4]) + 32 * Num(h[5]) + 64 * Num(h[6]) + 128 * Num(h[7])
  {
    hide Value, Num;
    assert h[0..] == h;
    ValueOfFour(h, 0);
    ValueOfFour(h, 4);
    ValueNone(h[8..]);
  }

  lemma ValueNone(bits: seq<bool>)
    requires |bits| == 0
    ensures Value(bits) == 0
  {
  }

  lemma HeaderByte(q: Request)
    ensures Line(true, Bits(RequestByte(q), 8)) == Out(Header(q))
  {
    hide Bits, Value;
    var h := Header(q);
    ValueOfByte(h);
    BitsOfValue(h);
    LineOut(h);
  }

  lemma LineOut(bits: seq<bool>)
    ensures Line(true, bits) == Out(bits)
  {
  }

  /** The pieces queued after a request's header make up the rest of it. */
  lemma BodyPieces(q: Request, a: seq<Cycle>)
    ensures q.read ==> a + Line(false, Bits(0, 38)) == a + Body(q)
    ensures !q.read ==> a + Line(false, Bits(0, 5)) + Line(true, Bits(q.data, 32)) + [Cycle(true, Parity(Bits(q.data, 32)))] == a + Body(q)
  {
    hide Bits, Parity, Line;
    ListenLine(38);
    ListenLine(5);
    LineOut(Bits(q.data, 32));
  }

  lemma SentAfter(q: Request, a: seq<Cycle>)
    ensures a + Out(Header(q)) + Body(q) + Idle(if q.ap then 8 else 0) == a + Sent(q)
  {
    hide Header, Body, Idle, Out;
  }

  /** The parity of a word, bit by bit. */
  method WordParity(v: nat) returns (par: bool)
    ensures par == Parity(Bits(v, 32))
  {
    var b: nat := 0;
    var rest := v;
    par := false;
    while b < 32
      invariant b <= 32 && (par != Parity(Bits(rest, 32 - b))) == Parity(Bits(v, 32))
    {
      ParityCons(rest, 32 - b);
      par := par != (rest % 2 == 1);
      rest := rest / 2;
      b := b + 1;
    }
  }

  lemma ParityCons(v: nat, n: nat)
    requires n > 0
    ensures Parity(Bits(v, n)) == ((v % 2 == 1) != Parity(Bits(v / 2, n - 1)))
  {
    assert Bits(v, n)[1..] == Bits(v / 2, n - 1);
  }

  lemma NothingQueued(xs: seq<Xfer>)
    requires |SentAll(RawAll(xs))| == 0
    ensures xs == []
  {
    if xs != [] { RawTail(xs); }
  }

  lemma AbortKeeps(t: Target, fates: seq<Fate>, words: seq<nat>)
    ensures Flush(t, [Abort], fates, words, true).t.mem == t.mem
  {
    FlushKeepsMem(t, [Abort], fates, words, true);
  }

  lemma NothingCut(t: Target, mem: map<nat, nat>)
    requires Cut(t, [], mem)
    ensures mem == t.mem
  {
    var k: nat :| k <= 0 && mem == DoAll(t, [][..k], []).0.mem;
    DoNothing(t, []);
  }

  lemma CutKeeps(t: Target, xs: seq<Xfer>, mem: map<nat, nat>)
    requires Cut(t, xs, mem) && NoWrites(xs)
    ensures mem == t.mem
  {
    hide DoAll;
    var k: nat :| k <= |xs| && mem == DoAll(t, xs[..k], []).0.mem;
    NoStores(t, xs[..k]);
  }

  lemma NoDrwReads()
    ensures DrwReads(0, 0) == []
  {
  }

  lemma {:induction false} DrwReadsSnoc(from: nat, n: nat)
    ensures DrwReads(from, n + 1) == DrwReads(from, n) + [ReadDrw(from + n - 1)]
    decreases n
  {
    if n > 0 { DrwReadsSnoc(from + 1, n - 1); }
  }

  /** Memory holds words from an address on. */
  predicate Holds(mem: map<nat, nat>, addr: nat, data: seq<nat>) {
    forall i :: 0 <= i < |data| ==> Cell(mem, addr + 4 * i) == data[i]
  }

  lemma WriteHolds(h: Host, t: Target, addr: nat, data: seq<nat>)
    requires Knows(h, t) && InChunk(addr, |data|)
    ensures var t1 := DoAll(t, WriteXfers(h, addr, data), []).0;
      Holds(t1.mem, addr, data) && SameElsewhere(t.mem, t1.mem, addr, |data|) && t1.select == 0
  {
    hide DoAll, WriteXfers, SameElsewhere, InChunk, Cell;
    ChunkSome(addr, |data|);
    WriteDone(h, t, addr, data);
    WrittenExactly(h, t, addr, data, 0);
    forall i | 0 <= i < |data|
      ensures Cell(DoAll(t, WriteXfers(h, addr, data), []).0.mem, addr + 4 * i) == data[i]
    {
      WrittenExactly(h, t, addr, data, i);
    }
  }

  lemma CutStays(h: Host, t: Target, addr: nat, data: seq<nat>, mem: map<nat, nat>)
    requires Knows(h, t) && InChunk(addr, |data|) && Cut(t, WriteXfers(h, addr, data), mem)
    ensures SameElsewhere(t.mem, mem, addr, |data|)
  {
    hide DoAll, WriteXfers, SameElsewhere, InChunk;
    var xs := WriteXfers(h, addr, data);
    var k: nat :| k <= |xs| && mem == DoAll(t, xs[..k], []).0.mem;
    PrefixStays(h, t, addr, data, k);
  }

  lemma WriteXfersSnoc(h: Host, addr: nat, data: seq<nat>, i: nat)
    requires i < |data|
    ensures WriteXfers(h, addr, data[..i + 1]) == WriteXfers(h, addr, data[..i]) + [WriteDrw(data[i])]
  {
    assert DrwWrites(data[..i + 1]) == DrwWrites(data[..i]) + [WriteDrw(data[i])];
  }

  /** The block covers the address; a long one may lie across the wrap. */
  predicate Covered(addr: nat, n: nat, a: nat) { a < WORD && (a - addr) % WORD < 4 * n }

  /** Nothing has changed where the block does not lie. */
  predicate SameOutside(m: map<nat, nat>, z: map<nat, nat>, addr: nat, n: nat) {
    && (forall a :: a in m && !Covered(addr, n, a) ==> a in z && z[a] == m[a])
    && (forall a :: a in z && !Covered(addr, n, a) ==> a in m)
  }

  /** Each word of the block is in memory, unless one a whole turn of the address
      space further on was put over it. */
  predicate HoldsBlock(mem: map<nat, nat>, addr: nat, data: seq<nat>) {
    forall i :: 0 <= i < |data| && 4 * (|data| - i) <= WORD ==> Cell(mem, AddrOf(addr, i)) == data[i]
  }

  lemma NothingHeld(mem: map<nat, nat>, addr: nat, data: seq<nat>)
    requires |data| == 0
    ensures HoldsBlock(mem, addr, data)
  {
  }

  lemma OutsideSelf(m: map<nat, nat>, addr: nat, n: nat)
    ensures SameOutside(m, m, addr, n)
  {
    hide Covered;
  }

  lemma OutsideTrans(m: map<nat, nat>, z: map<nat, nat>, y: map<nat, nat>, addr: nat, n: nat)
    requires SameOutside(m, z, addr, n) && SameOutside(z, y, addr, n)
    ensures SameOutside(m, y, addr, n)
  {
    hide Covered;
  }

  lemma CoversChunk(addr: nat, n: nat, i: nat, k: nat, a: nat)
    requires InChunk(AddrOf(addr, i), k) && i + k <= n && Within(AddrOf(addr, i), k, a)
    ensures Covered(addr, n, a)
  {
    hide InChunk, AddrOf;
    ChunkInSpace(AddrOf(addr, i), k);
    var q: int := Turn(addr, i);
    Remainder(a - addr, -q, 4 * i + (a - AddrOf(addr, i)));
  }

  lemma Remainder(x: int, q: int, b: nat)
    requires x == WORD * q + b
    ensures x % WORD <= b
  {
    if b < WORD {
      assert x % WORD == b;
    }
  }

  lemma SameWider(m: map<nat, nat>, z: map<nat, nat>, addr: nat, n: nat, i: nat, k: nat)
    requires InChunk(AddrOf(addr, i), k) && SameElsewhere(m, z, AddrOf(addr, i), k) && i + k <= n
    ensures SameOutside(m, z, addr, n)
  {
    hide InChunk, AddrOf, Within, Covered;
    forall a | !Covered(addr, n, a)
      ensures !Within(AddrOf(addr, i), k, a)
    {
      if Within(AddrOf(addr, i), k, a) { CoversChunk(addr, n, i, k, a); }
    }
  }

  /** Less than a turn apart, two words lie apart. */
  lemma ApartInTurn(addr: nat, j: nat, i: nat, k: nat)
    requires addr % 4 == 0 && InChunk(AddrOf(addr, i), k) && j < i && 4 * (i + k - j) <= WORD
    ensures !Within(AddrOf(addr, i), k, AddrOf(addr, j))
  {
    hide InChunk, AddrOf;
    var p, q := Turn(addr, j), Turn(addr, i);
  }

  lemma HoldsJoin(m: map<nat, nat>, z: map<nat, nat>, addr: nat, data: seq<nat>, i: nat, k: nat)
    requires addr % 4 == 0 && i + k <= |data| && InChunk(AddrOf(addr, i), k) && SameElsewhere(m, z, AddrOf(addr, i), k)
    requires HoldsBlock(m, addr, data[..i]) && Holds(z, AddrOf(addr, i), data[i..i + k])
    ensures HoldsBlock(z, addr, data[..i + k])
  {
    hide InChunk, AddrOf, Within;
    forall j | 0 <= j < i + k && 4 * (i + k - j) <= WORD
      ensures Cell(z, AddrOf(addr, j)) == data[..i + k][j]
    {
      if j < i {
        ApartInTurn(addr, j, i, k);
        assert data[..i][j] == data[j];
      } else {
        ChunkAddr(addr, i, k, j - i);
        assert data[i..i + k][j - i] == data[j];
      }
    }
  }

  lemma FlushNothing(t: Target, fates: seq<Fate>, words: seq<nat>)
    ensures Flush(t, [], fates, words, true) == Outcome(t, words, true)
  {
  }

  lemma FlushStep(t: Target, xs: seq<Xfer>, fates: seq<Fate>, words: seq<nat>)
    requires xs != []
    ensures var f := if fates == [] then Okay else fates[0];
      var rest := if fates == [] then [] else fates[1..];
      var (t1, v) := Clock(t, xs[0], f);
      && (Good(t, xs[0], f) ==> Flush(t, xs, fates, words, true) == Flush(t1, xs[1..], rest, Stored(words, xs[0], v), true))
      && (!Good(t, xs[0], f) ==> !Flush(t, xs, fates, words, true).ok && Flush(t, xs, fates, words, true).words == words)
  {
    hide Good, Clock, Stored;
    var f := if fates == [] then Okay else fates[0];
    var rest := if fates == [] then [] else fates[1..];
    if !Good(t, xs[0], f) {
      FailedStays(Clock(t, xs[0], f).0, xs[1..], rest, words);
      FailedKeepsWords(Clock(t, xs[0], f).0, xs[1..], rest, words);
    }
  }

  /** A memory that some leading transfers would leave. */
  ghost predicate Cut(t: Target, xs: seq<Xfer>, mem: map<nat, nat>) {
    exists k: nat :: k <= |xs| && mem == DoAll(t, xs[..k], []).0.mem
  }

  lemma CutLonger(t: Target, xs: seq<Xfer>, ys: seq<Xfer>, mem: map<nat, nat>)
    requires Cut(t, xs, mem) && xs <= ys
    ensures Cut(t, ys, mem)
  {
    hide DoAll;
    var k: nat :| k <= |xs| && mem == DoAll(t, xs[..k], []).0.mem;
    assert ys[..k] == xs[..k];
  }

  /** After transfers done, a batch cut short leaves a cut of them all. */
  lemma FlushCuts(t0: Target, w0: seq<nat>, done: seq<Xfer>, t: Target, xs: seq<Xfer>, fates: seq<Fate>, words: seq<nat>)
    requires (t, words) == DoAll(t0, done, w0) && NoAborts(xs)
    ensures Cut(t0, done + xs, Flush(t, xs, fates, words, true).t.mem)
  {
    hide Flush, DoAll, Reached;
    FlushReached(t, xs, fates, words, true);
    var k := Reached(t, xs, fates);
    assert (done + xs)[..|done| + k] == done + xs[..k];
    DoAllMem(t0, done, w0);
    DoAllJoin(t0, done, xs[..k], []);
    DoAllMem(t, xs[..k], DoAll(t0, done, []).1);
  }

  lemma {:induction false} FlushWordly(t: Target, xs: seq<Xfer>, fates: seq<Fate>, words: seq<nat>, ok: bool)
    requires Wordly(t) && AllFit(xs)
    ensures Wordly(Flush(t, xs, fates, words, ok).t)
    decreases xs
  {
    hide Good, Clock, Stored, Wordly, Fits;
    if xs != [] {
      var f := if fates == [] then Okay else fates[0];
      var good := ok && Good(t, xs[0], f);
      var (t1, v) := Clock(t, xs[0], f);
      ClockWordly(t, xs[0], f);
      FlushWordly(t1, xs[1..], if fates == [] then [] else fates[1..], if good then Stored(words, xs[0], v) else words, good);
    }
  }

  class Queue {
    const probe: Probe
    const maxBits: nat
    const dir: array<bv8>
    const out: array<bv8>
    const inp: array<bv8>
    const pend: array<Pend>
    var nbits: nat
    var npend: nat
    var select: nat
    var selectValid: bool
    /** The transfers queued. */
    ghost var xs: seq<Xfer>
    /** What the target and the caller's words were at some earlier point, and
        the transfers done since. */
    ghost var base: Target
    ghost var baseWords: seq<nat>
    ghost var done: seq<Xfer>

    /** None of the bit buffers. */
    ghost predicate Other(o: object) { o != dir && o != out && o != inp }

    ghost predicate Shape()
      reads this
    {
      && maxBits >= XFER_BITS + IDLE_BITS
      && dir.Length == out.Length == inp.Length == (maxBits + 7) / 8
      && dir != out && inp != dir && inp != out && Other(pend)
      && pend.Length == maxBits / XFER_BITS + 1
      && nbits <= maxBits
    }

    ghost function Queued(): (r: seq<Cycle>)
      requires Shape()
      reads this, dir, out
      ensures |r| == nbits
    {
      Cycles(BitsOf(dir[..]), BitsOf(out[..]), nbits)
    }

    /** Bits are only ever set, so those to come must still be clear. */
    ghost predicate Buffers()
      reads this, dir, out
    {
      Shape() && Blank(BitsOf(dir[..]), nbits) && Blank(BitsOf(out[..]), nbits)
    }

    ghost predicate Valid()
      reads this, dir, out, pend
    {
      && Buffers() && nbits + IDLE_BITS <= maxBits
      && Queued() == SentAll(RawAll(xs))
      && npend <= pend.Length && Awaits(pend[..npend], xs) && AllFit(xs)
    }

    /** Ready to exchange transfers for words of the caller's buffer. */
    ghost predicate Live(words: array<nat>)
      reads this, dir, out, pend, probe
    {
      Valid() && Wordly(probe.t) && Other(words) && (words as object) != pend
    }

    ghost predicate Tracks(words: array<nat>)
      reads this, probe, words
    {
      (probe.t, words[..]) == DoAll(base, done, baseWords)
    }

    constructor (p: Probe, max: nat)
      requires max >= XFER_BITS + IDLE_BITS
      ensures Valid() && xs == [] && !selectValid && probe == p && maxBits == max
      ensures fresh(dir) && fresh(out) && fresh(inp) && fresh(pend)
    {
      var bytes := (max + 7) / 8;
      probe, maxBits := p, max;
      dir, out, inp := new bv8[bytes], new bv8[bytes], new bv8[bytes];
      pend := new Pend[max / XFER_BITS + 1](_ => Pend(false, -1, 0));
      nbits, npend, select, selectValid := 0, 0, 0, false;
      base, baseWords, done := p.t, [], [];
      new;
      Reset();
    }

    /** `q_bit`. */
    method QBit(output: bool, value: bool)
      requires Buffers() && nbits < maxBits
      modifies this`nbits, dir, out
      ensures Buffers() && nbits == old(nbits) + 1
      ensures Queued() == old(Queued()) + [Cycle(output, value)]
    {
      hide With, Bit, BitsOf;
      ghost var d, o := dir[..], out[..];
      if output {
        dir[nbits / 8] := With(dir[nbits / 8], nbits % 8, true);
        PutIs(d, nbits, true);
      }
      assert dir[..] == if output then Put(d, nbits, true) else d;
      if value {
        out[nbits / 8] := With(out[nbits / 8], nbits % 8, true);
        PutIs(o, nbits, true);
      }
      assert out[..] == if value then Put(o, nbits, true) else o;
      nbits := nbits + 1;
    }

    /** `q_bits`: the low bits of a value. */
    method QBits(output: bool, value: nat, count: nat)
      requires Buffers() && nbits + count <= maxBits
      modifies this`nbits, dir, out
      ensures Buffers() && nbits == old(nbits) + count
      ensures Queued() == old(Queued()) + Line(output, Bits(value, count))
    {
      hide BitsOf, Cycles, Blank, Line, Bits;
      var i: nat := 0;
      var v := value;
      while i < count
        invariant i <= count && Buffers() && nbits == old(nbits) + i
        invariant Queued() + Line(output, Bits(v, count - i)) == old(Queued()) + Line(output, Bits(value, count))
      {
        LineCons(output, v, count - i);
        QBit(output, v % 2 == 1);
        v := v / 2;
        i := i + 1;
      }
    }

    /** `q_reset`. */
    method Reset()
      requires Shape()
      modifies this`nbits, this`npend, this`xs, dir, out
      ensures Valid() && xs == [] && nbits == 0 && npend == 0
    {
      hide Has;
      var i := 0;
      while i < dir.Length
        invariant 0 <= i <= dir.Length && nbits == old(nbits)
        invariant forall j :: 0 <= j < i ==> dir[j] == 0 && out[j] == 0
      {
        dir[i] := 0;
        out[i] := 0;
        i := i + 1;
      }
      BitsZero(dir[..]);
      BitsZero(out[..]);
      nbits, npend, xs := 0, 0, [];
    }

    /** The acknowledge bits. */
    method Ack(off: nat) returns (ack: nat)
      requires off + 3 <= 8 * inp.Length
      ensures ack == Value(BitsOf(inp[..])[off..off + 3])
    {
      hide Has;
      ghost var b := BitsOf(inp[..])[off..off + 3];
      assert b == [Bit(inp[..], off), Bit(inp[..], off + 1), Bit(inp[..], off + 2)];
      ValueOfThree(b[0], b[1], b[2]);
      ack := (if Has(inp[off / 8], off % 8) then 1 else 0)
        + (if Has(inp[(off + 1) / 8], (off + 1) % 8) then 2 else 0)
        + (if Has(inp[(off + 2) / 8], (off + 2) % 8) then 4 else 0);
    }

    /** A word and the parity of its bits. */
    method Word(off: nat) returns (v: nat, par: bool)
      requires off + 32 <= 8 * inp.Length
      ensures var b := BitsOf(inp[..])[off..off + 32]; v == Value(b) && par == Parity(b)
    {
      hide Has;
      var b: nat := 0;
      var weight: nat := 1;
      v, par := 0, false;
      ghost var all := BitsOf(inp[..])[off..off + 32];
      while b < 32
        invariant b <= 32 && weight == Pow2(b)
        invariant v == Value(all[..b]) && par == Parity(all[..b])
      {
        var bit := Has(inp[(off + b) / 8], (off + b) % 8);
        assert bit == all[b];
        assert all[..b + 1] == all[..b] + [all[b]];
        ValueSnoc(all[..b], bit);
        ParitySnoc(all[..b], bit);
        if bit { v := v + weight; }
        par := par != bit;
        weight := 2 * weight;
        b := b + 1;
      }
      assert all[..32] == all;
    }

    /** One answer. */
    method Answered(p: Pend) returns (ok: bool, v: nat)
      requires p.off + 36 <= 8 * inp.Length
      ensures ok == LooksGood(BitsOf(inp[..]), p.off, p.read)
      ensures ok && p.read ==> v == Value(BitsOf(inp[..])[p.off + 3..p.off + 35])
    {
      hide Has, Value, Parity;
      var ack := Ack(p.off);
      ok, v := ack == ACK_OK, 0;
      if ok && p.read {
        var par;
        v, par := Word(p.off + 3);
        ok := par == Has(inp[(p.off + 35) / 8], (p.off + 35) % 8);
      }
    }

    /** The answers, one by one, up to the first that failed. */
    method Decode(words: array<nat>, ghost t: Target, ghost fates: seq<Fate>) returns (ok: bool)
      requires Shape() && npend <= pend.Length && Awaits(pend[..npend], xs) && AllFit(xs) && Wordly(t)
      requires forall i :: 0 <= i < |xs| ==> Known(RawAll(xs)[i])
      requires |SentAll(RawAll(xs))| <= 8 * inp.Length
      requires BitsOf(inp[..])[..|SentAll(RawAll(xs))|] == DrivenAll(t, RawAll(xs), fates, probe.noise)
      requires Other(words) && (words as object) != pend
      modifies words, this`selectValid
      ensures ok == Flush(t, xs, fates, old(words[..]), true).ok
      ensures words[..] == Flush(t, xs, fates, old(words[..]), true).words
      ensures selectValid == (old(selectValid) && ok)
    {
      hide BitsOf, Flush, SentAll, RawAll, Known, DrivenAll, Fits, Wordly, Clock, Good, Value, LooksGood, Remaining, At;
      ghost var noise := probe.noise;
      ghost var bits := BitsOf(inp[..])[..|SentAll(RawAll(xs))|];
      ghost var tc, fc := t, fates;
      var i: nat := 0;
      assert xs[0..] == xs;
      RemainingAll(t, xs, fates, noise, bits);
      while i < npend
        invariant i <= npend && Awaits(pend[..npend], xs) && selectValid == old(selectValid)
        invariant inp[..] == old(inp[..]) && Remaining(tc, xs, i, fc, noise, bits)
        invariant Flush(tc, xs[i..], fc, words[..], true).ok == Flush(t, xs, fates, old(words[..]), true).ok
        invariant Flush(tc, xs[i..], fc, words[..], true).words == Flush(t, xs, fates, old(words[..]), true).words
      {
        ghost var x, f := xs[i], if fc == [] then Okay else fc[0];
        RemainingStep(tc, xs, i, fc, noise, bits);
        assert BitsOf(inp[..])[..|bits|] == bits;
        RemainingSeen(tc, xs, i, fc, noise, BitsOf(inp[..]), |bits|);
        assert xs[i..][0] == x && xs[i..][1..] == xs[i + 1..];
        FlushStep(tc, xs[i..], fc, words[..]);
        var p := pend[i];
        assert p == pend[..npend][i];
        var v;
        ok, v := Answered(p);
        if !ok {
          selectValid := false;
          return;
        }
        ghost var was := words[..];
        if p.read && 0 <= p.dst < words.Length { words[p.dst] := v; }
        assert words[..] == Stored(was, x, Clock(tc, x, f).1);
        tc, fc := Clock(tc, x, f).0, if fc == [] then [] else fc[1..];
        i := i + 1;
      }
      assert xs[npend..] == [];
      FlushNothing(tc, fc, words[..]);
      ok := true;
    }

    /** `dap_flush`: the batch is clocked out, and the queue is empty again. */
    method FlushQueue(words: array<nat>) returns (ok: bool)
      requires Live(words)
      modifies this`nbits, this`npend, this`xs, this`selectValid, dir, out, inp, probe, words
      ensures Live(words) && xs == [] && selectValid == (old(selectValid) && ok) && nbits == 0 && npend == 0
      ensures var o := Flush(old(probe.t), old(xs), old(probe.Next()), old(words[..]), true);
        probe.t == o.t && words[..] == o.words && ok == o.ok
    {
      hide Flush, SentAll, RawAll, BitsOf, Cycles, Bits, Drive, Clocked, DrivenAll, Fits, Known, Wordly;
      ghost var t0, f, xs0 := probe.t, probe.Next(), xs;
      FlushWordly(t0, xs0, f, words[..], true);
      if nbits == 0 {
        NothingQueued(xs);
        FlushNothing(t0, f, words[..]);
        return true;
      }
      QBits(true, 0, IDLE_BITS);
      IdleLine(IDLE_BITS);
      probe.Io(dir, out, inp, nbits);
      RawKnown(xs);
      Exchange(t0, xs, f, probe.noise, words[..]);
      ghost var n := |SentAll(RawAll(xs))|;
      assert BitsOf(inp[..])[..n] == BitsOf(inp[..])[..nbits][..n];
      ok := Decode(words, t0, f);
      Reset();
    }

    /** The cycles after a request's header. */
    method BodyBits(q: Request)
      requires Buffers() && nbits + 46 <= maxBits
      modifies this`nbits, dir, out
      ensures Buffers() && nbits == old(nbits) + if q.ap then 46 else 38
      ensures Queued() == old(Queued()) + Body(q) + Idle(if q.ap then 8 else 0)
    {
      hide BitsOf, Cycles, Bits, Parity, Line, Blank, Body, Idle;
      BodyPieces(q, Queued());
      if q.read {
        QBits(false, 0, 38);
      } else {
        QBits(false, 0, 5);
        QBits(true, q.data, 32);
        var par := WordParity(q.data);
        QBit(true, par);
      }
      IdleLine(8);
      if q.ap { QBits(true, 0, 8); }
    }

    /** A transfer put last in the buffers, which have room for it. */
    method Append(x: Xfer)
      requires Valid() && Fits(x) && nbits + XFER_BITS + IDLE_BITS <= maxBits && npend < pend.Length
      modifies this`nbits, this`npend, this`xs, dir, out, pend
      ensures Valid() && xs == old(xs) + [x]
    {
      hide SentAll, RawAll, BitsOf, Cycles, Bits, Fits, RequestByte, Line, Blank, At, Awaits, Body, Header, Idle, Sent, Out;
      var q := Raw(x);
      AccessOfRaw(probe.t, x, Okay);
      SentAfter(q, Queued());
      HeaderByte(q);
      RawSnoc(xs, x);
      AwaitsSnoc(pend[..npend], xs, x);
      ghost var was := pend[..npend];
      QBits(true, RequestByte(q), 8);
      pend[npend] := Pend(q.read, Dst(x), nbits);
      npend := npend + 1;
      BodyBits(q);
      assert pend[..npend] == was + [Pend(Reads(x), Dst(x), old(nbits) + 8)];
      xs := xs + [x];
    }

    /** `q_xfer`: a transfer is queued, the queue being flushed first when it is
        full. */
    method QXfer(x: Xfer, words: array<nat>) returns (ok: bool)
      requires Live(words) && Tracks(words) && Fits(x) && NoAborts(xs)
      modifies this`nbits, this`npend, this`xs, this`selectValid, this`done, dir, out, inp, pend, probe, words
      ensures Live(words)
      ensures ok ==> Tracks(words) && done + xs == old(done + xs) + [x] && selectValid == old(selectValid)
      ensures ok ==> xs == old(xs) + [x] || xs == [x]
      ensures !ok ==> xs == [] && !selectValid && Cut(base, old(done + xs), probe.t.mem)
    {
      hide Flush, DoAll, SentAll, RawAll, BitsOf, Cycles, Fits, Wordly, Awaits, Blank, Cut;
      ghost var d, o, t, w, f := done, xs, probe.t, words[..], probe.Next();
      ok := true;
      if nbits + XFER_BITS + IDLE_BITS > maxBits || npend == pend.Length {
        FlushCuts(base, baseWords, d, t, o, f, w);
        ok := FlushQueue(words);
        if !ok { return; }
        GoodFlush(t, o, f, w);
        DoAllJoin(base, d, o, baseWords);
        done := d + o;
      }
      Append(x);
    }

    /** The host's idea of the select register. */
    ghost function Idea(): Host
      reads this
    {
      Host(select, selectValid)
    }

    /** Nothing queued, and the host's idea of the target is right. */
    ghost predicate Settled(words: array<nat>)
      reads this, dir, out, pend, probe
    {
      Live(words) && xs == [] && Knows(Idea(), probe.t)
    }

    /** `q_select` for the memory access port. */
    method QSelect(words: array<nat>) returns (ok: bool)
      requires Settled(words) && Tracks(words) && done == []
      modifies this`nbits, this`npend, this`xs, this`selectValid, this`select, this`done, dir, out, inp, pend, probe, words
      ensures Live(words)
      ensures ok ==> Tracks(words) && done + xs == Selecting(old(Idea())) && selectValid && select == 0 && NoAborts(xs)
      ensures !ok ==> xs == [] && !selectValid && Cut(base, [], probe.t.mem)
    {
      hide DoAll, Wordly, Cut, SentAll, RawAll, BitsOf, Cycles, Awaits, Blank;
      if selectValid && select == 0 { return true; }
      ok := QXfer(SetSelect(0), words);
      assert old(done + xs) == [];
      if ok { select, selectValid := 0, true; }
    }

    /** `dap_clear_errors`. */
    method ClearErrors(words: array<nat>)
      requires Live(words) && !selectValid
      modifies this`nbits, this`npend, this`xs, this`selectValid, this`base, this`baseWords, this`done, dir, out, inp, pend, probe, words
      ensures Live(words) && xs == [] && !selectValid && probe.t.mem == old(probe.t.mem)
    {
      hide Wordly, DoAll, SentAll, RawAll, BitsOf, Cycles, Awaits, Blank, Flush, Cut;
      Reset();
      base, baseWords, done := probe.t, words[..], [];
      DoNothing(base, baseWords);
      ghost var t := probe.t;
      assert done + xs == [];
      var ok := QXfer(Abort, words);
      if ok {
        assert xs == [Abort] && done == [];
        assert probe.t == t;
        AbortKeeps(t, probe.Next(), words[..]);
        ok := FlushQueue(words);
      } else {
        NothingCut(t, probe.t.mem);
      }
    }

    /** Part way through an attempt: the transfers so far are done or queued, or
        the attempt has failed somewhere among them. */
    ghost predicate Progress(words: array<nat>, ok: bool, all: seq<Xfer>)
      reads this, dir, out, pend, probe, words
    {
      && Live(words)
      && (ok ==> Tracks(words) && done + xs == all && NoAborts(xs) && selectValid && select == 0)
      && (!ok ==> xs == [] && !selectValid && Cut(base, all, probe.t.mem))
    }

    /** The next transfer of an attempt, unless it has failed. */
    method Next(x: Xfer, words: array<nat>, sofar: bool, ghost all: seq<Xfer>) returns (ok: bool)
      requires Progress(words, sofar, all) && Fits(x) && !x.Abort?
      modifies this`nbits, this`npend, this`xs, this`selectValid, this`done, dir, out, inp, pend, probe, words
      ensures Progress(words, ok, all + [x])
    {
      hide DoAll, Wordly, Cut, Valid, Fits;
      ok := sofar;
      if ok { ok := QXfer(x, words); }
      if !ok { CutLonger(base, all, all + [x], probe.t.mem); }
    }

    /** The end of an attempt: all its transfers were done, or it failed. */
    method Finish(words: array<nat>, sofar: bool, ghost all: seq<Xfer>) returns (ok: bool)
      requires Progress(words, sofar, all)
      modifies this`nbits, this`npend, this`xs, this`selectValid, dir, out, inp, probe, words
      ensures Live(words) && xs == []
      ensures ok ==> (probe.t, words[..]) == DoAll(base, all, baseWords) && selectValid && select == 0
      ensures !ok ==> !selectValid && Cut(base, all, probe.t.mem)
    {
      hide DoAll, Wordly, Cut, Valid, Flush;
      ok := sofar;
      if ok {
        ghost var d, o, t, w, f := done, xs, probe.t, words[..], probe.Next();
        FlushCuts(base, baseWords, d, t, o, f, w);
        ok := FlushQueue(words);
        if ok {
          GoodFlush(t, o, f, w);
          DoAllJoin(base, d, o, baseWords);
        }
      }
    }

    /** The start of an attempt. */
    method Begin(addr: nat, words: array<nat>) returns (ok: bool)
      requires Settled(words) && addr < WORD
      modifies this`nbits, this`npend, this`xs, this`selectValid, this`select, this`base, this`baseWords, this`done, dir, out, inp, pend, probe, words
      ensures Progress(words, ok, Selecting(old(Idea())) + [SetTar(addr)]) && base == old(probe.t) && baseWords == old(words[..])
    {
      hide DoAll, Wordly, Cut, Selecting, SentAll, RawAll, BitsOf, Cycles, Awaits, Blank;
      base, baseWords, done := probe.t, words[..], [];
      DoNothing(base, baseWords);
      ghost var sel := Selecting(Idea());
      ok := QSelect(words);
      if !ok { CutLonger(base, [], sel, probe.t.mem); }
      ok := Next(SetTar(addr), words, ok, sel);
    }

    /** One attempt at reading a chunk. */
    method ReadAttempt(addr: nat, words: array<nat>) returns (ok: bool)
      requires Settled(words) && InChunk(addr, words.Length) && addr < WORD
      modifies this`nbits, this`npend, this`xs, this`selectValid, this`select, this`base, this`baseWords, this`done, dir, out, inp, pend, probe, words
      ensures Live(words) && xs == [] && probe.t.mem == old(probe.t.mem)
      ensures ok ==> words[..] == Words(old(probe.t.mem), addr, words.Length) && Knows(Idea(), probe.t)
      ensures !ok ==> !selectValid
    {
      hide DoAll, Wordly, Cut, Valid, InChunk, Words, Selecting, DrwReads, Live, Tracks;
      ghost var h, t, w := Idea(), probe.t, words[..];
      ghost var head := Selecting(h) + [SetTar(addr)];
      var n := words.Length;
      ok := Begin(addr, words);
      var i: nat := 0;
      assert head + DrwReads(0, 0) == head by { NoDrwReads(); }
      while i < n
        invariant i <= n && base == t && baseWords == w
        invariant Progress(words, ok, head + DrwReads(0, i))
      {
        DrwReadsSnoc(0, i);
        assert head + DrwReads(0, i) + [ReadDrw(i - 1)] == head + DrwReads(0, i + 1);
        ok := Next(ReadDrw(i - 1), words, ok, head + DrwReads(0, i));
        i := i + 1;
      }
      ChunkSome(addr, n);
      ghost var all := ReadXfers(h, addr, n);
      ok := Next(ReadBuff(n - 1), words, ok, head + DrwReads(0, n));
      ok := Finish(words, ok, all);
      if ok {
        ReadDone(h, t, addr, n, w);
      } else {
        ReadNoWrites(h, addr, n);
        CutKeeps(t, all, probe.t.mem);
      }
    }

    /** A chunk, tried eight times at most. */
    method ReadChunk(addr: nat, words: array<nat>) returns (ok: bool)
      requires Settled(words) && InChunk(addr, words.Length) && addr < WORD
      modifies this`nbits, this`npend, this`xs, this`selectValid, this`select, this`base, this`baseWords, this`done, dir, out, inp, pend, probe, words
      ensures Settled(words) && probe.t.mem == old(probe.t.mem)
      ensures ok ==> words[..] == Words(old(probe.t.mem), addr, words.Length)
    {
      hide Live, InChunk, Words;
      var attempt := 0;
      while attempt < MAX_RETRY
        invariant Settled(words) && probe.t.mem == old(probe.t.mem)
      {
        ok := ReadAttempt(addr, words);
        if ok { return; }
        ClearErrors(words);
        attempt := attempt + 1;
      }
      ok := false;
    }

    /** `dap_mem_read_block`: whatever the target refused or the line garbled on
        the way, a block read with success is the target's memory. */
    method ReadBlock(addr: nat, data: array<nat>) returns (ok: bool)
      requires Settled(data) && addr < WORD
      modifies this`nbits, this`npend, this`xs, this`selectValid, this`select, this`base, this`baseWords, this`done, dir, out, inp, pend, probe, data
      ensures Settled(data) && probe.t.mem == old(probe.t.mem)
      ensures ok ==> addr % 4 == 0 && data[..] == BlockWords(old(probe.t.mem), addr, data.Length)
    {
      hide Valid, InChunk, Words, BlockWords, ChunkWords, Wordly, AddrOf;
      if addr % 4 != 0 { return false; }
      var i: nat, at: nat := 0, addr;
      ghost var mem := probe.t.mem;
      AddrFrom(addr, 0, addr, 0);
      while i < data.Length
        invariant i <= data.Length && Settled(data) && probe.t.mem == mem && at == AddrOf(addr, i)
        invariant data[..i] == BlockWords(mem, addr, i)
      {
        AlignedAddr(addr, i);
        ChunkFits(at, data.Length - i);
        var k: nat := ChunkWords(at, data.Length - i);
        var words := new nat[k](_ => 0);
        ok := ReadChunk(at, words);
        if !ok { return; }
        ChunkOfBlock(mem, addr, i, k);
        var j: nat := 0;
        while j < k
          invariant j <= k && Settled(data) && probe.t.mem == mem
          invariant words[..] == Words(mem, at, k)
          invariant data[..i] == BlockWords(mem, addr, i) && data[i..i + j] == words[..j]
        {
          data[i + j] := words[j];
          j := j + 1;
        }
        assert words[..k] == words[..];
        assert data[..i + k] == data[..i] + data[i..i + k];
        NextAddr(addr, i, k);
        at := (at + 4 * k) % WORD;
        i := i + k;
      }
      assert data[..data.Length] == data[..];
      ok := true;
    }

    /** One attempt at writing a chunk: even if it fails, nothing outside the
        chunk has changed. */
    method WriteAttempt(addr: nat, data: seq<nat>, none: array<nat>) returns (ok: bool)
      requires Settled(none) && InChunk(addr, |data|) && addr < WORD && none.Length == 0
      requires forall i :: 0 <= i < |data| ==> data[i] < WORD
      modifies this`nbits, this`npend, this`xs, this`selectValid, this`select, this`base, this`baseWords, this`done, dir, out, inp, pend, probe, none
      ensures Live(none) && xs == [] && SameElsewhere(old(probe.t.mem), probe.t.mem, addr, |data|)
      ensures ok ==> Holds(probe.t.mem, addr, data) && Knows(Idea(), probe.t)
      ensures !ok ==> !selectValid
    {
      hide DoAll, Wordly, Cut, Valid, InChunk, SameElsewhere, Holds, Selecting, DrwWrites, Live, Tracks;
      ghost var h, t := Idea(), probe.t;
      ok := Begin(addr, none);
      var i: nat := 0;
      assert WriteXfers(h, addr, data[..0]) == Selecting(h) + [SetTar(addr)];
      while i < |data|
        invariant i <= |data| && base == t && baseWords == []
        invariant Progress(none, ok, WriteXfers(h, addr, data[..i]))
      {
        WriteXfersSnoc(h, addr, data, i);
        ok := Next(WriteDrw(data[i]), none, ok, WriteXfers(h, addr, data[..i]));
        i := i + 1;
      }
      assert data[..|data|] == data;
      ok := Finish(none, ok, WriteXfers(h, addr, data));
      if ok {
        WriteHolds(h, t, addr, data);
      } else {
        CutStays(h, t, addr, data, probe.t.mem);
      }
    }

    method WriteChunk(addr: nat, data: seq<nat>, none: array<nat>) returns (ok: bool)
      requires Settled(none) && InChunk(addr, |data|) && addr < WORD && none.Length == 0
      requires forall i :: 0 <= i < |data| ==> data[i] < WORD
      modifies this`nbits, this`npend, this`xs, this`selectValid, this`select, this`base, this`baseWords, this`done, dir, out, inp, pend, probe, none
      ensures Settled(none) && SameElsewhere(old(probe.t.mem), probe.t.mem, addr, |data|)
      ensures ok ==> Holds(probe.t.mem, addr, data)
    {
      hide Live, InChunk, SameElsewhere, Holds;
      var attempt := 0;
      ghost var mem := probe.t.mem;
      SameSelf(mem, addr, |data|);
      while attempt < MAX_RETRY
        invariant Settled(none) && SameElsewhere(mem, probe.t.mem, addr, |data|)
      {
        ghost var was := probe.t.mem;
        ok := WriteAttempt(addr, data, none);
        SameTrans(mem, was, probe.t.mem, addr, |data|);
        if ok { return; }
        ClearErrors(none);
        attempt := attempt + 1;
      }
      ok := false;
    }

    /** `dap_mem_write_block`: success means the target's memory holds the block;
        no other cell has changed either way. */
    method WriteBlock(addr: nat, data: seq<nat>, none: array<nat>) returns (ok: bool)
      requires Settled(none) && addr < WORD && none.Length == 0
      requires forall i :: 0 <= i < |data| ==> data[i] < WORD
      modifies this`nbits, this`npend, this`xs, this`selectValid, this`select, this`base, this`baseWords, this`done, dir, out, inp, pend, probe, none
      ensures Settled(none) && SameOutside(old(probe.t.mem), probe.t.mem, addr, |data|)
      ensures ok ==> addr % 4 == 0 && HoldsBlock(probe.t.mem, addr, data)
    {
      hide Live, InChunk, ChunkWords, SameElsewhere, SameOutside, Holds, HoldsBlock, AddrOf;
      ghost var mem := probe.t.mem;
      OutsideSelf(mem, addr, |data|);
      if addr % 4 != 0 { return false; }
      var i: nat, at: nat := 0, addr;
      AddrFrom(addr, 0, addr, 0);
      NothingHeld(mem, addr, data[..0]);
      while i < |data|
        invariant i <= |data| && Settled(none) && at == AddrOf(addr, i)
        invariant SameOutside(mem, probe.t.mem, addr, |data|) && HoldsBlock(probe.t.mem, addr, data[..i])
      {
        AlignedAddr(addr, i);
        ChunkFits(at, |data| - i);
        var k: nat := ChunkWords(at, |data| - i);
        ghost var was := probe.t.mem;
        ok := WriteChunk(at, data[i..i + k], none);
        SameWider(was, probe.t.mem, addr, |data|, i, k);
        OutsideTrans(mem, was, probe.t.mem, addr, |data|);
        if !ok { return; }
        HoldsJoin(was, probe.t.mem, addr, data, i, k);
        NextAddr(addr, i, k);
        at := (at + 4 * k) % WORD;
        i := i + k;
      }
      assert data[..|data|] == data;
      ok := true;
    }
  }
}
