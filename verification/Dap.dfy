/** Block reads and writes over SWD: transfers are queued and clocked out in
    batches, a read of the access port returns the result of the read before it,
    and any transfer may be refused or come back garbled. */
module Dap {
  const MAX_RETRY: nat := 8

  const WORD: nat := 0x1_0000_0000

  // ---------------------------------------------------------------------
  // Target
  // ---------------------------------------------------------------------

  /** The debug port and its memory access port: `posted` is the result of the
      last access-port read, `sticky` an error that refuses everything until it
      is cleared, and `noise` what another access port would answer. */
  datatype Target = Target(mem: map<nat, nat>, select: nat, tar: nat, posted: nat, sticky: bool, noise: nat)

  /** Register writes and reads; a read may store its result in a word of the
      caller's buffer. */
  datatype Xfer = SetSelect(v: nat) | SetTar(v: nat) | ReadDrw(dst: int) | ReadBuff(dst: int) | WriteDrw(v: nat) | Abort

  /** What becomes of a transfer on the wire. */
  datatype Fate = Okay | Wait | Fault | BadParity

  function Cell(mem: map<nat, nat>, a: nat): nat { if a in mem then mem[a] else 0 }

  /** The address advances within a kilobyte only (section 7.5 of ADIv5). */
  function Advance(tar: nat): nat { tar / 1024 * 1024 + (tar + 4) % 1024 }

  predicate Reads(x: Xfer) { x.ReadDrw? || x.ReadBuff? }

  /** The target does the access: not while an error sticks, unless it is the
      write that clears it. */
  predicate Acked(t: Target, x: Xfer, f: Fate) { (x.Abort? || !t.sticky) && (f == Okay || f == BadParity) }

  /** An access done, and the value a read drives on the wire. */
  function Perform(t: Target, x: Xfer): (Target, nat) {
    match x
    case SetSelect(v) => (t.(select := v), 0)
    case Abort => (t.(sticky := false), 0)
    case ReadBuff(_) => (t, t.posted)
    case SetTar(v) => if t.select == 0 then (t.(tar := v), 0) else (t, 0)
    case ReadDrw(_) =>
      if t.select == 0 then (t.(posted := Cell(t.mem, t.tar), tar := Advance(t.tar)), t.posted)
      else (t.(posted := t.noise), t.posted)
    case WriteDrw(v) => if t.select == 0 then (t.(mem := t.mem[t.tar := v], tar := Advance(t.tar)), 0) else (t, 0)
  }

  /** A refused transfer leaves an error behind: overrun detection is on. */
  function Clock(t: Target, x: Xfer, f: Fate): (Target, nat) {
    if Acked(t, x, f) then Perform(t, x) else (t.(sticky := true), 0)
  }

  // ---------------------------------------------------------------------
  // Batches
  // ---------------------------------------------------------------------

  predicate Good(t: Target, x: Xfer, f: Fate) { Acked(t, x, f) && (Reads(x) ==> f == Okay) }

  function Stored(words: seq<nat>, x: Xfer, v: nat): (r: seq<nat>)
    ensures |r| == |words|
  {
    match x
    case ReadDrw(d) => if 0 <= d < |words| then words[d := v] else words
    case ReadBuff(d) => if 0 <= d < |words| then words[d := v] else words
    case _ => words
  }

  datatype Outcome = Outcome(t: Target, words: seq<nat>, ok: bool)

  /** `dap_flush`: the whole batch is clocked; results count up to the first
      transfer that failed. */
  function Flush(t: Target, xs: seq<Xfer>, fates: seq<Fate>, words: seq<nat>, ok: bool): Outcome
    decreases xs
  {
    if xs == [] then Outcome(t, words, ok)
    else
      var f := if fates == [] then Okay else fates[0];
      var good := ok && Good(t, xs[0], f);
      var (t1, v) := Clock(t, xs[0], f);
      Flush(t1, xs[1..], if fates == [] then [] else fates[1..], if good then Stored(words, xs[0], v) else words, good)
  }

  /** Batches in turn, until one fails. */
  function FlushAll(t: Target, batches: seq<seq<Xfer>>, fates: seq<seq<Fate>>, words: seq<nat>): Outcome
    decreases batches
  {
    if batches == [] then Outcome(t, words, true)
    else
      var r := Flush(t, batches[0], if fates == [] then [] else fates[0], words, true);
      if !r.ok then r else FlushAll(r.t, batches[1..], if fates == [] then [] else fates[1..], r.words)
  }

  function Joined(batches: seq<seq<Xfer>>): seq<Xfer>
    decreases batches
  {
    if batches == [] then [] else batches[0] + Joined(batches[1..])
  }

  /** Every transfer done, in order. */
  function DoAll(t: Target, xs: seq<Xfer>, words: seq<nat>): (Target, seq<nat>)
    decreases xs
  {
    if xs == [] then (t, words)
    else
      var (t1, v) := Perform(t, xs[0]);
      DoAll(t1, xs[1..], Stored(words, xs[0], v))
  }

  lemma {:induction false} FailedStays(t: Target, xs: seq<Xfer>, fates: seq<Fate>, words: seq<nat>)
    ensures !Flush(t, xs, fates, words, false).ok
    decreases xs
  {
    hide Good, Clock, Stored;
    if xs != [] {
      var f := if fates == [] then Okay else fates[0];
      FailedStays(Clock(t, xs[0], f).0, xs[1..], if fates == [] then [] else fates[1..], words);
    }
  }

  /** A batch that comes back good did every transfer. */
  lemma {:induction false} GoodFlush(t: Target, xs: seq<Xfer>, fates: seq<Fate>, words: seq<nat>)
    requires Flush(t, xs, fates, words, true).ok
    ensures var r := Flush(t, xs, fates, words, true); (r.t, r.words) == DoAll(t, xs, words)
    decreases xs
  {
    hide Stored, Perform;
    if xs != [] {
      var f := if fates == [] then Okay else fates[0];
      var rest := if fates == [] then [] else fates[1..];
      var (t1, v) := Clock(t, xs[0], f);
      if Good(t, xs[0], f) {
        GoodFlush(t1, xs[1..], rest, Stored(words, xs[0], v));
      } else {
        FailedStays(t1, xs[1..], rest, words);
      }
    }
  }

  lemma {:induction false} DoAllJoin(t: Target, a: seq<Xfer>, b: seq<Xfer>, words: seq<nat>)
    ensures var (t1, w1) := DoAll(t, a, words); DoAll(t, a + b, words) == DoAll(t1, b, w1)
    decreases a
  {
    hide Stored, Perform;
    if a == [] {
      assert a + b == b;
    } else {
      assert (a + b)[1..] == a[1..] + b;
      var (t1, v) := Perform(t, a[0]);
      DoAllJoin(t1, a[1..], b, Stored(words, a[0], v));
    }
  }

  /** However the transfers were cut into batches, success means all were done,
      in order. */
  lemma {:induction false} GoodBatches(t: Target, batches: seq<seq<Xfer>>, fates: seq<seq<Fate>>, words: seq<nat>)
    requires FlushAll(t, batches, fates, words).ok
    ensures var r := FlushAll(t, batches, fates, words); (r.t, r.words) == DoAll(t, Joined(batches), words)
    decreases batches
  {
    hide Flush, DoAll;
    if batches == [] {
      DoNothing(t, words);
    } else {
      var f := if fates == [] then [] else fates[0];
      var r := Flush(t, batches[0], f, words, true);
      GoodFlush(t, batches[0], f, words);
      GoodBatches(r.t, batches[1..], if fates == [] then [] else fates[1..], r.words);
      DoAllJoin(t, batches[0], Joined(batches[1..]), words);
    }
  }

  lemma DoNothing(t: Target, words: seq<nat>)
    ensures DoAll(t, [], words) == (t, words)
  {
  }

  // ---------------------------------------------------------------------
  // Reading a chunk
  // ---------------------------------------------------------------------

  /** The host's idea of the target's select register, if it has one. */
  datatype Host = Host(select: nat, valid: bool)

  /** The host is right whenever it has an idea. */
  predicate Knows(h: Host, t: Target) { h.valid ==> t.select == h.select }

  /** Selecting the memory access port, unless it is known to be selected. */
  function Selecting(h: Host): seq<Xfer> { if h.valid && h.select == 0 then [] else [SetSelect(0)] }

  /** Reads of the data register: the i-th stores the result of the one before. */
  function DrwReads(from: nat, n: nat): seq<Xfer>
    decreases n
  {
    if n == 0 then [] else [ReadDrw(from - 1)] + DrwReads(from + 1, n - 1)
  }

  function ReadXfers(h: Host, addr: nat, n: nat): seq<Xfer>
    requires n > 0
  {
    Selecting(h) + [SetTar(addr)] + DrwReads(0, n) + [ReadBuff(n - 1)]
  }

  /** One attempt's circumstances: how its transfers are cut into batches, what
      becomes of each, and of the clearing of errors after a failure. */
  datatype Try = Try(batches: seq<seq<Xfer>>, fates: seq<seq<Fate>>, clear: Fate)

  function AfterTry(h: Host, ok: bool): Host { if ok then Host(0, true) else h.(valid := false) }

  /** A chunk is inside one aligned half kilobyte. */
  predicate InChunk(addr: nat, n: nat) { addr % 4 == 0 && n > 0 && addr % 512 + 4 * n <= 512 }

  lemma AdvanceBy(q: nat, a: nat)
    requires a + 4 < 1024
    ensures Advance(1024 * q + a) == 1024 * q + (a + 4)
  {
    assert (1024 * q + a) / 1024 == q;
    assert (1024 * q + a + 4) % 1024 == a + 4;
  }

  lemma HalfRemainder(q: nat, r: nat)
    requires r < 1024
    ensures (1024 * q + r) % 512 == if r < 512 then r else r - 512
  {
  }

  /** Inside a chunk the address never meets the kilobyte boundary. */
  lemma HalfOfKilobyte(addr: nat, n: nat, i: nat)
    requires InChunk(addr, n) && i + 1 < n
    ensures Advance(addr + 4 * i) == addr + 4 * (i + 1)
  {
    hide Advance;
    var q, r := addr / 1024, addr % 1024;
    assert addr == 1024 * q + r;
    HalfRemainder(q, r);
    AdvanceBy(q, r + 4 * i);
  }

  /** The words of the target's memory. */
  function Words(mem: map<nat, nat>, addr: nat, n: nat): (r: seq<nat>)
    ensures |r| == n && forall i :: 0 <= i < n ==> r[i] == Cell(mem, addr + 4 * i)
  {
    seq(n, i requires 0 <= i < n => Cell(mem, addr + 4 * i))
  }

  /** Part way through the reads: the first words are in, the next one posted. */
  predicate Reading(t: Target, mem: map<nat, nat>, words: seq<nat>, addr: nat, n: nat, i: nat) {
    && t.mem == mem && t.select == 0 && |words| == n && i <= n
    && (i < n ==> t.tar == addr + 4 * i)
    && (i > 0 ==> t.posted == Cell(mem, addr + 4 * (i - 1)))
    && (forall k :: 0 <= k < i - 1 ==> words[k] == Cell(mem, addr + 4 * k))
  }

  lemma {:induction false} DrwReadsIs(t: Target, mem: map<nat, nat>, words: seq<nat>, addr: nat, n: nat, i: nat)
    requires InChunk(addr, n) && Reading(t, mem, words, addr, n, i)
    ensures var (t1, w1) := DoAll(t, DrwReads(i, n - i), words); Reading(t1, mem, w1, addr, n, n)
    decreases n - i
  {
    hide InChunk, Advance, Cell;
    if i < n {
      var xs := DrwReads(i, n - i);
      assert xs[0] == ReadDrw(i - 1) && xs[1..] == DrwReads(i + 1, n - i - 1);
      if i + 1 < n { HalfOfKilobyte(addr, n, i); }
      var (t1, v) := Perform(t, xs[0]);
      var w1 := Stored(words, xs[0], v);
      DrwReadsIs(t1, mem, w1, addr, n, i + 1);
    }
  }

  lemma SelectDone(h: Host, t: Target, words: seq<nat>)
    requires Knows(h, t)
    ensures DoAll(t, Selecting(h), words) == (t.(select := 0), words)
  {
    if !(h.valid && h.select == 0) {
      assert Selecting(h)[1..] == [];
    }
  }

  lemma OneDone(t: Target, x: Xfer, words: seq<nat>)
    ensures DoAll(t, [x], words) == (Perform(t, x).0, Stored(words, x, Perform(t, x).1))
  {
    assert [x][1..] == [];
  }

  /** All of a chunk's transfers done give the memory's words. */
  lemma ReadDone(h: Host, t: Target, addr: nat, n: nat, words: seq<nat>)
    requires Knows(h, t) && InChunk(addr, n) && |words| == n
    ensures var (t1, w1) := DoAll(t, ReadXfers(h, addr, n), words);
      w1 == Words(t.mem, addr, n) && t1.mem == t.mem && t1.select == 0
  {
    hide DoAll, DrwReads, Selecting, InChunk, Cell;
    var a, b, c := Selecting(h), [SetTar(addr)], DrwReads(0, n);
    var d := [ReadBuff(n - 1)];
    DoAllJoin(t, a + b + c, d, words);
    DoAllJoin(t, a + b, c, words);
    DoAllJoin(t, a, b, words);
    SelectDone(h, t, words);
    var t1 := t.(select := 0);
    OneDone(t1, SetTar(addr), words);
    var t2 := t1.(tar := addr);
    ChunkSome(addr, n);
    DrwReadsIs(t2, t.mem, words, addr, n, 0);
    var (t3, w3) := DoAll(t2, c, words);
    OneDone(t3, ReadBuff(n - 1), w3);
    assert w3[n - 1 := t3.posted] == Words(t.mem, addr, n);
  }

  lemma ChunkSome(addr: nat, n: nat)
    requires InChunk(addr, n)
    ensures n > 0
  {
  }

  // ---------------------------------------------------------------------
  // Failure leaves memory and knowledge intact
  // ---------------------------------------------------------------------

  predicate NoWrites(xs: seq<Xfer>) { forall i :: 0 <= i < |xs| ==> !xs[i].WriteDrw? }

  lemma {:induction false} FlushKeepsMem(t: Target, xs: seq<Xfer>, fates: seq<Fate>, words: seq<nat>, ok: bool)
    requires NoWrites(xs)
    ensures Flush(t, xs, fates, words, ok).t.mem == t.mem && |Flush(t, xs, fates, words, ok).words| == |words|
    decreases xs
  {
    hide Good, Stored;
    if xs != [] {
      var f := if fates == [] then Okay else fates[0];
      var good := ok && Good(t, xs[0], f);
      var (t1, v) := Clock(t, xs[0], f);
      FlushKeepsMem(t1, xs[1..], if fates == [] then [] else fates[1..], if good then Stored(words, xs[0], v) else words, good);
    }
  }

  lemma {:induction false} FlushAllKeepsMem(t: Target, batches: seq<seq<Xfer>>, fates: seq<seq<Fate>>, words: seq<nat>)
    requires forall i :: 0 <= i < |batches| ==> NoWrites(batches[i])
    ensures FlushAll(t, batches, fates, words).t.mem == t.mem && |FlushAll(t, batches, fates, words).words| == |words|
    decreases batches
  {
    hide Flush, NoWrites;
    if batches != [] {
      var f := if fates == [] then [] else fates[0];
      FlushKeepsMem(t, batches[0], f, words, true);
      var r := Flush(t, batches[0], f, words, true);
      FlushAllKeepsMem(r.t, batches[1..], if fates == [] then [] else fates[1..], r.words);
    }
  }

  lemma {:induction false} PartsNoWrites(batches: seq<seq<Xfer>>)
    requires NoWrites(Joined(batches))
    ensures forall i :: 0 <= i < |batches| ==> NoWrites(batches[i])
    decreases batches
  {
    if batches != [] {
      var all := Joined(batches);
      assert forall k :: 0 <= k < |batches[0]| ==> batches[0][k] == all[k];
      assert Joined(batches[1..]) == all[|batches[0]|..];
      assert forall k :: 0 <= k < |Joined(batches[1..])| ==> Joined(batches[1..])[k] == all[|batches[0]| + k];
      PartsNoWrites(batches[1..]);
    }
  }

  lemma {:induction false} DrwNoWrites(from: nat, n: nat)
    ensures NoWrites(DrwReads(from, n))
    decreases n
  {
    if n > 0 { DrwNoWrites(from + 1, n - 1); }
  }

  lemma ReadNoWrites(h: Host, addr: nat, n: nat)
    requires n > 0
    ensures NoWrites(ReadXfers(h, addr, n))
  {
    DrwNoWrites(0, n);
  }

  // ---------------------------------------------------------------------
  // A chunk, with its retries
  // ---------------------------------------------------------------------

  datatype Result = Result(t: Target, h: Host, words: seq<nat>, ok: bool)

  /** Attempts at a chunk, at most eight. */
  function ReadChunk(t: Target, h: Host, addr: nat, n: nat, words: seq<nat>, tries: seq<Try>, left: nat): Result
    requires n > 0
    decreases left
  {
    if left == 0 || tries == [] then Result(t, h, words, false)
    else
      var r := FlushAll(t, tries[0].batches, tries[0].fates, words);
      if r.ok then Result(r.t, AfterTry(h, true), r.words, true)
      else ReadChunk(Clock(r.t, Abort, tries[0].clear).0, AfterTry(h, false), addr, n, r.words, tries[1..], left - 1)
  }

  /** Each attempt clocks the chunk's transfers, cut somehow. */
  predicate Cuts(tries: seq<Try>, h: Host, addr: nat, n: nat)
    requires n > 0
    decreases tries
  {
    tries == [] || (Joined(tries[0].batches) == ReadXfers(h, addr, n) && Cuts(tries[1..], AfterTry(h, false), addr, n))
  }

  /** Whatever fails and is retried, a chunk that succeeds has read the memory. */
  lemma {:induction false} ReadChunkExact(t: Target, h: Host, addr: nat, n: nat, words: seq<nat>, tries: seq<Try>, left: nat)
    requires Knows(h, t) && InChunk(addr, n) && |words| == n && Cuts(tries, h, addr, n)
    ensures var r := ReadChunk(t, h, addr, n, words, tries, left);
      && r.t.mem == t.mem && Knows(r.h, r.t) && |r.words| == n
      && (r.ok ==> r.words == Words(t.mem, addr, n))
    decreases left
  {
    hide FlushAll, Joined, ReadXfers, Words, InChunk;
    ChunkSome(addr, n);
    if left > 0 && tries != [] {
      var try := tries[0];
      ReadNoWrites(h, addr, n);
      PartsNoWrites(try.batches);
      FlushAllKeepsMem(t, try.batches, try.fates, words);
      var r := FlushAll(t, try.batches, try.fates, words);
      if r.ok {
        GoodBatches(t, try.batches, try.fates, words);
        ReadDone(h, t, addr, n, words);
      } else {
        ReadChunkExact(Clock(r.t, Abort, try.clear).0, AfterTry(h, false), addr, n, r.words, tries[1..], left - 1);
      }
    }
  }

  // ---------------------------------------------------------------------
  // A block
  // ---------------------------------------------------------------------

  /** Words in the next chunk: to the end of the half kilobyte or of the block. */
  function ChunkWords(addr: nat, n: nat): nat {
    var room := (512 - addr % 512) / 4;
    if room > n then n else room
  }

  lemma ChunkFits(addr: nat, n: nat)
    requires addr % 4 == 0 && n > 0
    ensures 0 < ChunkWords(addr, n) <= n && InChunk(addr, ChunkWords(addr, n)) && (addr + 4 * ChunkWords(addr, n)) % 4 == 0
  {
  }

  /** Where a block's word i lies: addresses wrap at 32 bits. */
  function AddrOf(addr: nat, i: nat): (a: nat)
    ensures a < WORD
  {
    (addr + 4 * i) % WORD
  }

  /** Which turn of the address space word i is in. */
  function Turn(addr: nat, i: nat): (q: nat)
    ensures addr + 4 * i == AddrOf(addr, i) + WORD * q
  {
    (addr + 4 * i) / WORD
  }

  function BlockWords(mem: map<nat, nat>, addr: nat, n: nat): (r: seq<nat>)
    ensures |r| == n && forall i :: 0 <= i < n ==> r[i] == Cell(mem, AddrOf(addr, i))
  {
    seq(n, i requires 0 <= i < n => Cell(mem, AddrOf(addr, i)))
  }

  lemma AddrFrom(addr: nat, q: nat, a: nat, i: nat)
    requires addr + 4 * i == a + WORD * q && a < WORD
    ensures AddrOf(addr, i) == a
  {
  }

  lemma AlignedAddr(addr: nat, i: nat)
    requires addr % 4 == 0
    ensures AddrOf(addr, i) % 4 == 0
  {
    var q := Turn(addr, i);
    assert WORD * q == 4 * (0x4000_0000 * q);
  }

  /** The address space only wraps where chunks end. */
  lemma ChunkInSpace(a: nat, k: nat)
    requires InChunk(a, k) && a < WORD
    ensures a + 4 * k <= WORD
  {
    var p := a / 512;
    assert a == 512 * p + a % 512 && p < 0x80_0000;
  }

  /** Inside a chunk it does not. */
  lemma ChunkAddr(addr: nat, i: nat, k: nat, j: nat)
    requires InChunk(AddrOf(addr, i), k) && j < k
    ensures AddrOf(addr, i + j) == AddrOf(addr, i) + 4 * j
  {
    hide InChunk;
    ChunkInSpace(AddrOf(addr, i), k);
    AddrFrom(addr, Turn(addr, i), AddrOf(addr, i) + 4 * j, i + j);
  }

  lemma NextAddr(addr: nat, i: nat, k: nat)
    ensures AddrOf(addr, i + k) == (AddrOf(addr, i) + 4 * k) % WORD
  {
    var a := AddrOf(addr, i) + 4 * k;
    AddrFrom(addr, Turn(addr, i) + a / WORD, a % WORD, i + k);
  }

  /** `dap_mem_read_block`, in words, with the circumstances of each chunk. */
  function ReadBlock(t: Target, h: Host, addr: nat, n: nat, chunks: seq<seq<Try>>): Result
    requires addr % 4 == 0
    decreases n
  {
    if n == 0 then Result(t, h, [], true)
    else
      ChunkFits(addr, n);
      AlignedAddr(addr, ChunkWords(addr, n));
      var k := ChunkWords(addr, n);
      var tries := if chunks == [] then [] else chunks[0];
      var r := ReadChunk(t, h, addr, k, seq(k, _ => 0), tries, MAX_RETRY);
      if !r.ok then r
      else
        var rest := ReadBlock(r.t, r.h, AddrOf(addr, k), n - k, if chunks == [] then [] else chunks[1..]);
        rest.(words := r.words + rest.words)
  }

  /** Each chunk's attempts clock that chunk's transfers. */
  predicate BlockCuts(t: Target, h: Host, addr: nat, n: nat, chunks: seq<seq<Try>>)
    requires addr % 4 == 0
    decreases n
  {
    n == 0 ||
    (ChunkFits(addr, n);
     AlignedAddr(addr, ChunkWords(addr, n));
     var k := ChunkWords(addr, n);
     var tries := if chunks == [] then [] else chunks[0];
     && Cuts(tries, h, addr, k)
     && var r := ReadChunk(t, h, addr, k, seq(k, _ => 0), tries, MAX_RETRY);
        r.ok ==> BlockCuts(r.t, r.h, AddrOf(addr, k), n - k, if chunks == [] then [] else chunks[1..]))
  }

  /** For every address and length, every cutting into batches and every pattern
      of refusals and garbled reads: a block read that succeeds returns the
      target's memory. */
  lemma {:induction false} ReadBlockExact(t: Target, h: Host, addr: nat, n: nat, chunks: seq<seq<Try>>)
    requires addr % 4 == 0 && addr < WORD && Knows(h, t) && BlockCuts(t, h, addr, n, chunks)
    ensures var r := ReadBlock(t, h, addr, n, chunks);
      r.t.mem == t.mem && Knows(r.h, r.t) && (r.ok ==> r.words == BlockWords(t.mem, addr, n))
    decreases n
  {
    hide ReadChunk, Cuts, Words, BlockWords, ChunkWords, InChunk, AddrOf;
    if n > 0 {
      ChunkFits(addr, n);
      var k := ChunkWords(addr, n);
      var tries := if chunks == [] then [] else chunks[0];
      ReadChunkExact(t, h, addr, k, seq(k, _ => 0), tries, MAX_RETRY);
      var r := ReadChunk(t, h, addr, k, seq(k, _ => 0), tries, MAX_RETRY);
      if r.ok {
        AlignedAddr(addr, k);
        ReadBlockExact(r.t, r.h, AddrOf(addr, k), n - k, if chunks == [] then [] else chunks[1..]);
        FirstChunk(t.mem, addr, k, n - k);
      }
    }
  }

  /** A chunk is its words of the block. */
  lemma ChunkOfBlock(mem: map<nat, nat>, addr: nat, i: nat, k: nat)
    requires InChunk(AddrOf(addr, i), k)
    ensures BlockWords(mem, addr, i) + Words(mem, AddrOf(addr, i), k) == BlockWords(mem, addr, i + k)
  {
    hide AddrOf, InChunk, Cell;
    var a, b := BlockWords(mem, addr, i) + Words(mem, AddrOf(addr, i), k), BlockWords(mem, addr, i + k);
    forall j | 0 <= j < i + k
      ensures a[j] == b[j]
    {
      if j >= i { ChunkAddr(addr, i, k, j - i); }
    }
  }

  lemma FirstChunk(mem: map<nat, nat>, addr: nat, k: nat, m: nat)
    requires InChunk(addr, k) && addr < WORD
    ensures Words(mem, addr, k) + BlockWords(mem, AddrOf(addr, k), m) == BlockWords(mem, addr, k + m)
  {
    hide AddrOf, InChunk, Cell;
    AddrFrom(addr, 0, addr, 0);
    var a, b := Words(mem, addr, k) + BlockWords(mem, AddrOf(addr, k), m), BlockWords(mem, addr, k + m);
    forall i | 0 <= i < k + m
      ensures a[i] == b[i]
    {
      if i < k { ChunkAddr(addr, 0, k, i); } else { LaterAddr(addr, k, i - k); }
    }
  }

  lemma LaterAddr(addr: nat, i: nat, j: nat)
    ensures AddrOf(AddrOf(addr, i), j) == AddrOf(addr, i + j)
  {
    var a := AddrOf(addr, i);
    AddrFrom(addr, Turn(addr, i) + Turn(a, j), AddrOf(a, j), i + j);
  }

  // ---------------------------------------------------------------------
  // Writing
  // ---------------------------------------------------------------------

  function DrwWrites(data: seq<nat>): (r: seq<Xfer>)
    ensures |r| == |data| && forall i :: 0 <= i < |data| ==> r[i] == WriteDrw(data[i])
  {
    seq(|data|, i requires 0 <= i < |data| => WriteDrw(data[i]))
  }

  function WriteXfers(h: Host, addr: nat, data: seq<nat>): seq<Xfer> {
    Selecting(h) + [SetTar(addr)] + DrwWrites(data)
  }

  /** Memory with words put in from an address on. */
  function PutWords(mem: map<nat, nat>, addr: nat, data: seq<nat>): map<nat, nat>
    decreases data
  {
    if data == [] then mem else PutWords(mem[addr := data[0]], addr + 4, data[1..])
  }

  lemma {:induction false} DrwWritesIs(t: Target, addr: nat, n: nat, i: nat, data: seq<nat>)
    requires InChunk(addr, n) && t.select == 0 && (data != [] ==> t.tar == addr + 4 * i) && i + |data| == n
    ensures var (t1, w1) := DoAll(t, DrwWrites(data), []);
      t1.mem == PutWords(t.mem, addr + 4 * i, data) && t1.select == 0
    decreases data
  {
    hide InChunk, Advance;
    if data != [] {
      var xs := DrwWrites(data);
      assert xs[1..] == DrwWrites(data[1..]);
      if i + 1 < n { HalfOfKilobyte(addr, n, i); }
      DrwWritesIs(Perform(t, xs[0]).0, addr, n, i + 1, data[1..]);
    }
  }

  lemma WriteDone(h: Host, t: Target, addr: nat, data: seq<nat>)
    requires Knows(h, t) && InChunk(addr, |data|)
    ensures var (t1, w1) := DoAll(t, WriteXfers(h, addr, data), []);
      t1.mem == PutWords(t.mem, addr, data) && t1.select == 0
  {
    hide DoAll, DrwWrites, Selecting, InChunk, PutWords;
    var a, b, c := Selecting(h), [SetTar(addr)], DrwWrites(data);
    DoAllJoin(t, a + b, c, []);
    DoAllJoin(t, a, b, []);
    SelectDone(h, t, []);
    var t1 := t.(select := 0);
    OneDone(t1, SetTar(addr), []);
    DrwWritesIs(t1.(tar := addr), addr, |data|, 0, data);
  }

  /** Cells other than a chunk's are never touched by its transfers. */
  predicate Within(addr: nat, n: nat, a: nat) { addr <= a < addr + 4 * n }

  predicate SameElsewhere(m: map<nat, nat>, z: map<nat, nat>, addr: nat, n: nat) {
    && (forall a :: a in m && !Within(addr, n, a) ==> a in z && z[a] == m[a])
    && (forall a :: a in z && !Within(addr, n, a) ==> a in m)
  }

  /** The words put in decide the chunk's cells, whatever they held. */
  lemma {:induction false} PutWordsIs(m: map<nat, nat>, addr: nat, data: seq<nat>)
    ensures forall i :: 0 <= i < |data| ==> addr + 4 * i in PutWords(m, addr, data) && PutWords(m, addr, data)[addr + 4 * i] == data[i]
    ensures forall a :: a in PutWords(m, addr, data) ==> a in m || Within(addr, |data|, a)
    ensures forall a :: a in m && !Within(addr, |data|, a) ==> a in PutWords(m, addr, data) && PutWords(m, addr, data)[a] == m[a]
    decreases data
  {
    if data != [] {
      var m1 := m[addr := data[0]];
      PutWordsIs(m1, addr + 4, data[1..]);
      var z := PutWords(m, addr, data);
      forall i | 0 <= i < |data|
        ensures addr + 4 * i in z && z[addr + 4 * i] == data[i]
      {
        if i > 0 {
          assert data[1..][i - 1] == data[i] && addr + 4 + 4 * (i - 1) == addr + 4 * i;
        } else {
          assert !Within(addr + 4, |data| - 1, addr);
        }
      }
      forall a | a in m && !Within(addr, |data|, a)
        ensures a in z && z[a] == m[a]
      {
        assert a in m1 && !Within(addr + 4, |data| - 1, a);
      }
    }
  }

  /** Once a chunk's transfers have all been done, its cells hold the data and
      all others are as they were, whatever earlier attempts had written. */
  lemma WrittenExactly(h: Host, t: Target, addr: nat, data: seq<nat>, i: nat)
    requires Knows(h, t) && InChunk(addr, |data|) && i < |data|
    ensures var (t1, w1) := DoAll(t, WriteXfers(h, addr, data), []);
      Cell(t1.mem, addr + 4 * i) == data[i] && SameElsewhere(t.mem, t1.mem, addr, |data|)
  {
    hide DoAll, WriteXfers, InChunk, PutWords;
    WriteDone(h, t, addr, data);
    PutWordsIs(t.mem, addr, data);
  }

  // ---------------------------------------------------------------------
  // A failed attempt writes nothing outside its chunk
  // ---------------------------------------------------------------------

  /** How far the target got before its first refusal. */
  function Reached(t: Target, xs: seq<Xfer>, fates: seq<Fate>): (k: nat)
    ensures k <= |xs|
    decreases xs
  {
    if xs == [] then 0
    else
      var f := if fates == [] then Okay else fates[0];
      if !Acked(t, xs[0], f) then 0
      else 1 + Reached(Perform(t, xs[0]).0, xs[1..], if fates == [] then [] else fates[1..])
  }

  predicate NoAborts(xs: seq<Xfer>) { forall i :: 0 <= i < |xs| ==> !xs[i].Abort? }

  lemma {:induction false} StuckFlush(t: Target, xs: seq<Xfer>, fates: seq<Fate>, words: seq<nat>, ok: bool)
    requires t.sticky && NoAborts(xs)
    ensures Flush(t, xs, fates, words, ok).t == t
    decreases xs
  {
    hide Good, Stored;
    if xs != [] {
      var f := if fates == [] then Okay else fates[0];
      var good := ok && Good(t, xs[0], f);
      var (t1, v) := Clock(t, xs[0], f);
      StuckFlush(t1, xs[1..], if fates == [] then [] else fates[1..], if good then Stored(words, xs[0], v) else words, good);
    }
  }

  lemma {:induction false} FlushReached(t: Target, xs: seq<Xfer>, fates: seq<Fate>, words: seq<nat>, ok: bool)
    requires NoAborts(xs)
    ensures Flush(t, xs, fates, words, ok).t.mem == DoAll(t, xs[..Reached(t, xs, fates)], []).0.mem
    decreases xs
  {
    hide Good, Stored, Perform;
    if xs != [] {
      var f := if fates == [] then Okay else fates[0];
      var rest := if fates == [] then [] else fates[1..];
      var good := ok && Good(t, xs[0], f);
      var (t1, v) := Clock(t, xs[0], f);
      var w1 := if good then Stored(words, xs[0], v) else words;
      if Acked(t, xs[0], f) {
        FlushReached(t1, xs[1..], rest, w1, good);
        var k := Reached(t1, xs[1..], rest);
        assert xs[..k + 1][1..] == xs[1..][..k];
        NoWordsStored(xs[0], v);
      } else {
        StuckFlush(t1, xs[1..], rest, w1, good);
        assert xs[..0] == [];
      }
    }
  }

  lemma NoWordsStored(x: Xfer, v: nat)
    ensures Stored([], x, v) == []
  {
  }

  lemma {:induction false} DoAllMem(t: Target, xs: seq<Xfer>, words: seq<nat>)
    ensures DoAll(t, xs, words).0 == DoAll(t, xs, []).0
    decreases xs
  {
    hide Stored, Perform;
    if xs != [] {
      var (t1, v) := Perform(t, xs[0]);
      NoWordsStored(xs[0], v);
      DoAllMem(t1, xs[1..], Stored(words, xs[0], v));
      DoAllMem(t1, xs[1..], []);
    }
  }

  /** However it is cut, an attempt has the effect of some leading transfers. */
  lemma {:induction false} AttemptIsPrefix(t: Target, batches: seq<seq<Xfer>>, fates: seq<seq<Fate>>, words: seq<nat>) returns (k: nat)
    requires NoAborts(Joined(batches))
    ensures k <= |Joined(batches)| && FlushAll(t, batches, fates, words).t.mem == DoAll(t, Joined(batches)[..k], []).0.mem
    decreases batches
  {
    hide Flush, DoAll;
    if batches == [] {
      k := 0;
      DoNothing(t, []);
    } else {
      var f := if fates == [] then [] else fates[0];
      var more := Joined(batches[1..]);
      var all := Joined(batches);
      HeadNoAborts(batches[0], more);
      var r := Flush(t, batches[0], f, words, true);
      if r.ok {
        GoodFlush(t, batches[0], f, words);
        DoAllMem(t, batches[0], words);
        var j := AttemptIsPrefix(r.t, batches[1..], if fates == [] then [] else fates[1..], r.words);
        k := |batches[0]| + j;
        assert all[..k] == batches[0] + more[..j];
        DoAllJoin(t, batches[0], more[..j], []);
        DoAllMem(DoAll(t, batches[0], []).0, more[..j], DoAll(t, batches[0], []).1);
      } else {
        FlushReached(t, batches[0], f, words, true);
        k := Reached(t, batches[0], f);
        assert all[..k] == batches[0][..k];
      }
    }
  }

  lemma HeadNoAborts(a: seq<Xfer>, b: seq<Xfer>)
    requires NoAborts(a + b)
    ensures NoAborts(a) && NoAborts(b)
  {
    assert forall i :: 0 <= i < |a| ==> (a + b)[i] == a[i];
    assert forall i :: 0 <= i < |b| ==> (a + b)[|a| + i] == b[i];
  }

  /** Writes from inside a chunk onwards stay inside it. */
  lemma {:induction false} WritesStay(t: Target, addr: nat, n: nat, i: nat, data: seq<nat>, k: nat)
    requires InChunk(addr, n) && t.select == 0 && (data != [] ==> t.tar == addr + 4 * i) && i + |data| == n && k <= |data|
    ensures SameElsewhere(t.mem, DoAll(t, DrwWrites(data)[..k], []).0.mem, addr, n)
    decreases data
  {
    hide InChunk, Advance;
    if k > 0 {
      var xs := DrwWrites(data)[..k];
      assert xs[1..] == DrwWrites(data[1..])[..k - 1];
      if i + 1 < n { HalfOfKilobyte(addr, n, i); }
      var t1 := Perform(t, xs[0]).0;
      WritesStay(t1, addr, n, i + 1, data[1..], k - 1);
      assert Within(addr, n, addr + 4 * i);
    }
  }

  lemma SameTrans(a: map<nat, nat>, b: map<nat, nat>, c: map<nat, nat>, addr: nat, n: nat)
    requires SameElsewhere(a, b, addr, n) && SameElsewhere(b, c, addr, n)
    ensures SameElsewhere(a, c, addr, n)
  {
  }

  lemma SameSelf(a: map<nat, nat>, addr: nat, n: nat)
    ensures SameElsewhere(a, a, addr, n)
  {
  }

  lemma PrefixStays(h: Host, t: Target, addr: nat, data: seq<nat>, k: nat)
    requires Knows(h, t) && InChunk(addr, |data|) && k <= |WriteXfers(h, addr, data)|
    ensures SameElsewhere(t.mem, DoAll(t, WriteXfers(h, addr, data)[..k], []).0.mem, addr, |data|)
  {
    hide DrwWrites, InChunk, SameElsewhere, DoAll;
    var head := Selecting(h) + [SetTar(addr)];
    var xs := WriteXfers(h, addr, data);
    if k <= |head| {
      assert xs[..k] == head[..k];
      HeadKeepsMem(t, h, addr, k);
      SameSelf(t.mem, addr, |data|);
    } else {
      assert xs[..k] == head + DrwWrites(data)[..k - |head|];
      DoAllJoin(t, head, DrwWrites(data)[..k - |head|], []);
      DoAllJoin(t, Selecting(h), [SetTar(addr)], []);
      SelectDone(h, t, []);
      OneDone(t.(select := 0), SetTar(addr), []);
      WritesStay(t.(select := 0, tar := addr), addr, |data|, 0, data, k - |head|);
    }
  }

  lemma HeadKeepsMem(t: Target, h: Host, addr: nat, k: nat)
    requires k <= |Selecting(h) + [SetTar(addr)]|
    ensures DoAll(t, (Selecting(h) + [SetTar(addr)])[..k], []).0.mem == t.mem
  {
    NoStores(t, (Selecting(h) + [SetTar(addr)])[..k]);
  }

  lemma {:induction false} NoStores(t: Target, xs: seq<Xfer>)
    requires forall i :: 0 <= i < |xs| ==> !xs[i].WriteDrw?
    ensures DoAll(t, xs, []).0.mem == t.mem
    decreases xs
  {
    if xs != [] {
      var (t1, v) := Perform(t, xs[0]);
      NoStores(t1, xs[1..]);
      DoAllMem(t1, xs[1..], Stored([], xs[0], v));
    }
  }

  /** `dap_mem_write_block`'s attempts at a chunk. */
  function WriteChunk(t: Target, h: Host, tries: seq<Try>, left: nat): Result
    decreases left
  {
    if left == 0 || tries == [] then Result(t, h, [], false)
    else
      var r := FlushAll(t, tries[0].batches, tries[0].fates, []);
      if r.ok then Result(r.t, AfterTry(h, true), [], true)
      else WriteChunk(Clock(r.t, Abort, tries[0].clear).0, AfterTry(h, false), tries[1..], left - 1)
  }

  predicate WriteCuts(tries: seq<Try>, h: Host, addr: nat, data: seq<nat>)
    decreases tries
  {
    tries == [] || (Joined(tries[0].batches) == WriteXfers(h, addr, data) && WriteCuts(tries[1..], AfterTry(h, false), addr, data))
  }

  /** Whatever fails and is retried: cells outside the chunk keep their values,
      and success means the chunk's cells hold the data. */
  lemma {:induction false} WriteChunkExact(t: Target, h: Host, addr: nat, data: seq<nat>, tries: seq<Try>, left: nat)
    requires Knows(h, t) && InChunk(addr, |data|) && WriteCuts(tries, h, addr, data)
    ensures var r := WriteChunk(t, h, tries, left);
      && Knows(r.h, r.t) && SameElsewhere(t.mem, r.t.mem, addr, |data|)
      && (r.ok ==> forall i :: 0 <= i < |data| ==> Cell(r.t.mem, addr + 4 * i) == data[i])
    decreases left
  {
    hide FlushAll, Joined, WriteXfers, InChunk, SameElsewhere, Cell;
    SameSelf(t.mem, addr, |data|);
    if left > 0 && tries != [] {
      var try := tries[0];
      var r := FlushAll(t, try.batches, try.fates, []);
      if r.ok {
        GoodBatches(t, try.batches, try.fates, []);
        WriteDone(h, t, addr, data);
        ChunkSome(addr, |data|);
        WrittenExactly(h, t, addr, data, 0);
        forall i | 0 <= i < |data|
          ensures Cell(r.t.mem, addr + 4 * i) == data[i]
        {
          WrittenExactly(h, t, addr, data, i);
        }
      } else {
        WriteNoAborts(h, addr, data);
        var k := AttemptIsPrefix(t, try.batches, try.fates, []);
        PrefixStays(h, t, addr, data, k);
        var t1 := Clock(r.t, Abort, try.clear).0;
        WriteChunkExact(t1, AfterTry(h, false), addr, data, tries[1..], left - 1);
        SameTrans(t.mem, t1.mem, WriteChunk(t1, AfterTry(h, false), tries[1..], left - 1).t.mem, addr, |data|);
      }
    }
  }

  lemma WriteNoAborts(h: Host, addr: nat, data: seq<nat>)
    ensures NoAborts(WriteXfers(h, addr, data))
  {
  }
}
