/** The NOR flash driver: programming can only clear bits and must stay within a
    page, erasing sets whole aligned regions. Writes and erases are cut into the
    commands the part understands. */
module SpiFlash {
  import opened Common

  const PAGE: nat := 256
  const ONES: byte := 0xFF

  // ---------------------------------------------------------------------
  // Commands
  // ---------------------------------------------------------------------

  /** `wrcmd`: three address bytes, or four with the other opcode where three do
      not reach. */
  function Command(addr: nat, cmd3: octet, cmd4: octet): seq<octet> {
    if addr > 0xFFFFFF then
      [cmd4, addr / 0x100_0000 % 256, addr / 0x1_0000 % 256, addr / 0x100 % 256, addr % 256]
    else
      [cmd3, addr / 0x1_0000 % 256, addr / 0x100 % 256, addr % 256]
  }

  /** The address as the part reads it. */
  function Address(cmd: seq<octet>): nat
    requires |cmd| == 4 || |cmd| == 5
  {
    if |cmd| == 4 then (cmd[1] as int) * 0x1_0000 + (cmd[2] as int) * 0x100 + cmd[3] as int
    else (cmd[1] as int) * 0x100_0000 + (cmd[2] as int) * 0x1_0000 + (cmd[3] as int) * 0x100 + cmd[4] as int
  }

  /** The part reads back every 32-bit address. */
  lemma CommandAddress(addr: nat, cmd3: octet, cmd4: octet)
    requires addr < 0x1_0000_0000
    ensures var c := Command(addr, cmd3, cmd4);
      && |c| == (if addr > 0xFFFFFF then 5 else 4)
      && c[0] == (if addr > 0xFFFFFF then cmd4 else cmd3)
      && Address(c) == addr
  {
    var a, b, c := addr / 0x100, addr / 0x1_0000, addr / 0x100_0000;
    assert addr == 0x100 * a + addr % 256;
    assert b == a / 256 && a == 256 * b + a % 256;
    assert c == b / 256 && b == 256 * c + b % 256;
    assert c < 256;
  }

  // ---------------------------------------------------------------------
  // Getting through to the part
  // ---------------------------------------------------------------------

  datatype Power = Idle | Busy | Asleep | Off
  datatype Error = Ok | NotReady | Timeout | BusError | InvalidAddress

  /** The result of polling: the first of the answers, at most `tries`, that
      shows the part ready; an answer below zero is a bus error. */
  function Poll(answers: seq<int>, tries: nat, ready: int -> bool): Error
    decreases tries
  {
    if tries == 0 || answers == [] then Timeout
    else if answers[0] < 0 then BusError
    else if ready(answers[0]) then Ok
    else Poll(answers[1..], tries - 1, ready)
  }

  /** `spiflash_wait_ready`: 500 status polls while busy, 200 identity polls when
      asleep. */
  function Wait(state: Power, id: int, answers: seq<int>): Error {
    match state
    case Off => NotReady
    case Idle => Ok
    case Busy => Poll(answers, 500, (a: int) => a % 2 == 0)
    case Asleep => Poll(answers, 200, (a: int) => a == id)
  }

  /** What a command meets: the answers to polling, and whether the write-enable
      command and the command itself get over the bus. */
  datatype Round = Round(answers: seq<int>, enabled: bool, sent: bool)

  function First(rounds: seq<Round>): Round { if rounds == [] then Round([], true, true) else rounds[0] }

  function Later(rounds: seq<Round>): (r: seq<Round>)
    ensures rounds != [] ==> r == rounds[1..]
  {
    if rounds == [] then [] else rounds[1..]
  }

  /** The part is ready and write-enabled. */
  predicate Open(state: Power, id: int, r: Round) { Wait(state, id, r.answers) == Ok && r.enabled }

  function Blocked(state: Power, id: int, r: Round): Error {
    if Wait(state, id, r.answers) != Ok then Wait(state, id, r.answers) else BusError
  }

  function Rested(state: Power, id: int, r: Round): Power { if Wait(state, id, r.answers) == Ok then Idle else state }

  // ---------------------------------------------------------------------
  // Programming
  // ---------------------------------------------------------------------

  predicate PageAligned(n: nat) { n % PAGE == 0 }

  function And(a: byte, b: byte): byte { a & b }

  /** Every byte of a range combined with new data. */
  function AndInto(mem: seq<byte>, at: nat, data: seq<byte>): (r: seq<byte>)
    requires at + |data| <= |mem|
    ensures |r| == |mem|
    ensures forall i :: 0 <= i < |mem| ==> r[i] == if at <= i < at + |data| then And(mem[i], data[i - at]) else mem[i]
  {
    seq(|mem|, i requires 0 <= i < |mem| => if at <= i < at + |data| then And(mem[i], data[i - at]) else mem[i])
  }

  /** What the part does: the address wraps at the end of the page. */
  function Program(mem: seq<byte>, addr: nat, data: seq<byte>): (r: seq<byte>)
    requires addr / PAGE * PAGE + PAGE <= |mem| && |data| <= PAGE
    ensures |r| == |mem|
    decreases data
  {
    if data == [] then mem
    else
      var rest := data[..|data| - 1];
      var at := addr / PAGE * PAGE + (addr % PAGE + |rest|) % PAGE;
      var m := Program(mem, addr, rest);
      m[at := And(m[at], data[|data| - 1])]
  }

  /** How much one command takes: to the end of the data or of the page. */
  function Piece(offset: nat, length: nat): nat
    requires length > 0
  {
    var n := if length > PAGE then PAGE else length;
    if (offset + n - 1) / PAGE != offset / PAGE then PAGE - offset % PAGE else n
  }

  lemma PieceFits(offset: nat, length: nat)
    requires length > 0
    ensures 1 <= Piece(offset, length) <= length && Piece(offset, length) <= PAGE
    ensures offset % PAGE + Piece(offset, length) <= PAGE
  {
    var n := if length > PAGE then PAGE else length;
    if (offset + n - 1) / PAGE == offset / PAGE {
      assert offset % PAGE + n - 1 == (offset + n - 1) % PAGE;
    }
  }

  lemma AndSnoc(mem: seq<byte>, at: nat, data: seq<byte>)
    requires data != [] && at + |data| <= |mem|
    ensures var rest := data[..|data| - 1];
      var m := AndInto(mem, at, rest);
      m[at + |rest| := And(m[at + |rest|], data[|data| - 1])] == AndInto(mem, at, data)
  {
    hide And;
  }

  lemma PageSlot(addr: nat, n: nat)
    requires addr % PAGE + n < PAGE
    ensures addr / PAGE * PAGE + (addr % PAGE + n) % PAGE == addr + n
  {
  }

  /** Within a page the part combines exactly the addressed range. */
  lemma {:induction false} ProgramIsAnd(mem: seq<byte>, addr: nat, data: seq<byte>)
    requires addr / PAGE * PAGE + PAGE <= |mem| && addr % PAGE + |data| <= PAGE
    ensures addr + |data| <= |mem| && Program(mem, addr, data) == AndInto(mem, addr, data)
    decreases data
  {
    hide And, AndInto, Program;
    InPage(addr, |data|);
    if data == [] {
      NothingChanges(mem, addr);
      ProgramNothing(mem, addr);
    } else {
      ProgramIsAnd(mem, addr, data[..|data| - 1]);
      PageSlot(addr, |data| - 1);
      ProgramLast(mem, addr, data);
      AndSnoc(mem, addr, data);
    }
  }

  lemma ProgramNothing(mem: seq<byte>, addr: nat)
    requires addr / PAGE * PAGE + PAGE <= |mem|
    ensures Program(mem, addr, []) == mem
  {
  }

  lemma ProgramLast(mem: seq<byte>, addr: nat, data: seq<byte>)
    requires addr / PAGE * PAGE + PAGE <= |mem| && 0 < |data| <= PAGE
    ensures var rest := data[..|data| - 1];
      var at := addr / PAGE * PAGE + (addr % PAGE + |rest|) % PAGE;
      at < |mem| && Program(mem, addr, data) == Program(mem, addr, rest)[at := And(Program(mem, addr, rest)[at], data[|data| - 1])]
  {
    hide And;
  }

  lemma InPage(addr: nat, n: nat)
    requires addr % PAGE + n <= PAGE
    ensures addr + n <= addr / PAGE * PAGE + PAGE
  {
  }

  predicate AllOnes(data: seq<byte>) { forall i :: 0 <= i < |data| ==> data[i] == ONES }

  /** Skipping data that clears nothing is sound. */
  lemma OnesClearNothing(mem: seq<byte>, at: nat, data: seq<byte>)
    requires at + |data| <= |mem| && AllOnes(data)
    ensures AndInto(mem, at, data) == mem
  {
    forall i | at <= i < at + |data|
      ensures And(mem[i], data[i - at]) == mem[i]
    {
      AndOnes(mem[i]);
    }
  }

  lemma AndOnes(b: byte)
    ensures And(b, ONES) == b
  {
  }

  lemma AndSplit(mem: seq<byte>, at: nat, data: seq<byte>, k: nat)
    requires at + |data| <= |mem| && k <= |data|
    ensures AndInto(AndInto(mem, at, data[..k]), at + k, data[k..]) == AndInto(mem, at, data)
  {
    hide And;
    var m := AndInto(mem, at, data[..k]);
    var a, b := AndInto(m, at + k, data[k..]), AndInto(mem, at, data);
    forall i | 0 <= i < |mem|
      ensures a[i] == b[i]
    {
      if at + k <= i < at + |data| {
        assert data[k..][i - at - k] == data[i - at];
      }
    }
  }

  /** The outcome of a write: the memory, how many bytes were dealt with, the
      error, the part's state, and the program commands put on the bus. */
  datatype Outcome = Outcome(mem: seq<byte>, done: nat, err: Error, state: Power, issued: seq<(nat, nat)>)

  /** `spiflash_write` at offset `offset` from a block's address `base`. */
  function Write(mem: seq<byte>, base: nat, offset: nat, data: seq<byte>, state: Power, id: int, rounds: seq<Round>): Outcome
    requires PageAligned(base) && PageAligned(|mem|) && base + offset + |data| <= |mem|
    decreases data
  {
    if data == [] then Outcome(mem, 0, Ok, state, [])
    else
      PieceFits(offset, |data|);
      var k := Piece(offset, |data|);
      var round := First(rounds);
      var command := [(base + offset, k)];
      if AllOnes(data[..k]) then
        var r := Write(mem, base, offset + k, data[k..], state, id, rounds);
        r.(done := r.done + k)
      else if !Open(state, id, round) then Outcome(mem, 0, Blocked(state, id, round), Rested(state, id, round), [])
      else if !round.sent then Outcome(mem, 0, BusError, Busy, command)
      else
        PageRoom(mem, base, offset, k);
        var r := Write(Program(mem, base + offset, data[..k]), base, offset + k, data[k..], Busy, id, Later(rounds));
        r.(done := r.done + k, issued := command + r.issued)
  }

  /** A piece of a page-aligned block stays within one page of the memory. */
  lemma PageRoom(mem: seq<byte>, base: nat, offset: nat, k: nat)
    requires PageAligned(base) && PageAligned(|mem|) && base + offset + k <= |mem| && 1 <= k && offset % PAGE + k <= PAGE
    ensures (base + offset) / PAGE * PAGE + PAGE <= |mem| && (base + offset) % PAGE + k <= PAGE
  {
    Aligned(base, offset);
    var q := (base + offset) / PAGE;
    assert base + offset == q * PAGE + (base + offset) % PAGE;
  }

  /** The bytes dealt with, and no others, are combined into their range. */
  predicate Wrote(mem: seq<byte>, at: nat, data: seq<byte>, r: Outcome) {
    && at + |data| <= |mem| && r.done <= |data|
    && r.mem == AndInto(mem, at, data[..r.done])
    && (r.err == Ok <==> r.done == |data|)
  }

  /** Whatever the offset and length and whatever fails, a write combines exactly
      the data it got through into exactly its range, and everything when it
      succeeds. */
  lemma {:induction false} WriteIsAnd(mem: seq<byte>, base: nat, offset: nat, data: seq<byte>, state: Power, id: int, rounds: seq<Round>)
    requires PageAligned(base) && PageAligned(|mem|) && base + offset + |data| <= |mem|
    ensures Wrote(mem, base + offset, data, Write(mem, base, offset, data, state, id, rounds))
    decreases data
  {
    hide AndInto, Program, AllOnes, Piece, PageAligned, Wrote, Open, Wait;
    if data == [] {
      WroteNothing(mem, base + offset, data, Write(mem, base, offset, data, state, id, rounds));
    } else {
      PieceFits(offset, |data|);
      var k := Piece(offset, |data|);
      var round := First(rounds);
      if AllOnes(data[..k]) {
        OnesClearNothing(mem, base + offset, data[..k]);
        WriteIsAnd(mem, base, offset + k, data[k..], state, id, rounds);
        WroteOn(mem, mem, base + offset, data, k, Write(mem, base, offset + k, data[k..], state, id, rounds),
                Write(mem, base, offset, data, state, id, rounds));
      } else if !Open(state, id, round) || !round.sent {
        BlockedFails(state, id, round);
        WroteNothing(mem, base + offset, data, Write(mem, base, offset, data, state, id, rounds));
      } else {
        PageRoom(mem, base, offset, k);
        ProgramIsAnd(mem, base + offset, data[..k]);
        var m := Program(mem, base + offset, data[..k]);
        WriteIsAnd(m, base, offset + k, data[k..], Busy, id, Later(rounds));
        WroteOn(mem, m, base + offset, data, k, Write(m, base, offset + k, data[k..], Busy, id, Later(rounds)),
                Write(mem, base, offset, data, state, id, rounds));
      }
    }
  }

  lemma BlockedFails(state: Power, id: int, r: Round)
    ensures Blocked(state, id, r) != Ok
  {
    hide Wait;
  }

  lemma NothingChanges(mem: seq<byte>, at: nat)
    requires at <= |mem|
    ensures AndInto(mem, at, []) == mem
  {
  }

  lemma WroteNothing(mem: seq<byte>, at: nat, data: seq<byte>, r: Outcome)
    requires at + |data| <= |mem| && r.mem == mem && r.done == 0 && (r.err == Ok <==> data == [])
    ensures Wrote(mem, at, data, r)
  {
    hide AndInto;
    NothingChanges(mem, at);
    assert data[..0] == [];
  }

  lemma WroteOn(mem: seq<byte>, m: seq<byte>, at: nat, data: seq<byte>, k: nat, r: Outcome, z: Outcome)
    requires at + |data| <= |mem| && k <= |data| && m == AndInto(mem, at, data[..k])
    requires Wrote(m, at + k, data[k..], r) && z.mem == r.mem && z.err == r.err && z.done == r.done + k
    ensures Wrote(mem, at, data, z)
  {
    hide AndInto;
    var d := data[..r.done + k];
    assert d[..k] == data[..k] && d[k..] == data[k..][..r.done];
    AndSplit(mem, at, d, k);
  }

  /** A program command inside a range, within one page. */
  predicate Bounded(c: (nat, nat), from: nat, to: nat) {
    from <= c.0 && c.0 + c.1 <= to && 1 <= c.1 && c.0 / PAGE == (c.0 + c.1 - 1) / PAGE
  }

  /** No program command put on the bus crosses a page or leaves the range. */
  lemma {:induction false} NoCrossing(mem: seq<byte>, base: nat, offset: nat, data: seq<byte>, state: Power, id: int, rounds: seq<Round>)
    requires PageAligned(base) && PageAligned(|mem|) && base + offset + |data| <= |mem|
    ensures forall c :: c in Write(mem, base, offset, data, state, id, rounds).issued ==> Bounded(c, base + offset, base + offset + |data|)
    decreases data
  {
    hide AllOnes, Piece, Program, Open, Wait, Blocked;
    if data != [] {
      PieceFits(offset, |data|);
      var k := Piece(offset, |data|);
      Aligned(base, offset);
      SamePage(base + offset, k, offset);
      NoCrossing(mem, base, offset + k, data[k..], state, id, rounds);
      PageRoom(mem, base, offset, k);
      NoCrossing(Program(mem, base + offset, data[..k]), base, offset + k, data[k..], Busy, id, Later(rounds));
    }
  }

  lemma Aligned(base: nat, offset: nat)
    requires PageAligned(base)
    ensures (base + offset) % PAGE == offset % PAGE
  {
  }

  lemma SamePage(addr: nat, k: nat, offset: nat)
    requires 1 <= k && offset % PAGE + k <= PAGE && addr % PAGE == offset % PAGE
    ensures addr / PAGE == (addr + k - 1) / PAGE
  {
    assert addr == PAGE * (addr / PAGE) + addr % PAGE;
  }

  // ---------------------------------------------------------------------
  // Erasing
  // ---------------------------------------------------------------------

  /** An erase command covers 2^size bytes; 0xFF marks a missing address form. */
  datatype EraseCmd = EraseCmd(size: nat, cmd3: octet, cmd4: octet)

  function Chunk(c: EraseCmd, shift: nat): (r: nat)
    requires c.size >= shift
    ensures r > 0
  {
    Pow2(c.size - shift)
  }

  /** The command can start at this block: not too large, aligned, and available
      for the address. */
  predicate Fits(c: EraseCmd, shift: nat, block: nat, count: nat) {
    && c.size != 0 && c.size >= shift && Chunk(c, shift) <= count
    && block * Pow2(shift) % Pow2(c.size) == 0
    && (if block * Pow2(shift) > 0xFFFFFF then c.cmd4 else c.cmd3) != 0xFF
  }

  /** The last command of the table that fits, among the first n. */
  function Choose(table: seq<EraseCmd>, n: nat, shift: nat, block: nat, count: nat): (r: int)
    requires n <= |table|
    ensures -1 <= r < n
    ensures r >= 0 ==> Fits(table[r], shift, block, count) && forall i :: r < i < n ==> !Fits(table[i], shift, block, count)
    ensures r < 0 ==> forall i :: 0 <= i < n ==> !Fits(table[i], shift, block, count)
  {
    if n == 0 then -1
    else if Fits(table[n - 1], shift, block, count) then n - 1
    else Choose(table, n - 1, shift, block, count)
  }

  /** A region erased: its first block, how many, and the command's size. */
  datatype Region = Region(block: nat, blocks: nat, size: nat)

  datatype Erased = Erased(regions: seq<Region>, err: Error, state: Power)

  /** `spiflash_erase`. */
  function Erase(table: seq<EraseCmd>, shift: nat, block: nat, count: nat, state: Power, id: int, rounds: seq<Round>): Erased
    decreases count
  {
    if count == 0 then Erased([], Ok, state)
    else
      var round := First(rounds);
      if !Open(state, id, round) then Erased([], Blocked(state, id, round), Rested(state, id, round))
      else
        var i := Choose(table, |table|, shift, block, count);
        if i < 0 then Erased([], InvalidAddress, Idle)
        else if !round.sent then Erased([], BusError, Busy)
        else
          var n := Chunk(table[i], shift);
          var r := Erase(table, shift, block + n, count - n, Busy, id, Later(rounds));
          r.(regions := [Region(block, n, table[i].size)] + r.regions)
  }

  /** The regions follow one another from `block` to `end`. */
  predicate Tiles(rs: seq<Region>, block: nat, end: nat)
    decreases rs
  {
    if rs == [] then block == end
    else rs[0].block == block && rs[0].blocks > 0 && Tiles(rs[1..], block + rs[0].blocks, end)
  }

  /** A command of the table, of that many blocks, at a multiple of its size. */
  predicate RegionOk(table: seq<EraseCmd>, shift: nat, r: Region) {
    && (exists i :: 0 <= i < |table| && table[i].size == r.size)
    && r.size >= shift && Pow2(r.size - shift) == r.blocks && r.block * Pow2(shift) % Pow2(r.size) == 0
  }

  function Covered(rs: seq<Region>): nat
    decreases rs
  {
    if rs == [] then 0 else rs[0].blocks + Covered(rs[1..])
  }

  /** A successful erase issues aligned commands of the table that tile exactly
      the blocks asked for, each once; one that fails, on the bus, in time or for
      want of a command, tiles a leading part. */
  lemma {:induction false} EraseTiles(table: seq<EraseCmd>, shift: nat, block: nat, count: nat, state: Power, id: int, rounds: seq<Round>)
    ensures var e := Erase(table, shift, block, count, state, id, rounds);
      && (forall k :: 0 <= k < |e.regions| ==> RegionOk(table, shift, e.regions[k]))
      && Tiles(e.regions, block, block + Covered(e.regions)) && Covered(e.regions) <= count
      && (e.err == Ok <==> Covered(e.regions) == count)
    decreases count
  {
    hide RegionOk, Fits, Chunk, Open, Wait, Blocked, Tiles, Covered, Choose;
    NoTiles(block);
    var round := First(rounds);
    BlockedFails(state, id, round);
    if count > 0 && Open(state, id, round) {
      var i := Choose(table, |table|, shift, block, count);
      if i >= 0 && round.sent {
        ChosenSize(table[i], shift, block, count);
        var n := Chunk(table[i], shift);
        EraseTiles(table, shift, block + n, count - n, Busy, id, Later(rounds));
        var rest := Erase(table, shift, block + n, count - n, Busy, id, Later(rounds)).regions;
        TilesCons(Region(block, n, table[i].size), rest, block + n + Covered(rest));
        ChosenOk(table, shift, block, count, i);
      }
    }
  }

  lemma TilesCons(r: Region, rest: seq<Region>, end: nat)
    requires r.blocks > 0 && Tiles(rest, r.block + r.blocks, end)
    ensures Tiles([r] + rest, r.block, end) && Covered([r] + rest) == r.blocks + Covered(rest)
  {
    assert ([r] + rest)[1..] == rest;
  }

  lemma NoTiles(block: nat)
    ensures Tiles([], block, block) && Covered([]) == 0
  {
  }

  lemma ChosenOk(table: seq<EraseCmd>, shift: nat, block: nat, count: nat, i: nat)
    requires i < |table| && Fits(table[i], shift, block, count)
    ensures RegionOk(table, shift, Region(block, Chunk(table[i], shift), table[i].size))
  {
  }

  /** A command of exactly one block, for every address form the range needs,
      means that no erase is refused; it succeeds when every command gets through
      to a part that is awake. */
  lemma {:induction false} BlockEraseSucceeds(table: seq<EraseCmd>, shift: nat, block: nat, count: nat, j: nat, state: Power, id: int, rounds: seq<Round>)
    requires j < |table| && table[j].size == shift && shift > 0 && table[j].cmd3 != 0xFF && table[j].cmd4 != 0xFF
    ensures Erase(table, shift, block, count, state, id, rounds).err != InvalidAddress
    ensures (state == Idle || state == Busy) && Smooth(id, rounds, count) ==> Erase(table, shift, block, count, state, id, rounds).err == Ok
    decreases count
  {
    hide Fits, Wait, Chunk;
    var round := First(rounds);
    NeverInvalid(state, id, round);
    if count > 0 && Open(state, id, round) {
      OneBlockFits(table[j], shift, block, count);
      var i := Choose(table, |table|, shift, block, count);
      assert i >= 0;
      ChosenSize(table[i], shift, block, count);
      var n := Chunk(table[i], shift);
      BlockEraseSucceeds(table, shift, block + n, count - n, j, Busy, id, Later(rounds));
    }
    if count > 0 && Smooth(id, rounds, count) { IdleOk(id, round.answers); }
  }

  /** Every command gets through. */
  predicate Smooth(id: int, rounds: seq<Round>, n: nat) {
    |rounds| >= n && forall i :: 0 <= i < n ==> Open(Busy, id, rounds[i]) && rounds[i].sent
  }

  lemma IdleOk(id: int, answers: seq<int>)
    ensures Wait(Idle, id, answers) == Ok
  {
  }

  lemma {:induction false} PollErrors(answers: seq<int>, tries: nat, ready: int -> bool)
    ensures Poll(answers, tries, ready) != InvalidAddress
    decreases tries
  {
    if tries > 0 && answers != [] { PollErrors(answers[1..], tries - 1, ready); }
  }

  lemma NeverInvalid(state: Power, id: int, r: Round)
    ensures Blocked(state, id, r) != InvalidAddress
  {
    PollErrors(r.answers, 500, (a: int) => a % 2 == 0);
    PollErrors(r.answers, 200, (a: int) => a == id);
  }

  lemma OneBlockFits(c: EraseCmd, shift: nat, block: nat, count: nat)
    requires c.size == shift && shift > 0 && c.cmd3 != 0xFF && c.cmd4 != 0xFF && count > 0
    ensures Fits(c, shift, block, count)
  {
    MultipleIsAligned(block, Pow2(shift));
  }

  lemma {:induction false} MultipleIsAligned(k: nat, n: nat)
    requires n > 0
    ensures k * n % n == 0
    decreases k
  {
    if k > 0 {
      MultipleIsAligned(k - 1, n);
      assert k * n == (k - 1) * n + n;
      TurnOver((k - 1) * n, n);
    }
  }

  lemma TurnOver(a: nat, n: nat)
    requires n > 0 && a % n == 0
    ensures (a + n) % n == 0
  {
    var q := a / n;
    assert a == q * n;
    assert a + n == (q + 1) * n;
    ZeroRemainder(a + n, n, q + 1);
  }

  lemma ZeroRemainder(x: nat, n: nat, q: nat)
    requires n > 0 && x == q * n
    ensures x % n == 0
  {
    var q1, r1 := x / n, x % n;
    assert x == q1 * n + r1;
    if q1 < q {
      assert (q - q1) * n == q * n - q1 * n;
      AtLeast(q - q1, n);
    } else if q1 > q {
      assert (q1 - q) * n == q1 * n - q * n;
      AtLeast(q1 - q, n);
    }
  }

  lemma AtLeast(k: int, n: nat)
    requires k >= 1
    ensures k * n >= n
  {
  }

  // ---------------------------------------------------------------------
  // What erasing does to the memory
  // ---------------------------------------------------------------------

  function Blank(mem: seq<byte>, from: nat, to: nat): (r: seq<byte>)
    requires from <= to <= |mem|
    ensures |r| == |mem| && forall i :: 0 <= i < |mem| ==> r[i] == if from <= i < to then ONES else mem[i]
  {
    seq(|mem|, i requires 0 <= i < |mem| => if from <= i < to then ONES else mem[i])
  }

  /** What the part does on an erase command: it blanks the region of the
      command's size that holds the address. */
  function EraseAt(mem: seq<byte>, addr: nat, size: nat): (r: seq<byte>)
    ensures |r| == |mem|
  {
    var n := Pow2(size);
    var from := addr / n * n;
    if 0 <= from <= from + n <= |mem| then Blank(mem, from, from + n) else mem
  }

  /** The part after erasing the regions in turn. */
  function BlankAll(mem: seq<byte>, rs: seq<Region>, shift: nat): (r: seq<byte>)
    ensures |r| == |mem|
    decreases rs
  {
    if rs == [] then mem
    else BlankAll(EraseAt(mem, rs[0].block * Pow2(shift), rs[0].size), rs[1..], shift)
  }

  lemma {:induction false} Pow2Plus(a: nat, b: nat)
    ensures Pow2(a + b) == Pow2(a) * Pow2(b)
    decreases a
  {
    if a > 0 { Pow2Plus(a - 1, b); }
  }

  /** A command at a multiple of its size blanks its blocks and nothing else. */
  lemma AlignedErase(mem: seq<byte>, table: seq<EraseCmd>, shift: nat, r: Region)
    requires RegionOk(table, shift, r) && (r.block + r.blocks) * Pow2(shift) <= |mem|
    ensures r.block * Pow2(shift) <= (r.block + r.blocks) * Pow2(shift)
    ensures EraseAt(mem, r.block * Pow2(shift), r.size) == Blank(mem, r.block * Pow2(shift), (r.block + r.blocks) * Pow2(shift))
  {
    hide Blank, Pow2;
    Pow2Plus(r.size - shift, shift);
    Distribute(r.block, r.blocks, Pow2(shift));
    WholeMultiple(r.block * Pow2(shift), Pow2(r.size));
  }

  lemma Distribute(a: nat, b: nat, k: nat)
    ensures (a + b) * k == a * k + b * k
  {
  }

  lemma WholeMultiple(a: nat, n: nat)
    requires n > 0 && a % n == 0
    ensures a / n * n == a
  {
  }

  /** Commands that tile a range of blocks, each at a multiple of its size, blank
      exactly those bytes. */
  lemma {:induction false} TilesBlank(mem: seq<byte>, table: seq<EraseCmd>, rs: seq<Region>, shift: nat, block: nat, end: nat)
    requires Tiles(rs, block, end) && end * Pow2(shift) <= |mem| && forall k :: 0 <= k < |rs| ==> RegionOk(table, shift, rs[k])
    ensures block <= end && block * Pow2(shift) <= end * Pow2(shift)
    ensures BlankAll(mem, rs, shift) == Blank(mem, block * Pow2(shift), end * Pow2(shift))
    decreases rs
  {
    hide Blank, Pow2, RegionOk, EraseAt;
    var size := Pow2(shift);
    if rs == [] {
      BlankNothing(mem, block * size);
    } else {
      var mid := block + rs[0].blocks;
      TilesForward(rs[1..], mid, end);
      Scaled(block, mid, size);
      Scaled(mid, end, size);
      AlignedErase(mem, table, shift, rs[0]);
      TilesBlank(Blank(mem, block * size, mid * size), table, rs[1..], shift, mid, end);
      BlankJoin(mem, block * size, mid * size, end * size);
    }
  }

  /** An erase blanks exactly the blocks asked for when it succeeds, and a leading
      part of them when it fails. */
  lemma EraseBlanks(mem: seq<byte>, table: seq<EraseCmd>, shift: nat, block: nat, count: nat, state: Power, id: int, rounds: seq<Round>) returns (done: nat)
    requires (block + count) * Pow2(shift) <= |mem|
    ensures var e := Erase(table, shift, block, count, state, id, rounds);
      && done <= count && (e.err == Ok <==> done == count)
      && block * Pow2(shift) <= (block + done) * Pow2(shift) <= |mem|
      && BlankAll(mem, e.regions, shift) == Blank(mem, block * Pow2(shift), (block + done) * Pow2(shift))
  {
    hide Blank, Pow2, RegionOk, Erase, Tiles, Covered, BlankAll;
    EraseTiles(table, shift, block, count, state, id, rounds);
    var rs := Erase(table, shift, block, count, state, id, rounds).regions;
    done := Covered(rs);
    Scaled(block + done, block + count, Pow2(shift));
    TilesBlank(mem, table, rs, shift, block, block + done);
  }

  lemma {:induction false} TilesForward(rs: seq<Region>, block: nat, end: nat)
    requires Tiles(rs, block, end)
    ensures block <= end
    decreases rs
  {
    if rs != [] { TilesForward(rs[1..], block + rs[0].blocks, end); }
  }

  lemma Scaled(a: nat, b: nat, size: nat)
    requires a <= b
    ensures a * size <= b * size
  {
    assert (b - a) * size == b * size - a * size;
  }

  lemma BlankNothing(mem: seq<byte>, at: nat)
    requires at <= |mem|
    ensures Blank(mem, at, at) == mem
  {
  }

  lemma BlankJoin(mem: seq<byte>, a: nat, b: nat, c: nat)
    requires a <= b <= c <= |mem|
    ensures Blank(Blank(mem, a, b), b, c) == Blank(mem, a, c)
  {
  }

  // ---------------------------------------------------------------------
  // The code
  // ---------------------------------------------------------------------

  class Flash {
    var state: Power
    var mem: seq<byte>
    const id: int

    constructor (mem: seq<byte>, id: int)
      ensures state == Idle && this.mem == mem && this.id == id
    {
      state, this.mem, this.id := Idle, mem, id;
    }

    /** `spiflash_wait_ready`. */
    method WaitReady(answers: seq<int>) returns (err: Error)
      modifies this`state
      ensures err == Wait(old(state), id, answers)
      ensures state == if err == Ok then Idle else old(state)
    {
      if state == Off {
        return NotReady;
      }
      if state == Idle {
        return Ok;
      }
      var tries := if state == Busy then 500 else 200;
      var ready := if state == Busy then (a: int) => a % 2 == 0 else (a: int) => a == id;
      var i := 0;
      while i < tries && i < |answers|
        invariant i <= tries && state == old(state)
        invariant i <= |answers| && Poll(answers[i..], tries - i, ready) == Poll(answers, tries, ready)
      {
        assert answers[i..][1..] == answers[i + 1..];
        if answers[i] < 0 {
          return BusError;
        }
        if ready(answers[i]) {
          state := Idle;
          return Ok;
        }
        i := i + 1;
      }
      return Timeout;
    }

    /** Waits, and enables writing. */
    method Enable(round: Round) returns (err: Error)
      modifies this`state
      ensures err == if Open(old(state), id, round) then Ok else Blocked(old(state), id, round)
      ensures state == Rested(old(state), id, round)
    {
      hide Wait;
      err := WaitReady(round.answers);
      if err == Ok && !round.enabled {
        err := BusError;
      }
    }

    /** `spiflash_write`. */
    method WriteBytes(base: nat, offset: nat, data: seq<byte>, rounds: seq<Round>)
      returns (done: nat, err: Error, issued: seq<(nat, nat)>)
      requires PageAligned(base) && PageAligned(|mem|) && base + offset + |data| <= |mem|
      modifies this
      ensures Outcome(mem, done, err, state, issued) == Write(old(mem), base, offset, data, old(state), id, rounds)
    {
      hide Program, AllOnes, Piece, PageAligned, Wait, Open, Blocked, Rested, Write;
      done, issued := 0, [];
      var left := rounds;
      ghost var whole := Write(mem, base, offset, data, state, id, rounds);
      assert data[0..] == data;
      assert Onto(0, [], whole) == whole;
      while done < |data|
        invariant done <= |data| && |mem| == |old(mem)|
        invariant whole == Onto(done, issued, Write(mem, base, offset + done, data[done..], state, id, left))
        decreases |data| - done
      {
        var rest := data[done..];
        PieceFits(offset + done, |rest|);
        var k := Piece(offset + done, |rest|);
        assert rest[k..] == data[done + k..];
        WriteTurn(mem, base, offset + done, rest, state, id, left);
        var ones := CheckOnes(rest[..k]);
        if !ones {
          var round := First(left);
          BlockedFails(state, id, round);
          assert issued + [] == issued;
          err := Enable(round);
          if err != Ok {
            return done, err, issued;
          }
          state := Busy;
          ghost var was := issued;
          issued := issued + [(base + (offset + done), k)];
          if !round.sent {
            return done, BusError, issued;
          }
          PageRoom(mem, base, offset + done, k);
          mem := Program(mem, base + (offset + done), rest[..k]);
          left := Later(left);
          OntoOnto(done, k, was, [(base + (offset + done), k)], Write(mem, base, offset + done + k, rest[k..], state, id, left));
        } else {
          OntoOnto(done, k, issued, [], Write(mem, base, offset + done + k, rest[k..], state, id, left));
          assert issued + [] == issued;
        }
        done := done + k;
      }
      assert data[done..] == [];
      WriteEnd(mem, base, offset + done, state, id, left);
      assert issued + [] == issued;
      return done, Ok, issued;
    }

    /** `is_all_ones`. */
    method CheckOnes(data: seq<byte>) returns (ones: bool)
      ensures ones == AllOnes(data)
    {
      var i := 0;
      while i < |data|
        invariant i <= |data| && forall k :: 0 <= k < i ==> data[k] == ONES
      {
        if data[i] != ONES {
          return false;
        }
        i := i + 1;
      }
      return true;
    }

    /** `spiflash_erase`. */
    method EraseBlocks(table: seq<EraseCmd>, shift: nat, first: nat, blocks: nat, rounds: seq<Round>)
      returns (rs: seq<Region>, err: Error)
      modifies this
      ensures Erased(rs, err, state) == Erase(table, shift, first, blocks, old(state), id, rounds)
      ensures mem == BlankAll(old(mem), rs, shift)
    {
      hide Fits, Chunk, Pow2, EraseAt, BlankAll, Wait, Open, Blocked, Rested, Erase, Choose;
      BlankNone(mem, shift);
      rs := [];
      var block: nat, count: nat, left := first, blocks, rounds;
      ghost var whole := Erase(table, shift, first, blocks, state, id, rounds);
      while count > 0
        invariant whole == After(rs, Erase(table, shift, block, count, state, id, left))
        invariant mem == BlankAll(old(mem), rs, shift)
        decreases count
      {
        var round := First(left);
        BlockedFails(state, id, round);
        OpenIsIdle(state, id, round);
        EraseTurn(table, shift, block, count, state, id, left);
        assert rs + [] == rs;
        err := Enable(round);
        if err != Ok {
          return rs, err;
        }
        var i := FindCommand(table, shift, block, count);
        if i < 0 {
          return rs, InvalidAddress;
        }
        state := Busy;
        if !round.sent {
          return rs, BusError;
        }
        ChosenSize(table[i], shift, block, count);
        var n := Chunk(table[i], shift);
        var region := Region(block, n, table[i].size);
        BlankSnoc(old(mem), rs, region, shift);
        mem := EraseAt(mem, block * Pow2(shift), table[i].size);
        AfterAfter(rs, [region], Erase(table, shift, block + n, count - n, Busy, id, Later(left)));
        rs := rs + [region];
        block := block + n;
        count := count - n;
        left := Later(left);
      }
      EraseNothing(table, shift, block, state, id, left);
      assert rs + [] == rs;
      return rs, Ok;
    }

    /** The search for a command, from the end of the table. */
    method FindCommand(table: seq<EraseCmd>, shift: nat, block: nat, count: nat) returns (i: int)
      ensures i == Choose(table, |table|, shift, block, count)
    {
      hide Fits;
      i := |table| - 1;
      while i >= 0 && !Fits(table[i], shift, block, count)
        invariant -1 <= i < |table|
        invariant Choose(table, i + 1, shift, block, count) == Choose(table, |table|, shift, block, count)
      {
        i := i - 1;
      }
    }
  }

  /** An outcome, after earlier pieces. */
  function Onto(done: nat, issued: seq<(nat, nat)>, r: Outcome): Outcome { r.(done := r.done + done, issued := issued + r.issued) }

  lemma OntoOnto(a: nat, b: nat, x: seq<(nat, nat)>, y: seq<(nat, nat)>, r: Outcome)
    ensures Onto(a, x, Onto(b, y, r)) == Onto(a + b, x + y, r)
  {
    assert x + (y + r.issued) == x + y + r.issued;
  }

  lemma WriteTurn(mem: seq<byte>, base: nat, offset: nat, data: seq<byte>, state: Power, id: int, rounds: seq<Round>)
    requires PageAligned(base) && PageAligned(|mem|) && base + offset + |data| <= |mem| && data != []
    ensures 1 <= Piece(offset, |data|) <= |data|
    ensures var k := Piece(offset, |data|);
      (base + offset) / PAGE * PAGE + PAGE <= |mem| && k <= PAGE
    ensures var k := Piece(offset, |data|);
      var round := First(rounds);
      var command := [(base + offset, k)];
      Write(mem, base, offset, data, state, id, rounds) ==
        if AllOnes(data[..k]) then Onto(k, [], Write(mem, base, offset + k, data[k..], state, id, rounds))
        else if !Open(state, id, round) then Outcome(mem, 0, Blocked(state, id, round), Rested(state, id, round), [])
        else if !round.sent then Outcome(mem, 0, BusError, Busy, command)
        else Onto(k, command, Write(Program(mem, base + offset, data[..k]), base, offset + k, data[k..], Busy, id, Later(rounds)))
  {
    hide Program, AllOnes, Piece, PageAligned, Wait, Open, Blocked, Rested;
    PieceFits(offset, |data|);
    PageRoom(mem, base, offset, Piece(offset, |data|));
    var k := Piece(offset, |data|);
    var r := Write(mem, base, offset + k, data[k..], state, id, rounds);
    assert [] + r.issued == r.issued;
  }

  lemma WriteEnd(mem: seq<byte>, base: nat, offset: nat, state: Power, id: int, rounds: seq<Round>)
    requires PageAligned(base) && PageAligned(|mem|) && base + offset <= |mem|
    ensures Write(mem, base, offset, [], state, id, rounds) == Outcome(mem, 0, Ok, state, [])
  {
  }

  /** An outcome, after earlier regions. */
  function After(rs: seq<Region>, e: Erased): Erased { e.(regions := rs + e.regions) }

  lemma AfterAfter(a: seq<Region>, b: seq<Region>, e: Erased)
    ensures After(a, After(b, e)) == After(a + b, e)
  {
    assert a + (b + e.regions) == a + b + e.regions;
  }

  lemma EraseTurn(table: seq<EraseCmd>, shift: nat, block: nat, count: nat, state: Power, id: int, rounds: seq<Round>)
    requires count > 0
    ensures var round := First(rounds);
      var i := Choose(table, |table|, shift, block, count);
      var e := Erase(table, shift, block, count, state, id, rounds);
      && (!Open(state, id, round) ==> e == Erased([], Blocked(state, id, round), Rested(state, id, round)))
      && (Open(state, id, round) && i < 0 ==> e == Erased([], InvalidAddress, Idle))
      && (Open(state, id, round) && i >= 0 && !round.sent ==> e == Erased([], BusError, Busy))
      && (Open(state, id, round) && i >= 0 && round.sent ==>
            && table[i].size >= shift && Chunk(table[i], shift) <= count
            && var n := Chunk(table[i], shift);
               e == After([Region(block, n, table[i].size)], Erase(table, shift, block + n, count - n, Busy, id, Later(rounds))))
  {
    hide Fits, Chunk, Wait, Open, Blocked, Rested, Choose;
    var i := Choose(table, |table|, shift, block, count);
    if i >= 0 { ChosenSize(table[i], shift, block, count); }
  }

  lemma EraseNothing(table: seq<EraseCmd>, shift: nat, block: nat, state: Power, id: int, rounds: seq<Round>)
    ensures Erase(table, shift, block, 0, state, id, rounds) == Erased([], Ok, state)
  {
  }

  lemma OpenIsIdle(state: Power, id: int, r: Round)
    ensures Open(state, id, r) ==> Rested(state, id, r) == Idle
  {
    hide Wait;
  }

  lemma BlankNone(mem: seq<byte>, shift: nat)
    ensures BlankAll(mem, [], shift) == mem
  {
  }

  lemma ChosenSize(c: EraseCmd, shift: nat, block: nat, count: nat)
    requires Fits(c, shift, block, count)
    ensures c.size >= shift && 0 < Chunk(c, shift) <= count
  {
  }

  lemma {:induction false} BlankSnoc(mem: seq<byte>, rs: seq<Region>, r: Region, shift: nat)
    ensures BlankAll(mem, rs + [r], shift) == EraseAt(BlankAll(mem, rs, shift), r.block * Pow2(shift), r.size)
    decreases rs
  {
    hide EraseAt, Pow2;
    if rs == [] {
      assert rs + [r] == [r] && [r][1..] == [];
    } else {
      assert (rs + [r])[1..] == rs[1..] + [r];
      BlankSnoc(EraseAt(mem, rs[0].block * Pow2(shift), rs[0].size), rs[1..], r, shift);
    }
  }
}
