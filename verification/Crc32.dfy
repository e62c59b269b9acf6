/** CRC-32 in the forms the repository uses: the bitwise zlib form, the table
    form whose entries carry the inversion, and the literal table of the VLLP
    host library. */
module Crc32 {
  import opened Common

  type word = bv32

  const POLYNOMIAL: word := 0xEDB88320
  const ALL_ONES: word := 0xFFFFFFFF

  // ---------------------------------------------------------------------
  // Word operations, named so that proofs can treat them as a group
  // ---------------------------------------------------------------------

  function Xor(a: word, b: word): word { a ^ b }
  function Not(a: word): word { !a }
  function Halve(a: word): word { a >> 1 }
  function Twice(a: word): word { a << 1 }
  function High(a: word): word { a & 0xFFFFFF00 }
  function Low(a: word): word { a & 0xFF }
  function DropByte(a: word): word { a >> 8 }
  function LowByte(c: word): byte { (c & 0xFF) as byte }
  function Widen(b: byte): word { b as word }

  // ---------------------------------------------------------------------
  // Bitwise form
  // ---------------------------------------------------------------------

  function Feedback(c: word): word { if c & 1 == 1 then POLYNOMIAL else 0 }

  /** One bit of the reflected division. */
  function ShiftBit(c: word): word { Xor(Halve(c), Feedback(c)) }

  function ShiftBits(c: word, n: nat): word
    decreases n
  {
    if n == 0 then c else ShiftBits(ShiftBit(c), n - 1)
  }

  function ShiftByte(c: word): word { ShiftBits(c, 8) }

  /** The division register after `data`, with no inversion at either end. */
  function Raw(c: word, data: seq<byte>): word
    decreases data
  {
    if data == [] then c else Raw(ShiftByte(Xor(c, Widen(data[0]))), data[1..])
  }

  /** zlib's chainable CRC. */
  function Zlib(crc: word, data: seq<byte>): word { Not(Raw(Not(crc), data)) }

  // ---------------------------------------------------------------------
  // Table form
  // ---------------------------------------------------------------------

  /** One bit of the table generator: it divides when the bit is clear. */
  function GenBit(r: word): word {
    Xor(if r & 1 == 1 then 0 else POLYNOMIAL, Halve(r))
  }

  function GenBits(r: word, n: nat): word
    decreases n
  {
    if n == 0 then r else GenBits(GenBit(r), n - 1)
  }

  function TableEntry(i: byte): word { Xor(GenBits(Widen(i), 8), 0xFF000000) }

  function TableStep(crc: word, b: byte): word {
    Xor(TableEntry(LowByte(crc) ^ b), DropByte(crc))
  }

  function Crc(crc: word, data: seq<byte>): word
    decreases data
  {
    if data == [] then crc else Crc(TableStep(crc, data[0]), data[1..])
  }

  // ---------------------------------------------------------------------
  // The division is linear over exclusive or
  // ---------------------------------------------------------------------

  lemma ShiftBitUnfold(c: word)
    ensures ShiftBit(c) == Xor(Halve(c), Feedback(c))
  {
  }

  lemma HalfLinear(x: word, y: word)
    ensures Halve(Xor(x, y)) == Xor(Halve(x), Halve(y))
  {
  }

  lemma LowBit(x: word)
    ensures x & 1 == 0 || x & 1 == 1
  {
  }

  lemma LowBitLinear(x: word, y: word)
    ensures (x ^ y) & 1 == (x & 1) ^ (y & 1)
  {
  }

  lemma FeedbackLinear(x: word, y: word)
    ensures Feedback(Xor(x, y)) == Xor(Feedback(x), Feedback(y))
  {
    LowBitLinear(x, y);
    LowBit(x);
    LowBit(y);
  }

  lemma XorComm(a: word, b: word)
    ensures Xor(a, b) == Xor(b, a)
  {
  }

  lemma XorAssoc(a: word, b: word, c: word)
    ensures Xor(Xor(a, b), c) == Xor(a, Xor(b, c))
  {
  }

  lemma XorSwap(a: word, b: word, c: word, d: word)
    ensures Xor(Xor(a, b), Xor(c, d)) == Xor(Xor(a, c), Xor(b, d))
  {
    hide *;
    XorAssoc(a, b, Xor(c, d));
    XorAssoc(b, c, d);
    XorComm(b, c);
    XorAssoc(c, b, d);
    XorAssoc(a, c, Xor(b, d));
  }

  lemma ShiftBitLinear(x: word, y: word)
    ensures ShiftBit(Xor(x, y)) == Xor(ShiftBit(x), ShiftBit(y))
  {
    hide *;
    FeedbackLinear(x, y);
    HalfLinear(x, y);
    ShiftBitUnfold(x);
    ShiftBitUnfold(y);
    ShiftBitUnfold(Xor(x, y));
    XorSwap(Halve(x), Halve(y), Feedback(x), Feedback(y));
  }

  lemma {:induction false} ShiftBitsLinear(x: word, y: word, n: nat)
    ensures ShiftBits(Xor(x, y), n) == Xor(ShiftBits(x, n), ShiftBits(y, n))
    decreases n
  {
    hide Xor, ShiftBit;
    if n > 0 {
      ShiftBitLinear(x, y);
      ShiftBitsLinear(ShiftBit(x), ShiftBit(y), n - 1);
    }
  }

  // ---------------------------------------------------------------------
  // A byte step splits into the low byte and a shift of the rest
  // ---------------------------------------------------------------------

  /** With the low bit clear a step only shifts, and a clear mask shifts along. */
  lemma ShiftBitClear(c: word, mask: word)
    requires mask & 1 == 1
    requires c & mask == 0
    ensures ShiftBit(c) == Halve(c)
    ensures Halve(c) & Halve(mask) == 0
  {
    hide Halve, Feedback;
    MaskedBit(c, mask);
    NoFeedback(c);
    XorZero(Halve(c));
  }

  lemma NoFeedback(c: word)
    requires c & 1 == 0
    ensures Feedback(c) == 0
  {
  }

  lemma MaskedBit(c: word, mask: word)
    requires mask & 1 == 1
    requires c & mask == 0
    ensures c & 1 == 0
    ensures Halve(c) & Halve(mask) == 0
  {
    MaskShift(c, mask);
    MaskLow(c, mask);
  }

  lemma MaskShift(c: word, mask: word)
    ensures (c >> 1) & (mask >> 1) == (c & mask) >> 1
  {
  }

  lemma MaskLow(c: word, mask: word)
    ensures (c & mask) & 1 == (c & 1) & (mask & 1)
  {
  }

  lemma HalfEightTimes(c: word)
    ensures Halve(Halve(Halve(Halve(Halve(Halve(Halve(Halve(High(c))))))))) == DropByte(c)
  {
  }

  lemma ShiftBitsUnroll(c: word)
    ensures ShiftByte(c) == ShiftBit(ShiftBit(ShiftBit(ShiftBit(ShiftBit(ShiftBit(ShiftBit(ShiftBit(c))))))))
  {
    hide ShiftBit;
    var c4 := ShiftBit(ShiftBit(ShiftBit(ShiftBit(c))));
    assert ShiftBits(c, 8) == ShiftBits(ShiftBit(ShiftBit(c)), 6) == ShiftBits(c4, 4);
  }

  lemma ShiftByteOfHigh(c: word)
    ensures ShiftByte(High(c)) == DropByte(c)
  {
    hide ShiftBit, ShiftByte, Halve;
    assert Halve(0xFF) == 0x7F && Halve(0x7F) == 0x3F && Halve(0x3F) == 0x1F && Halve(0x1F) == 0x0F
        && Halve(0x0F) == 0x07 && Halve(0x07) == 0x03 && Halve(0x03) == 0x01 by { HalfOfMasks(); }
    var c0 := High(c);
    ShiftBitClear(c0, 0xFF);
    ShiftBitClear(Halve(c0), 0x7F);
    ShiftBitClear(Halve(Halve(c0)), 0x3F);
    ShiftBitClear(Halve(Halve(Halve(c0))), 0x1F);
    var c4 := Halve(Halve(Halve(Halve(c0))));
    ShiftBitClear(c4, 0x0F);
    ShiftBitClear(Halve(c4), 0x07);
    ShiftBitClear(Halve(Halve(c4)), 0x03);
    ShiftBitClear(Halve(Halve(Halve(c4))), 0x01);
    ShiftBitsUnroll(c0);
    HalfEightTimes(c);
  }

  lemma HalfOfMasks()
    ensures Halve(0xFF) == 0x7F && Halve(0x7F) == 0x3F && Halve(0x3F) == 0x1F && Halve(0x1F) == 0x0F
    ensures Halve(0x0F) == 0x07 && Halve(0x07) == 0x03 && Halve(0x03) == 0x01
  {
  }

  lemma SplitLow(c: word)
    ensures c == Xor(Low(c), High(c))
  {
  }

  lemma ShiftByteSplit(c: word)
    ensures ShiftByte(c) == Xor(ShiftByte(Low(c)), DropByte(c))
  {
    hide Xor, ShiftBits, Low, High, DropByte;
    SplitLow(c);
    ShiftBitsLinear(Low(c), High(c), 8);
    ShiftByteOfHigh(c);
  }

  // ---------------------------------------------------------------------
  // The generator's inverted division is a division of the inverted byte
  // ---------------------------------------------------------------------

  function Ones(n: nat): word {
    if n == 0 then 0 else Xor(Twice(Ones(n - 1)), 1)
  }

  lemma HalfFlipped(r: word)
    ensures Halve(Xor(r, 1)) == Halve(r)
  {
  }

  lemma LowFlipped(r: word)
    ensures Feedback(Xor(r, 1)) == if r & 1 == 1 then 0 else POLYNOMIAL
  {
    LowBitLinear(r, 1);
    LowBit(r);
  }

  lemma GenBitIsShift(r: word)
    ensures GenBit(r) == ShiftBit(Xor(r, 1))
  {
    hide Halve, Feedback, Xor;
    HalfFlipped(r);
    LowFlipped(r);
    XorComm(Halve(r), Feedback(Xor(r, 1)));
  }

  lemma ShiftBitTwice(m: word)
    requires m <= 0xFF
    ensures ShiftBit(Twice(m)) == m
  {
  }

  lemma OnesSmall(n: nat)
    requires n <= 8
    ensures Ones(n) <= 0xFF
    ensures n == 8 ==> Ones(n) == 0xFF
  {
    assert Ones(1) == 1 && Ones(2) == 3 && Ones(3) == 7 && Ones(4) == 15;
    assert Ones(5) == 31;
    assert Ones(6) == 63;
    assert Ones(7) == 127;
  }

  lemma {:induction false} GenBitsAreShifts(r: word, n: nat)
    requires n <= 8
    ensures GenBits(r, n) == ShiftBits(Xor(r, Ones(n)), n)
    decreases n
  {
    hide Xor, ShiftBit, GenBit, Twice;
    if n == 0 {
      assert Xor(r, 0) == r by { XorZero(r); }
    } else {
      var m := Ones(n - 1);
      OnesSmall(n - 1);
      GenBitIsShift(r);
      ShiftBitTwice(m);
      GenBitsAreShifts(GenBit(r), n - 1);
      calc {
        ShiftBit(Xor(r, Ones(n)));
        { XorComm(Twice(m), 1); XorAssoc(r, 1, Twice(m)); }
        ShiftBit(Xor(Xor(r, 1), Twice(m)));
        { ShiftBitLinear(Xor(r, 1), Twice(m)); }
        Xor(GenBit(r), m);
      }
    }
  }

  lemma XorZero(r: word)
    ensures Xor(r, 0) == r
  {
  }

  lemma TableEntryIsShift(i: byte)
    ensures TableEntry(i) == Xor(ShiftByte(Xor(Widen(i), 0xFF)), 0xFF000000)
  {
    hide Xor, ShiftBits, GenBits, Widen;
    GenBitsAreShifts(Widen(i), 8);
    OnesSmall(8);
  }

  // ---------------------------------------------------------------------
  // Main results
  // ---------------------------------------------------------------------

  lemma InvertedLow(crc: word, b: byte)
    ensures Low(Xor(Not(crc), Widen(b))) == Xor(Widen(LowByte(crc) ^ b), 0xFF)
  {
  }

  lemma InvertedHigh(crc: word, b: byte)
    ensures DropByte(Xor(Not(crc), Widen(b))) == Xor(DropByte(crc), 0x00FFFFFF)
  {
    InvertedHighBits(crc, b as word);
  }

  lemma InvertedHighBits(crc: word, b: word)
    requires b <= 0xFF
    ensures ((!crc) ^ b) >> 8 == (crc >> 8) ^ 0x00FFFFFF
  {
  }

  lemma FoldInversion(s: word, h: word)
    ensures Not(Xor(s, Xor(h, 0x00FFFFFF))) == Xor(Xor(s, 0xFF000000), h)
  {
  }

  /** One table step is one bitwise byte step between two inversions. */
  lemma TableStepIsInvertedDivision(crc: word, b: byte)
    ensures TableStep(crc, b) == Not(ShiftByte(Xor(Not(crc), Widen(b))))
  {
    hide Not, Xor, ShiftByte, TableEntry, Low, DropByte, Widen, LowByte;
    var u := Xor(Not(crc), Widen(b));
    ShiftByteSplit(u);
    InvertedLow(crc, b);
    InvertedHigh(crc, b);
    TableEntryIsShift(LowByte(crc) ^ b);
    FoldInversion(ShiftByte(Low(u)), DropByte(crc));
  }

  lemma InvertTwice(x: word)
    ensures Not(Not(x)) == x
  {
  }

  /** The table form equals the bitwise zlib form, for every start value and data. */
  lemma {:induction false} TableEqualsBitwise(crc: word, data: seq<byte>)
    ensures Crc(crc, data) == Zlib(crc, data)
    decreases data
  {
    hide Not, Xor, ShiftByte, TableStep, Widen;
    if data == [] {
      InvertTwice(crc);
    } else {
      var u := ShiftByte(Xor(Not(crc), Widen(data[0])));
      TableStepIsInvertedDivision(crc, data[0]);
      InvertTwice(u);
      TableEqualsBitwise(TableStep(crc, data[0]), data[1..]);
    }
  }

  /** Feeding two pieces one after the other is feeding their concatenation. */
  lemma {:induction false} CrcChains(crc: word, a: seq<byte>, b: seq<byte>)
    ensures Crc(crc, a + b) == Crc(Crc(crc, a), b)
    decreases a
  {
    hide TableStep;
    if a == [] {
      assert a + b == b;
    } else {
      assert (a + b)[1..] == a[1..] + b;
      CrcChains(TableStep(crc, a[0]), a[1..], b);
    }
  }

  /** The four bytes of a word, least significant first. */
  function LittleEndian(w: word): (r: seq<byte>)
    ensures |r| == 4
  {
    [LowByte(w), LowByte(DropByte(w)), LowByte(DropByte(DropByte(w))), LowByte(DropByte(DropByte(DropByte(w))))]
  }

  lemma LastEntry()
    ensures TableEntry(0xFF) == 0xFF000000
  {
    assert GenBits(0xFF, 8) == GenBits(0x3F, 6) == GenBits(0x0F, 4) == GenBits(0, 0);
  }

  lemma CancelStep(crc: word, b: byte)
    requires LowByte(crc) ^ b == 0xFF
    ensures TableStep(crc, b) == Xor(0xFF000000, DropByte(crc))
  {
    LastEntry();
  }

  lemma CancelBytes(c: word)
    ensures LowByte(c) ^ LowByte(Not(c)) == 0xFF
    ensures LowByte(Xor(0xFF000000, DropByte(c))) ^ LowByte(DropByte(Not(c))) == 0xFF
    ensures LowByte(Xor(0xFF000000, DropByte(Xor(0xFF000000, DropByte(c))))) ^ LowByte(DropByte(DropByte(Not(c)))) == 0xFF
    ensures LowByte(Xor(0xFF000000, DropByte(Xor(0xFF000000, DropByte(Xor(0xFF000000, DropByte(c))))))) ^ LowByte(DropByte(DropByte(DropByte(Not(c))))) == 0xFF
    ensures Xor(0xFF000000, DropByte(Xor(0xFF000000, DropByte(Xor(0xFF000000, DropByte(Xor(0xFF000000, DropByte(c)))))))) == ALL_ONES
  {
  }

  lemma CrcOfFour(c: word, b: seq<byte>)
    requires |b| == 4
    ensures Crc(c, b) == TableStep(TableStep(TableStep(TableStep(c, b[0]), b[1]), b[2]), b[3])
  {
    hide TableStep;
    assert b == [b[0]] + ([b[1]] + ([b[2]] + [b[3]]));
    CrcChains(c, [b[0]], [b[1]] + ([b[2]] + [b[3]]));
    CrcChains(Crc(c, [b[0]]), [b[1]], [b[2]] + [b[3]]);
    CrcChains(Crc(Crc(c, [b[0]]), [b[1]]), [b[2]], [b[3]]);
    forall x: word, y: byte ensures Crc(x, [y]) == TableStep(x, y) {
      assert [y][1..] == [];
      assert Crc(x, [y]) == Crc(TableStep(x, y), []);
    }
  }

  /** A message followed by its complemented CRC, least significant byte first,
      always leaves all ones, whatever the initial value. */
  lemma SealedResidue(iv: word, msg: seq<byte>)
    ensures Crc(iv, msg + LittleEndian(Not(Crc(iv, msg)))) == ALL_ONES
  {
    hide Not, TableStep, LowByte, Xor, DropByte;
    var c := Crc(iv, msg);
    var tail := LittleEndian(Not(c));
    CrcChains(iv, msg, tail);
    CrcOfFour(c, tail);
    CancelBytes(c);
    CancelStep(c, tail[0]);
    var c1 := TableStep(c, tail[0]);
    CancelStep(c1, tail[1]);
    var c2 := TableStep(c1, tail[1]);
    CancelStep(c2, tail[2]);
    var c3 := TableStep(c2, tail[2]);
    CancelStep(c3, tail[3]);
  }
}
