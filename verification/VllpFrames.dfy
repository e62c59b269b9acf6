/** VLLP packets: header bits, sealing a message with its CRC, cutting it into
    fragments, putting fragments together again, and the CAN-FD padding. */
module VllpFrames {
  import opened Common
  import opened Crc32

  // ---------------------------------------------------------------------
  // Header byte: S E F L and a four-bit channel
  // ---------------------------------------------------------------------

  const HDR_S: byte := 0x80
  const HDR_E: byte := 0x40
  const HDR_F: byte := 0x20
  const HDR_L: byte := 0x10

  predicate HasS(h: byte) { h & 0x80 != 0 }
  predicate HasE(h: byte) { h & 0x40 != 0 }
  predicate HasF(h: byte) { h & 0x20 != 0 }
  predicate HasL(h: byte) { h & 0x10 != 0 }

  /** Channel number 15 never carries data. */
  function ChannelOf(h: byte): nat { (h & 0x0F) as nat }

  /** The part of a header that belongs to the fragment: channel and L. */
  function FragBits(h: byte): byte { h & 0x1F }

  /** Rewriting a stored fragment's header just before it goes on the wire. */
  function WireHeader(h: byte, se: byte, flow: bool): byte {
    ((h & 0x1F) | se) | (if flow then HDR_F else 0)
  }

  function ToggleS(se: byte): byte { se ^ HDR_S }
  function ToggleE(se: byte): byte { se ^ HDR_E }

  /** Only the S and E bits are ever set in an endpoint's SE register. */
  predicate IsSE(se: byte) { se & 0x3F == 0 }

  lemma WireHeaderBits(h: byte, se: byte, flow: bool)
    requires IsSE(se)
    ensures HasS(WireHeader(h, se, flow)) == HasS(se)
    ensures HasE(WireHeader(h, se, flow)) == HasE(se)
    ensures HasL(WireHeader(h, se, flow)) == HasL(h)
    ensures FragBits(WireHeader(h, se, flow)) == FragBits(h)
    ensures ChannelOf(WireHeader(h, se, flow)) == ChannelOf(h)
  {
  }

  lemma FragBitsKeep(h: byte)
    ensures ChannelOf(FragBits(h)) == ChannelOf(h)
    ensures HasL(FragBits(h)) == HasL(h)
    ensures FragBits(FragBits(h)) == FragBits(h)
  {
  }

  lemma ToggleBits(se: byte)
    requires IsSE(se)
    ensures IsSE(ToggleS(se)) && IsSE(ToggleE(se))
    ensures HasS(ToggleS(se)) == !HasS(se) && HasE(ToggleS(se)) == HasE(se)
    ensures HasE(ToggleE(se)) == !HasE(se) && HasS(ToggleE(se)) == HasS(se)
  {
  }

  /** Headers of the fragments of a channel. */
  function FragHeader(id: nat, last: bool): byte
    requires id < 15
  {
    if last then (id as byte) | HDR_L else id as byte
  }

  lemma FragHeaderBits(id: nat, last: bool)
    requires id < 15
    ensures ChannelOf(FragHeader(id, last)) == id
    ensures HasL(FragHeader(id, last)) == last
    ensures FragBits(FragHeader(id, last)) == FragHeader(id, last)
  {
    var b := id as byte;
    assert b < 15 && b as nat == id;
    assert (b | HDR_L) & 0x0F == b && b & 0x0F == b;
    assert (b | HDR_L) & 0x1F == b | HDR_L && b & 0x1F == b;
    assert (b | HDR_L) & 0x10 != 0 && b & 0x10 == 0;
  }

  // ---------------------------------------------------------------------
  // Sealing and cutting
  // ---------------------------------------------------------------------

  /** A message followed by the complement of its CRC. */
  function Seal(iv: word, msg: bytes): (r: bytes)
    ensures |r| == |msg| + 4
  {
    msg + LittleEndian(Not(Crc(iv, msg)))
  }

  /** The initial value after n further messages; it wraps at 32 bits. */
  function IvAfter(iv: word, n: nat): word {
    if n == 0 then iv else NextIv(IvAfter(iv, n - 1))
  }

  function NextIv(iv: word): word { iv + 1 }

  /** Fragments of at most `mtu` bytes, one header byte each, L on the last. */
  function Chunks(mtu: nat, id: nat, data: bytes): (r: seq<bytes>)
    requires mtu >= 2 && id < 15
    ensures r != []
    decreases |data|
  {
    if |data| < mtu then [[FragHeader(id, true)] + data]
    else [[FragHeader(id, false)] + data[..mtu - 1]] + Chunks(mtu, id, data[mtu - 1..])
  }

  /** The fragment stream of a list of messages. */
  function FragmentAll(mtu: nat, id: nat, iv: word, msgs: seq<bytes>): seq<bytes>
    requires mtu >= 2 && id < 15
  {
    if msgs == [] then []
    else FragmentAll(mtu, id, iv, msgs[..|msgs| - 1])
         + Chunks(mtu, id, Seal(IvAfter(iv, |msgs| - 1), msgs[|msgs| - 1]))
  }

  lemma {:induction false} ChunkShape(mtu: nat, id: nat, data: bytes)
    requires mtu >= 2 && id < 15
    ensures forall f :: f in Chunks(mtu, id, data) ==>
      1 <= |f| <= mtu && ChannelOf(f[0]) == id && FragBits(f[0]) == f[0]
    decreases |data|
  {
    hide FragBits, ChannelOf, FragHeader;
    FragHeaderBits(id, true);
    FragHeaderBits(id, false);
    if |data| >= mtu {
      ChunkShape(mtu, id, data[mtu - 1..]);
    }
  }

  lemma {:induction false} FragmentShape(mtu: nat, id: nat, iv: word, msgs: seq<bytes>)
    requires mtu >= 2 && id < 15
    ensures forall f :: f in FragmentAll(mtu, id, iv, msgs) ==>
      1 <= |f| <= mtu && ChannelOf(f[0]) == id && FragBits(f[0]) == f[0]
    decreases |msgs|
  {
    hide FragBits, ChannelOf, Seal, IvAfter, Chunks;
    if msgs != [] {
      FragmentShape(mtu, id, iv, msgs[..|msgs| - 1]);
      ChunkShape(mtu, id, Seal(IvAfter(iv, |msgs| - 1), msgs[|msgs| - 1]));
    }
  }

  // ---------------------------------------------------------------------
  // Putting together
  // ---------------------------------------------------------------------

  /** A channel's receive side: the partial message, the initial value for the
      next check, and every message completed so far. */
  datatype Reader = Reader(buf: bytes, iv: word, got: seq<bytes>)

  datatype Outcome = Partial(buf: bytes) | Complete(msg: bytes) | BadChecksum | Underflow

  /** What one accepted fragment does to the partial message. */
  function Receive(buf: bytes, iv: word, frag: bytes): Outcome
    requires |frag| >= 1
  {
    var all := buf + frag[1..];
    if !HasL(frag[0]) then Partial(all)
    else if Crc(iv, all) != ALL_ONES then BadChecksum
    else if |all| < 4 then Underflow
    else Complete(all[..|all| - 4])
  }

  function Absorb(r: Reader, frag: bytes): Option<Reader>
    requires |frag| >= 1
  {
    match Receive(r.buf, r.iv, frag)
    case Partial(all) => Some(r.(buf := all))
    case Complete(msg) => Some(Reader([], NextIv(r.iv), r.got + [msg]))
    case BadChecksum => None
    case Underflow => None
  }

  function AbsorbAll(r: Reader, frags: seq<bytes>): Option<Reader>
    requires forall f :: f in frags ==> |f| >= 1
  {
    if frags == [] then Some(r)
    else
      match AbsorbAll(r, frags[..|frags| - 1])
      case None => None
      case Some(r1) => Absorb(r1, frags[|frags| - 1])
  }

  lemma {:induction false} AbsorbConcat(r: Reader, a: seq<bytes>, b: seq<bytes>)
    requires forall f :: f in a ==> |f| >= 1
    requires forall f :: f in b ==> |f| >= 1
    requires AbsorbAll(r, a).Some?
    ensures forall f :: f in a + b ==> |f| >= 1
    ensures AbsorbAll(r, a + b) == AbsorbAll(AbsorbAll(r, a).value, b)
    decreases |b|
  {
    hide Absorb;
    if b == [] {
      assert a + b == a;
    } else {
      var b0 := b[..|b| - 1];
      assert (a + b)[..|a + b| - 1] == a + b0;
      AbsorbConcat(r, a, b0);
    }
  }

  lemma AbsorbOne(r: Reader, frag: bytes)
    requires |frag| >= 1
    ensures AbsorbAll(r, [frag]) == Absorb(r, frag)
  {
    hide Absorb;
    assert [frag][..0] == [];
  }

  lemma AbsorbPartial(r: Reader, frag: bytes)
    requires |frag| >= 1 && !HasL(frag[0])
    ensures Absorb(r, frag) == Some(r.(buf := r.buf + frag[1..]))
  {
  }

  lemma AbsorbLast(r: Reader, frag: bytes)
    requires |frag| >= 1 && HasL(frag[0])
    requires |r.buf + frag[1..]| >= 4 && Crc(r.iv, r.buf + frag[1..]) == ALL_ONES
    ensures Absorb(r, frag) == Some(Reader([], NextIv(r.iv), r.got + [(r.buf + frag[1..])[..|r.buf + frag[1..]| - 4]]))
  {
    hide Crc, HasL;
  }

  /** Some but not all fragments of a message only grow the partial message. */
  lemma {:induction false} AbsorbSome(mtu: nat, id: nat, data: bytes, r: Reader, n: nat)
    requires mtu >= 2 && id < 15
    requires n < |Chunks(mtu, id, data)|
    ensures forall f :: f in Chunks(mtu, id, data)[..n] ==> |f| >= 1
    ensures AbsorbAll(r, Chunks(mtu, id, data)[..n]).Some?
    ensures var q := AbsorbAll(r, Chunks(mtu, id, data)[..n]).value; q.got == r.got && q.iv == r.iv
    decreases |data|
  {
    hide Absorb, FragHeader, HasL, ChannelOf, FragBits;
    var c := Chunks(mtu, id, data);
    ChunkShape(mtu, id, data);
    if n == 0 {
      assert c[..0] == [];
    } else {
      var rest := data[mtu - 1..];
      var tail := Chunks(mtu, id, rest);
      var r1 := r.(buf := r.buf + c[0][1..]);
      FragHeaderBits(id, false);
      AbsorbPartial(r, c[0]);
      AbsorbOne(r, c[0]);
      AbsorbSome(mtu, id, rest, r1, n - 1);
      AbsorbConcat(r, [c[0]], tail[..n - 1]);
      assert c[..n] == [c[0]] + tail[..n - 1];
    }
  }

  lemma {:induction false} AbsorbWhole(mtu: nat, id: nat, data: bytes, r: Reader)
    requires mtu >= 2 && id < 15
    requires |r.buf + data| >= 4 && Crc(r.iv, r.buf + data) == ALL_ONES
    ensures forall f :: f in Chunks(mtu, id, data) ==> |f| >= 1
    ensures AbsorbAll(r, Chunks(mtu, id, data))
         == Some(Reader([], NextIv(r.iv), r.got + [(r.buf + data)[..|r.buf + data| - 4]]))
    decreases |data|
  {
    hide Absorb, FragHeader, Crc, HasL, NextIv, ChannelOf, FragBits;
    var c := Chunks(mtu, id, data);
    ChunkShape(mtu, id, data);
    if |data| < mtu {
      FragHeaderBits(id, true);
      assert c[0][1..] == data;
      AbsorbLast(r, c[0]);
      AbsorbOne(r, c[0]);
    } else {
      var rest := data[mtu - 1..];
      var tail := Chunks(mtu, id, rest);
      FragHeaderBits(id, false);
      assert c[0][1..] == data[..mtu - 1];
      var r1 := r.(buf := r.buf + data[..mtu - 1]);
      AbsorbPartial(r, c[0]);
      AbsorbOne(r, c[0]);
      assert r1.buf + rest == r.buf + data;
      AbsorbWhole(mtu, id, rest, r1);
      AbsorbConcat(r, [c[0]], tail);
      assert c == [c[0]] + tail;
    }
  }

  /** All fragments of a sealed message, on an idle reader, deliver that message. */
  lemma AbsorbMessage(mtu: nat, id: nat, msg: bytes, r: Reader)
    requires mtu >= 2 && id < 15
    requires r.buf == []
    ensures forall f :: f in Chunks(mtu, id, Seal(r.iv, msg)) ==> |f| >= 1
    ensures AbsorbAll(r, Chunks(mtu, id, Seal(r.iv, msg))) == Some(Reader([], NextIv(r.iv), r.got + [msg]))
  {
    hide Crc, Seal, AbsorbAll, Chunks;
    var data := Seal(r.iv, msg);
    SealedResidue(r.iv, msg);
    SealOpens(r.iv, msg);
    assert r.buf + data == data;
    AbsorbWhole(mtu, id, data, r);
  }

  lemma SealOpens(iv: word, msg: bytes)
    ensures Seal(iv, msg) == msg + LittleEndian(Not(Crc(iv, msg)))
    ensures Seal(iv, msg)[..|Seal(iv, msg)| - 4] == msg
  {
  }

  lemma FragmentSnoc(mtu: nat, id: nat, iv: word, msgs: seq<bytes>, m: bytes)
    requires mtu >= 2 && id < 15
    ensures FragmentAll(mtu, id, iv, msgs + [m])
         == FragmentAll(mtu, id, iv, msgs) + Chunks(mtu, id, Seal(IvAfter(iv, |msgs|), m))
  {
    hide Seal, Chunks, IvAfter;
    assert (msgs + [m])[..|msgs + [m]| - 1] == msgs;
  }

  lemma AbsorbOneMore(mtu: nat, id: nat, iv: word, msgs: seq<bytes>, m: bytes)
    requires mtu >= 2 && id < 15
    requires forall f :: f in FragmentAll(mtu, id, iv, msgs) ==> |f| >= 1
    requires AbsorbAll(Reader([], iv, []), FragmentAll(mtu, id, iv, msgs))
          == Some(Reader([], IvAfter(iv, |msgs|), msgs))
    ensures forall f :: f in FragmentAll(mtu, id, iv, msgs + [m]) ==> |f| >= 1
    ensures AbsorbAll(Reader([], iv, []), FragmentAll(mtu, id, iv, msgs + [m]))
         == Some(Reader([], IvAfter(iv, |msgs + [m]|), msgs + [m]))
  {
    hide Absorb, AbsorbAll, Seal, Chunks, NextIv, FragmentAll;
    var n := |msgs|;
    AbsorbMessage(mtu, id, m, Reader([], IvAfter(iv, n), msgs));
    AbsorbConcat(Reader([], iv, []), FragmentAll(mtu, id, iv, msgs), Chunks(mtu, id, Seal(IvAfter(iv, n), m)));
    FragmentSnoc(mtu, id, iv, msgs, m);
  }

  lemma {:induction false} AbsorbMessages(mtu: nat, id: nat, iv: word, msgs: seq<bytes>)
    requires mtu >= 2 && id < 15
    ensures forall f :: f in FragmentAll(mtu, id, iv, msgs) ==> |f| >= 1
    ensures AbsorbAll(Reader([], iv, []), FragmentAll(mtu, id, iv, msgs))
         == Some(Reader([], IvAfter(iv, |msgs|), msgs))
    decreases |msgs|
  {
    hide Absorb, Seal, Chunks, NextIv;
    if msgs == [] {
    } else {
      var k := |msgs| - 1;
      AbsorbMessages(mtu, id, iv, msgs[..k]);
      AbsorbOneMore(mtu, id, iv, msgs[..k], msgs[k]);
      assert msgs[..k] + [msgs[k]] == msgs;
    }
  }

  /** The reader after some fragments of a stream is part way through it. */
  ghost predicate Along(o: Option<Reader>, iv: word, msgs: seq<bytes>) {
    o.Some? && o.value.got <= msgs && o.value.iv == IvAfter(iv, |o.value.got|)
  }

  lemma IntoLastMessage(mtu: nat, id: nat, iv: word, msgs: seq<bytes>, m: bytes, n: nat)
    requires mtu >= 2 && id < 15
    requires n < |Chunks(mtu, id, Seal(IvAfter(iv, |msgs|), m))|
    ensures var frags := FragmentAll(mtu, id, iv, msgs) + Chunks(mtu, id, Seal(IvAfter(iv, |msgs|), m))[..n];
      (forall f :: f in frags ==> |f| >= 1) && Along(AbsorbAll(Reader([], iv, []), frags), iv, msgs + [m])
  {
    hide Absorb, AbsorbAll, Seal, Chunks, NextIv, FragmentAll, IvAfter;
    AbsorbMessages(mtu, id, iv, msgs);
    var at := IvAfter(iv, |msgs|);
    AbsorbSome(mtu, id, Seal(at, m), Reader([], at, msgs), n);
    AbsorbConcat(Reader([], iv, []), FragmentAll(mtu, id, iv, msgs), Chunks(mtu, id, Seal(at, m))[..n]);
  }

  /** Any number of leading fragments of a stream reassembles without a
      checksum error into leading messages of that stream. */
  lemma {:induction false} PrefixReassembles(mtu: nat, id: nat, iv: word, msgs: seq<bytes>, n: nat)
    requires mtu >= 2 && id < 15
    requires n <= |FragmentAll(mtu, id, iv, msgs)|
    ensures forall f :: f in FragmentAll(mtu, id, iv, msgs)[..n] ==> |f| >= 1
    ensures Along(AbsorbAll(Reader([], iv, []), FragmentAll(mtu, id, iv, msgs)[..n]), iv, msgs)
    decreases |msgs|
  {
    hide Absorb, AbsorbAll, Seal, Chunks, NextIv, FragmentAll, IvAfter;
    var all := FragmentAll(mtu, id, iv, msgs);
    if n == |all| {
      assert all[..n] == all;
      AbsorbMessages(mtu, id, iv, msgs);
    } else {
      NoMessagesNoFragments(mtu, id, iv, msgs);
      var k := |msgs| - 1;
      var early := FragmentAll(mtu, id, iv, msgs[..k]);
      var late := Chunks(mtu, id, Seal(IvAfter(iv, k), msgs[k]));
      FragmentSnoc(mtu, id, iv, msgs[..k], msgs[k]);
      assert msgs[..k] + [msgs[k]] == msgs;
      if n <= |early| {
        PrefixReassembles(mtu, id, iv, msgs[..k], n);
        assert all[..n] == early[..n];
      } else {
        IntoLastMessage(mtu, id, iv, msgs[..k], msgs[k], n - |early|);
        assert all[..n] == early + late[..n - |early|];
      }
    }
  }

  lemma NoMessagesNoFragments(mtu: nat, id: nat, iv: word, msgs: seq<bytes>)
    requires mtu >= 2 && id < 15
    ensures msgs == [] ==> FragmentAll(mtu, id, iv, msgs) == []
  {
  }

  // ---------------------------------------------------------------------
  // CAN-FD adaptation
  // ---------------------------------------------------------------------

  /** Frame sizes a CAN-FD controller can send above eight bytes. */
  function PadLadder(len: nat): (r: nat)
    ensures len < 64 ==> len < r <= 64
  {
    if len < 12 then 12
    else if len < 16 then 16
    else if len < 20 then 20
    else if len < 24 then 24
    else if len < 32 then 32
    else if len < 48 then 48
    else 64
  }

  /** The sender's 64-byte buffer starts out zero; its last sent byte is
      overwritten with the amount of padding. */
  function Pad(fdcan: bool, pkt: bytes): bytes
    requires fdcan ==> |pkt| <= 64
  {
    if fdcan && |pkt| > 8 then
      var len := PadLadder(|pkt|);
      if |pkt| == 64 then pkt[63 := 0]
      else pkt + seq(len - |pkt| - 1, _ => 0 as byte) + [(len - |pkt|) as byte]
    else pkt
  }

  /** The receiver's view of a frame; `None` when it discards the frame. */
  function Unpad(fdcan: bool, wire: bytes): Option<bytes> {
    var len := if fdcan && |wire| > 8 then |wire| - (wire[|wire| - 1] as nat) else |wire|;
    if len < 1 then None else Some(wire[..len])
  }

  /** Padding is undone exactly when the packet leaves room for the pad count,
      or fills the frame and happens to end in zero. */
  lemma PadRoundTrip(fdcan: bool, pkt: bytes)
    requires |pkt| >= 1
    requires fdcan ==> |pkt| <= 64
    ensures Unpad(fdcan, Pad(fdcan, pkt)) == Some(pkt) <==> (fdcan ==> |pkt| < 64 || pkt[63] == 0)
  {
    hide PadLadder;
    if fdcan && |pkt| > 8 {
      if |pkt| < 64 {
        PadShort(pkt);
      } else {
        PadFull(pkt);
      }
    } else {
      assert pkt[..|pkt|] == pkt;
    }
  }

  lemma PadShort(pkt: bytes)
    requires 8 < |pkt| < 64
    ensures Unpad(true, Pad(true, pkt)) == Some(pkt)
  {
    hide PadLadder;
    var len := PadLadder(|pkt|);
    var w := Pad(true, pkt);
    CountByte(len - |pkt|);
    assert |w| == len && w[len - 1] == (len - |pkt|) as byte;
    assert w[..|pkt|] == pkt;
  }

  lemma CountByte(n: int)
    requires 0 < n <= 64
    ensures (n as byte) as nat == n
  {
  }

  lemma PadFull(pkt: bytes)
    requires |pkt| == 64
    ensures Unpad(true, Pad(true, pkt)) == Some(pkt) <==> pkt[63] == 0
  {
    var w := Pad(true, pkt);
    assert w[63] == 0;
    assert w[..64] == w;
    assert w == pkt <==> pkt[63] == 0;
  }

  /** The MTU is kept in one byte, after giving one byte to the pad count. */
  function StoredMtu(fdcan: bool, mtu: nat): nat {
    (if fdcan && mtu > 8 then mtu - 1 else mtu) % 256
  }

  /** Bytes of message that one pass of the fragmenting loop consumes. */
  function FragmentTake(mtu: nat, len: nat): int {
    (if len + 1 <= mtu then len + 1 else mtu) - 1
  }

  /** The fragmenting loop advances on every sealed message exactly when the
      stored MTU is at least two; creation only checks the MTU it is given. */
  lemma FragmentProgress(fdcan: bool, mtu: nat)
    requires mtu >= 8
    ensures (forall len: nat :: len >= 4 ==> 0 < FragmentTake(StoredMtu(fdcan, mtu), len))
       <==> StoredMtu(fdcan, mtu) >= 2
    ensures mtu <= 255 ==> StoredMtu(fdcan, mtu) >= 8
    ensures StoredMtu(false, 256) == 0 && StoredMtu(false, 257) == 1
  {
    var m := StoredMtu(fdcan, mtu);
    if m < 2 {
      assert FragmentTake(m, 4) <= 0;
    }
  }
}
