/** Following a VLLP session step by step, its packets written out: the tools
    for showing that a run gets somewhere. */
module VllpTraces {
  import opened Common
  import opened Crc32
  import opened VllpFrames
  import opened VllpEndpoint
  import opened VllpSession

  // ---------------------------------------------------------------------
  // Packets of one fragment
  // ---------------------------------------------------------------------

  const MTU: nat := 64

  const DATA: bytes := [7]

  function Frag(id: nat, iv: word, m: bytes): bytes
    requires id < 15
  {
    [FragHeader(id, true)] + Seal(iv, m)
  }

  /** A message short enough for one packet, as an end with register `se` puts it
      on the wire. */
  function Packet(id: nat, iv: word, m: bytes, se: byte): bytes
    requires id < 15
  {
    [WireHeader(FragHeader(id, true), se, true)] + Seal(iv, m)
  }

  lemma PacketBits(id: nat, iv: word, m: bytes, se: byte)
    requires id < 15 && IsSE(se)
    ensures var p := Packet(id, iv, m, se);
      && |p| >= 1 && ChannelOf(p[0]) == id && HasF(p[0]) && HasL(p[0]) && HasS(p[0]) == HasS(se) && HasE(p[0]) == HasE(se)
      && !IsAck(p[0]) && p[0] != SYN
  {
    FragHeaderBits(id, true);
    var h := FragHeader(id, true);
    WireHeaderBits(h, se, true);
    var w := WireHeader(h, se, true);
    assert ChannelOf(w) == id < 15;
    FlowFlag(h, se);
    NotFifteen(w);
  }

  lemma FlowFlag(h: byte, se: byte)
    ensures HasF(WireHeader(h, se, true))
  {
  }

  lemma NotFifteen(w: byte)
    requires ChannelOf(w) < 15
    ensures !IsAck(w) && w != SYN
  {
  }

  lemma PacketOpens(id: nat, iv: word, m: bytes, se: byte)
    requires id < 15 && IsSE(se)
    ensures |Packet(id, iv, m, se)| >= 1 && Receive([], iv, Packet(id, iv, m, se)) == Complete(m)
    ensures Unpad(false, Packet(id, iv, m, se)) == Some(Packet(id, iv, m, se))
  {
    hide Crc, Seal, FragHeader, WireHeader, HasL;
    var p := Packet(id, iv, m, se);
    PacketBits(id, iv, m, se);
    assert p[1..] == Seal(iv, m);
    assert [] + p[1..] == Seal(iv, m);
    SealedResidue(iv, m);
    SealOpens(iv, m);
    assert p[..|p|] == p;
  }

  lemma OneFragment(id: nat, iv: word, m: bytes)
    requires id < 15 && |m| + 4 < MTU
    ensures FragmentAll(MTU, id, iv, [m]) == [Frag(id, iv, m)] && IvAfter(iv, 1) == NextIv(iv)
  {
    hide Seal, FragHeader;
    assert [m][..0] == [];
    assert IvAfter(iv, 0) == iv;
  }

  lemma TwoFragments(id: nat, iv: word, m: bytes, k: bytes)
    requires id < 15 && |m| + 4 < MTU && |k| + 4 < MTU
    ensures FragmentAll(MTU, id, iv, [m, k]) == [Frag(id, iv, m), Frag(id, NextIv(iv), k)] && IvAfter(iv, 2) == NextIv(NextIv(iv))
  {
    hide Seal, FragHeader, NextIv;
    assert [m, k][..1] == [m];
    OneFragment(id, iv, m);
    assert IvAfter(iv, 1) == NextIv(iv);
    assert FragmentAll(MTU, id, iv, [m, k]) == FragmentAll(MTU, id, iv, [m]) + Chunks(MTU, id, Seal(NextIv(iv), k));
  }

  // ---------------------------------------------------------------------
  // Transmitting
  // ---------------------------------------------------------------------

  /** An end that has put the fragment at hand of its first active channel on the
      wire; `ch` is that channel, cut, and `more` its fragments to come. */
  function Going(e: Endpoint, ch: Chan, iv: word, m: bytes, more: seq<bytes>): Endpoint
    requires e.active != [] && e.active[0] < 15
  {
    var id := e.active[0];
    e.(chans := e.chans[id := ch.(txq := more, state := if more == [] then Established else ch.state)],
       active := if more == [] then e.active[1..] else e.active[1..] + [id],
       remoteFlow := SetFlow(e.remoteFlow, id, false),
       currentTx := Some(Packet(id, iv, m, ToggleS(e.se))),
       se := ToggleS(e.se))
  }

  predicate Idle(e: Endpoint) { e.connected && e.currentTx.None? && !e.fdcan && e.mtu == MTU && e.localFlow == 0xFFFF }

  lemma AllFlow(id: nat)
    requires id < 16
    ensures FlowBit(0xFFFF, id)
  {
    assert id == 0 || id == 1 || id == 2 || id == 3 || id == 4 || id == 5 || id == 6 || id == 7 || id == 8 || id == 9
      || id == 10 || id == 11 || id == 12 || id == 13 || id == 14 || id == 15;
  }

  lemma ScanFirst(e: Endpoint)
    requires ScanReady(e) && Idle(e) && e.active != [] && e.active[0] < 15 && FlowBit(e.remoteFlow, e.active[0])
    ensures e.active[0] in e.chans
    ensures var id := e.active[0];
      Scan(e.mtu, e.remoteFlow, e.active, e.chans, 0) == Pick(e.chans[id := FragmentChan(MTU, id, e.chans[id])], 0)
  {
    hide FragmentChan, FlowBit;
  }

  lemma StartFirst(e: Endpoint, ch: Chan, iv: word, m: bytes, more: seq<bytes>)
    requires Idle(e) && e.active != [] && e.active[0] < 15 && ch.txq == [Frag(e.active[0], iv, m)] + more
    ensures var id := e.active[0];
      StartPacket(e, Pick(e.chans[id := ch], 0)) == Going(e, ch, iv, m, more).(currentTx := Some(Frag(id, iv, m)))
  {
    hide SetFlow, ToggleS, Frag, Packet;
    var id := e.active[0];
    assert ch.txq[1..] == more;
    assert e.active[..0] + e.active[0 + 1..] == e.active[1..];
    assert e.chans[id := ch][id := ch.(txq := more, state := if more == [] then Established else ch.state)]
        == e.chans[id := ch.(txq := more, state := if more == [] then Established else ch.state)];
  }

  lemma TransmitFrag(e: Endpoint, id: nat, iv: word, m: bytes)
    requires id < 15 && e.currentTx == Some(Frag(id, iv, m)) && !e.fdcan && e.localFlow == 0xFFFF
    ensures Transmit(e) == TxResult(e.(currentTx := Some(Packet(id, iv, m, e.se))), Some(Packet(id, iv, m, e.se)))
  {
    hide FlowBit, WireHeader, FragHeader, ChannelOf, Seal;
    AllFlow(id);
    FragHeaderBits(id, true);
    var f := Frag(id, iv, m);
    assert f[0 := WireHeader(f[0], e.se, true)] == Packet(id, iv, m, e.se);
  }

  lemma TxNext(e: Endpoint, iv: word, m: bytes, more: seq<bytes>)
    requires ScanReady(e) && Idle(e) && e.active != [] && e.active[0] < 15 && FlowBit(e.remoteFlow, e.active[0])
    requires e.active[0] in e.chans
    requires FragmentChan(MTU, e.active[0], e.chans[e.active[0]]).txq == [Frag(e.active[0], iv, m)] + more
    ensures Tx(e, true, true) ==
      TxResult(Going(e, FragmentChan(MTU, e.active[0], e.chans[e.active[0]]), iv, m, more),
               Some(Packet(e.active[0], iv, m, ToggleS(e.se))))
  {
    hide FragmentChan, FlowBit, SetFlow, ToggleS, Frag, Packet, Scan, StartPacket, Transmit, ScanReady;
    var id := e.active[0];
    var ch := FragmentChan(MTU, id, e.chans[id]);
    ScanFirst(e);
    StartFirst(e, ch, iv, m, more);
    TransmitFrag(Going(e, ch, iv, m, more).(currentTx := Some(Frag(id, iv, m))), id, iv, m);
  }

  /** An end that has sent the only message of its first active channel. */
  function SentOnly(e: Endpoint, m: bytes): Endpoint
    requires e.active != [] && e.active[0] < 15 && e.active[0] in e.chans
  {
    var id := e.active[0];
    var ch := e.chans[id];
    e.(chans := e.chans[id := ch.(txq := [], mtxq := [], txIV := NextIv(ch.txIV), state := Established)],
       active := e.active[1..], remoteFlow := SetFlow(e.remoteFlow, id, false),
       currentTx := Some(Packet(id, ch.txIV, m, ToggleS(e.se))), se := ToggleS(e.se))
  }

  lemma TxOnly(e: Endpoint, m: bytes)
    requires Fit(e) && Idle(e) && e.active != [] && e.active[0] < 15 && e.active[0] in e.chans && FlowBit(e.remoteFlow, e.active[0])
    requires e.chans[e.active[0]].txq == [] && e.chans[e.active[0]].mtxq == [m] && |m| + 4 < MTU
    ensures Tx(e, true, true) == TxResult(SentOnly(e, m), Some(Packet(e.active[0], e.chans[e.active[0]].txIV, m, ToggleS(e.se))))
  {
    hide FlowBit, SetFlow, ToggleS, Frag, Packet, Tx, NextIv, FragmentAll, IvAfter, ScanReady;
    var id := e.active[0];
    var ch := e.chans[id];
    OneFragment(id, ch.txIV, m);
    assert [] + [Frag(id, ch.txIV, m)] == [Frag(id, ch.txIV, m)] + [];
    TxNext(e, ch.txIV, m, []);
  }

  /** The first of two messages sent: the channel goes to the end of the line. */
  function SentFirst(e: Endpoint, m: bytes, n: bytes): Endpoint
    requires e.active != [] && e.active[0] < 15 && e.active[0] in e.chans
  {
    var id := e.active[0];
    var ch := e.chans[id];
    e.(chans := e.chans[id := ch.(txq := [Frag(id, NextIv(ch.txIV), n)], mtxq := [], txIV := NextIv(NextIv(ch.txIV)))],
       active := e.active[1..] + [id], remoteFlow := SetFlow(e.remoteFlow, id, false),
       currentTx := Some(Packet(id, ch.txIV, m, ToggleS(e.se))), se := ToggleS(e.se))
  }

  lemma TxFirst(e: Endpoint, m: bytes, n: bytes)
    requires Fit(e) && Idle(e) && e.active != [] && e.active[0] < 15 && e.active[0] in e.chans && FlowBit(e.remoteFlow, e.active[0])
    requires e.chans[e.active[0]].txq == [] && e.chans[e.active[0]].mtxq == [m, n] && |m| + 4 < MTU && |n| + 4 < MTU
    ensures Tx(e, true, true) == TxResult(SentFirst(e, m, n), Some(Packet(e.active[0], e.chans[e.active[0]].txIV, m, ToggleS(e.se))))
  {
    hide FlowBit, SetFlow, ToggleS, Frag, Packet, Tx, NextIv, FragmentAll, IvAfter, ScanReady;
    var id := e.active[0];
    var ch := e.chans[id];
    TwoFragments(id, ch.txIV, m, n);
    assert [] + [Frag(id, ch.txIV, m), Frag(id, NextIv(ch.txIV), n)] == [Frag(id, ch.txIV, m)] + [Frag(id, NextIv(ch.txIV), n)];
    TxNext(e, ch.txIV, m, [Frag(id, NextIv(ch.txIV), n)]);
  }

  /** The last fragment sent, cut before. */
  function SentLast(e: Endpoint, iv: word, m: bytes): Endpoint
    requires e.active != [] && e.active[0] < 15 && e.active[0] in e.chans
  {
    var id := e.active[0];
    e.(chans := e.chans[id := e.chans[id].(txq := [], state := Established)],
       active := e.active[1..], remoteFlow := SetFlow(e.remoteFlow, id, false),
       currentTx := Some(Packet(id, iv, m, ToggleS(e.se))), se := ToggleS(e.se))
  }

  lemma TxLast(e: Endpoint, iv: word, m: bytes)
    requires Fit(e) && Idle(e) && e.active != [] && e.active[0] < 15 && e.active[0] in e.chans && FlowBit(e.remoteFlow, e.active[0])
    requires e.chans[e.active[0]].txq == [Frag(e.active[0], iv, m)] && e.chans[e.active[0]].mtxq == []
    ensures Tx(e, true, true) == TxResult(SentLast(e, iv, m), Some(Packet(e.active[0], iv, m, ToggleS(e.se))))
  {
    hide FlowBit, SetFlow, ToggleS, Frag, Packet, Tx, NextIv, FragmentAll, IvAfter, ScanReady;
    var id := e.active[0];
    NoFragments(id, e.chans[id].txIV);
    assert [Frag(id, iv, m)] + [] == [Frag(id, iv, m)];
    TxNext(e, iv, m, []);
  }

  lemma TxAck(e: Endpoint)
    requires ScanReady(e) && Idle(e) && e.active == []
    ensures Tx(e, true, true) == TxResult(e, Some(AckPacket(e)))
  {
    hide AckPacket;
  }

  // ---------------------------------------------------------------------
  // Receiving
  // ---------------------------------------------------------------------

  /** The registers of an end that has taken a packet. */
  function Taken(e: Endpoint, id: nat, acked: bool): Endpoint
    requires id < 16
  {
    e.(se := ToggleE(e.se), remoteFlow := SetFlow(e.remoteFlow, id, true), currentTx := if acked then None else e.currentTx)
  }

  predicate Listens(e: Endpoint, id: nat, iv: word) {
    CMC in e.chans && id in e.chans && id < 15 && e.chans[id].rxbuf == [] && e.chans[id].rxIV == iv && e.connected
  }

  lemma RxData(e: Endpoint, id: nat, iv: word, m: bytes, se: byte, verdict: word)
    requires Listens(e, id, iv) && id != CMC && IsSE(se) && HasS(se) == HasE(e.se)
    ensures var ch := e.chans[id];
      HandleRx(e, Packet(id, iv, m, se), verdict) ==
        RxResult(Taken(e.(chans := e.chans[id := ch.(rxbuf := [], rxIV := NextIv(iv), rxq := ch.rxq + [Message(m)])]), id, HasE(se) != HasS(e.se)), Ok)
  {
    hide Packet, Receive, Crc, ChannelOf, HasF, HasS, HasE, IsAck, SetFlow, ToggleE, NextIv;
    PacketBits(id, iv, m, se);
    PacketOpens(id, iv, m, se);
  }

  lemma RxControl(e: Endpoint, iv: word, m: bytes, se: byte, verdict: word)
    requires Listens(e, CMC, iv) && IsSE(se) && HasS(se) == HasE(e.se)
    ensures var ch := e.chans[CMC];
      var r := ControlRx(e.(chans := e.chans[CMC := ch.(rxbuf := [], rxIV := NextIv(iv))]), m, verdict);
      HandleRx(e, Packet(CMC, iv, m, se), verdict) ==
        if r.code != Ok then r else RxResult(Taken(r.e, CMC, HasE(se) != HasS(e.se)), Ok)
  {
    hide Packet, Receive, Crc, ChannelOf, HasF, HasS, HasE, IsAck, SetFlow, ToggleE, NextIv, ControlRx;
    PacketBits(CMC, iv, m, se);
    PacketOpens(CMC, iv, m, se);
  }

  /** The server's tables once an open is answered. */
  function Served(e: Endpoint, iv: word, id: nat, name: bytes, verdict: word): Endpoint
    requires CMC in e.chans && id < 14
  {
    hide ChannelIv, Not, NextIv, ResponseMessage;
    var k := ChannelIv(e.crcIV, NextIv(e.ivCount));
    var cmc := e.chans[CMC].(rxbuf := [], rxIV := NextIv(iv));
    var chans := if verdict == 0 then e.chans[id := MakeChan(Established, false, name, k, Not(k))] else e.chans;
    e.(ivCount := NextIv(e.ivCount), chans := chans[CMC := SentChan(cmc, ResponseMessage(id, verdict))],
       active := if cmc.state == Established then e.active + [CMC] else e.active)
  }

  lemma RxOpen(e: Endpoint, iv: word, id: nat, name: bytes, se: byte, verdict: word)
    requires Listens(e, CMC, iv) && e.server && IsSE(se) && HasS(se) == HasE(e.se) && id < 14 && id !in e.chans && name != []
    ensures HandleRx(e, Packet(CMC, iv, OpenMessage(id, name), se), verdict) ==
      RxResult(Taken(Served(e, iv, id, name, verdict), CMC, HasE(se) != HasS(e.se)), Ok)
  {
    hide Packet, OpenMessage, HandleRx, NextIv, ChannelIv, Not, ResponseMessage, Taken, HasE, HasS, SentChan;
    RxControl(e, iv, OpenMessage(id, name), se, verdict);
    OpenIs(id, name);
    var e1 := e.(chans := e.chans[CMC := e.chans[CMC].(rxbuf := [], rxIV := NextIv(iv))]);
    var r := ControlRx(e1, OpenMessage(id, name), verdict);
    assert r == HandleOpen(e1, id, name, verdict);
    assert r.e.chans == Served(e, iv, id, name, verdict).chans;
  }

  /** The client's tables once its channel is accepted. */
  function Answered(e: Endpoint, iv: word, id: nat): Endpoint
    requires CMC in e.chans && id in e.chans
  {
    var ch := e.chans[id];
    e.(chans := e.chans[CMC := e.chans[CMC].(rxbuf := [], rxIV := NextIv(iv))][id := AnsweredChan(ch)],
       active := if ch.mtxq != [] then e.active + [id] else e.active)
  }

  lemma RxAnswer(e: Endpoint, iv: word, id: nat, m: bytes, se: byte)
    requires Listens(e, CMC, iv) && !e.server && IsSE(se) && HasS(se) == HasE(e.se) && id < 14 && id in e.chans && e.chans[id].state == OpenSent
    requires |m| == 3 && Opcode(m[0]) == 2 && ChannelOf(m[0]) == id && m[1..] == [0, 0]
    ensures HandleRx(e, Packet(CMC, iv, m, se), 0) == RxResult(Taken(Answered(e, iv, id), CMC, HasE(se) != HasS(e.se)), Ok)
  {
    hide Packet, HandleRx, NextIv, ResponseMessage, Taken, HasE, HasS, AnsweredChan, Opcode, ChannelOf;
    RxControl(e, iv, m, se, 0);
    var e1 := e.(chans := e.chans[CMC := e.chans[CMC].(rxbuf := [], rxIV := NextIv(iv))]);
    assert ControlRx(e1, m, 0) == HandleOpenResponse(e1, id, [0, 0]);
  }

  /** A copy of a packet taken before only tells flow and acknowledgement. */
  lemma RxCopy(e: Endpoint, id: nat, iv: word, m: bytes, se: byte, verdict: word)
    requires CMC in e.chans && id < 15 && e.connected && IsSE(se) && HasS(se) != HasE(e.se) && HasE(se) == HasS(e.se)
    ensures HandleRx(e, Packet(id, iv, m, se), verdict) == RxResult(e.(remoteFlow := SetFlow(e.remoteFlow, id, true)), Ok)
  {
    hide Packet, ChannelOf, HasF, HasS, HasE, IsAck, SetFlow, Crc;
    PacketBits(id, iv, m, se);
  }

  lemma AckBytes(e: Endpoint)
    requires IsSE(e.se) && e.localFlow == 0xFFFF
    ensures var p := AckPacket(e);
      && |p| == 7 && IsAck(p[0]) && ChannelOf(p[0]) == 15 && p[0] != SYN && HasE(p[0]) == HasE(e.se)
      && FlowOf(p[1], p[2]) == 0xFFFF && Crc(e.crcIV, p) == ALL_ONES && Unpad(false, p) == Some(p)
      && (e.se == 0x40 ==> p[0] == 0x5F)
  {
    hide Crc, Seal;
    var b := AckBits(e.se);
    AckHeader(e.se);
    var m := [b, FlowLow(e.localFlow), FlowHigh(e.localFlow)];
    SealedResidue(e.crcIV, m);
    SealOpens(e.crcIV, m);
    var p := AckPacket(e);
    assert p[..3] == m;
    assert p[0] == m[0] && p[1] == m[1] && p[2] == m[2];
    assert p[..|p|] == p;
  }

  lemma AckHeader(se: byte)
    requires IsSE(se)
    ensures var b := AckBits(se); IsAck(b) && ChannelOf(b) == 15 && b != SYN && HasE(b) == HasE(se)
    ensures se == 0x40 ==> AckBits(se) == 0x5F
  {
    assert (se | 0x1F) & 0x0F == 0x0F;
  }

  /** An acknowledgement alone. */
  lemma RxAck(e: Endpoint, p: Endpoint, verdict: word)
    requires CMC in e.chans && e.connected && IsSE(p.se) && p.localFlow == 0xFFFF && p.crcIV == e.crcIV
    ensures HandleRx(e, AckPacket(p), verdict) ==
      RxResult(e.(remoteFlow := 0xFFFF, currentTx := if HasE(p.se) != HasS(e.se) then None else e.currentTx), Ok)
  {
    hide AckPacket, ChannelOf, IsAck, HasE, HasS, Crc, FlowOf;
    AckBytes(p);
  }

  /** The answer to a connection request. */
  lemma RxFirst(e: Endpoint, p: Endpoint, verdict: word)
    requires CMC in e.chans && !e.connected && !e.server && p.se == 0x40 && p.localFlow == 0xFFFF && p.crcIV == e.crcIV
    ensures HandleRx(e, AckPacket(p), verdict) == RxResult(e.(remoteFlow := 0xFFFF, connected := true), Ok)
  {
    hide AckPacket, ChannelOf, IsAck, HasE, HasS, Crc, FlowOf;
    assert IsSE(0x40);
    AckBytes(p);
  }

  // ---------------------------------------------------------------------
  // The system
  // ---------------------------------------------------------------------

  function Wires(fs: seq<Flight>): (r: seq<bytes>)
    ensures |r| == |fs| && forall i :: 0 <= i < |fs| ==> r[i] == fs[i].wire
  {
    seq(|fs|, i requires 0 <= i < |fs| => fs[i].wire)
  }

  /** An end that can go on. */
  predicate Fit(e: Endpoint) { ScanReady(e) && !e.fdcan && e.mtu == MTU }

  /** A state as far as the ends can tell. */
  predicate Shows(y: System, c: Endpoint, s: Endpoint, cs: seq<bytes>, sc: seq<bytes>) {
    && !y.broken && y.c.e == c && y.s.e == s && Wires(y.cs) == cs && Wires(y.sc) == sc
    && Fit(c) && Fit(s)
  }

  predicate Transmits(e: Endpoint, f: Endpoint, w: bytes) {
    Fit(f) && Fit(e) && Tx(e, true, true) == TxResult(f, Some(w))
  }

  predicate Handles(e: Endpoint, w: bytes, verdict: word, f: Endpoint) {
    Fit(f) && CMC in e.chans && |w| >= 1 && HandleRx(e, w, verdict) == RxResult(f, Ok)
  }

  predicate Creates(e: Endpoint, name: bytes, reconnect: bool, f: Endpoint) { Fit(f) && CreateChannel(e, name, reconnect).0 == f }

  predicate Opens(e: Endpoint, f: Endpoint) { Fit(f) && CanOpen(e) && OpenPending(e) == f }

  predicate Sends(e: Endpoint, id: nat, msg: bytes, f: Endpoint) { Fit(f) && id in e.chans && id != CMC && SendMessage(e, id, msg) == f }

  lemma DoClientTx(y: System, c: Endpoint, s: Endpoint, cs: seq<bytes>, sc: seq<bytes>, c1: Endpoint, w: bytes)
    requires Shows(y, c, s, cs, sc) && Transmits(c, c1, w)
    ensures Shows(Step(y, ClientTx(true, true)), c1, s, cs + [w], sc)
  {
    hide Tx, ScanReady, Norm;
  }

  lemma DoServerTx(y: System, c: Endpoint, s: Endpoint, cs: seq<bytes>, sc: seq<bytes>, s1: Endpoint, w: bytes)
    requires Shows(y, c, s, cs, sc) && Transmits(s, s1, w)
    ensures Shows(Step(y, ServerTx(true, true)), c, s1, cs, sc + [w])
  {
    hide Tx, ScanReady, Norm;
  }

  lemma DoClientRx(y: System, c: Endpoint, s: Endpoint, cs: seq<bytes>, w: bytes, sc: seq<bytes>, c1: Endpoint)
    requires Shows(y, c, s, cs, [w] + sc) && Handles(c, w, 0, c1)
    ensures Shows(Step(y, ClientRx), c1, s, cs, sc)
  {
    hide HandleRx, ScanReady, Takes, Receive, Norm;
    assert Wires(y.sc)[0] == w && Wires(y.sc[1..]) == Wires(y.sc)[1..];
    assert w[..|w|] == w;
  }

  lemma DoServerRx(y: System, c: Endpoint, s: Endpoint, w: bytes, cs: seq<bytes>, sc: seq<bytes>, verdict: word, s1: Endpoint)
    requires Shows(y, c, s, [w] + cs, sc) && Handles(s, w, verdict, s1)
    ensures Shows(Step(y, ServerRx(verdict)), c, s1, cs, sc)
  {
    hide HandleRx, ScanReady, Takes, Receive, Norm;
    assert Wires(y.cs)[0] == w && Wires(y.cs[1..]) == Wires(y.cs)[1..];
    assert w[..|w|] == w;
  }

  /** A packet that the server cannot handle ends the session. */
  lemma DoServerFail(y: System, c: Endpoint, s: Endpoint, w: bytes, cs: seq<bytes>, sc: seq<bytes>, verdict: word)
    requires Shows(y, c, s, [w] + cs, sc) && CMC in s.chans && |w| >= 1 && s.connected && HandleRx(s, w, verdict).code != Ok
    ensures Step(y, ServerRx(verdict)).broken
  {
    hide HandleRx, ScanReady, Takes, Receive, Norm;
    assert Wires(y.cs)[0] == w && w[..|w|] == w;
  }

  lemma DoCreate(y: System, c: Endpoint, s: Endpoint, cs: seq<bytes>, sc: seq<bytes>, name: bytes, reconnect: bool, c1: Endpoint)
    requires Shows(y, c, s, cs, sc) && Creates(c, name, reconnect, c1)
    ensures Shows(Step(y, ClientCreate(name, reconnect)), c1, s, cs, sc)
  {
    hide CreateChannel, ScanReady;
  }

  lemma DoOpen(y: System, c: Endpoint, s: Endpoint, cs: seq<bytes>, sc: seq<bytes>, c1: Endpoint)
    requires Shows(y, c, s, cs, sc) && Opens(c, c1)
    ensures Shows(Step(y, ClientOpen), c1, s, cs, sc)
  {
    hide OpenPending, ScanReady;
  }

  lemma DoServerSend(y: System, c: Endpoint, s: Endpoint, cs: seq<bytes>, sc: seq<bytes>, id: nat, msg: bytes, s1: Endpoint)
    requires Shows(y, c, s, cs, sc) && Sends(s, id, msg, s1)
    ensures Shows(Step(y, ServerSend(id, msg)), c, s1, cs, sc)
  {
    hide SendMessage, ScanReady;
  }

  lemma DoRepeat(y: System, c: Endpoint, s: Endpoint, cs: seq<bytes>, w: bytes)
    requires Shows(y, c, s, cs, [w])
    ensures Shows(Step(y, RepeatFromServer(0)), c, s, cs, [w, w])
  {
    hide ScanReady;
    assert |y.sc| == 1 && y.sc[0].wire == w;
    assert y.sc[..1] + y.sc[0..] == [y.sc[0], y.sc[0]];
  }


  // ---------------------------------------------------------------------
  // Ends written out
  // ---------------------------------------------------------------------

  /** The initial value of the message numbered j that the server, or the client,
      sends on the channel of an open's number. */
  function Iv(server: bool, session: word, serial: word, j: nat): word {
    IvAfter(if server then ChannelIv(session, serial) else Not(ChannelIv(session, serial)), j)
  }

  lemma IvNext(server: bool, session: word, serial: word, j: nat)
    ensures NextIv(Iv(server, session, serial, j)) == Iv(server, session, serial, j + 1)
  {
    hide ChannelIv, Not, NextIv;
  }

  lemma IvStart(session: word, serial: word)
    ensures Iv(true, session, serial, 0) == ChannelIv(session, serial) && Iv(false, session, serial, 0) == Not(ChannelIv(session, serial))
  {
    hide ChannelIv, Not;
  }

  /** A channel of one end, after a number of messages each way. */
  function Ch(server: bool, session: word, serial: word, state: ChanState, reconnect: bool, name: bytes,
              txq: seq<bytes>, mtxq: seq<bytes>, sent: nat, got: nat, rxq: seq<RxItem>): Chan {
    Chan(state, reconnect, name, txq, mtxq, Iv(server, session, serial, sent), Iv(!server, session, serial, got), [], rxq)
  }

  function Client(session: word, connected: bool, se: byte, tx: Option<bytes>, opens: word, flow: bv16,
                  free: set<nat>, pending: seq<nat>, active: seq<nat>, chans: map<nat, Chan>): Endpoint {
    Endpoint(false, false, MTU, connected, se, tx, session, opens, flow, 0xFFFF, free, pending, active, chans)
  }

  function Server(session: word, se: byte, tx: Option<bytes>, opens: word, flow: bv16, active: seq<nat>, chans: map<nat, Chan>): Endpoint {
    Endpoint(true, false, MTU, true, se, tx, session, opens, flow, 0xFFFF, {}, [], active, chans)
  }

  lemma NoFragments(id: nat, iv: word)
    requires id < 15
    ensures FragmentAll(MTU, id, iv, []) == [] && IvAfter(iv, 0) == iv
  {
  }

  /** What an open and an acceptance say. */
  lemma OpenIs(id: nat, name: bytes)
    requires id < 14
    ensures var m := OpenMessage(id, name); |m| == 1 + |name| && Opcode(m[0]) == 0 && ChannelOf(m[0]) == id && m[1..] == name
  {
    var x := id as byte;
    assert x < 14 && x as nat == id;
    assert x & 0x0F == x && x >> 4 == 0;
  }

  lemma AnswerIs(id: nat)
    requires id < 14
    ensures var m := ResponseMessage(id, 0); |m| == 3 && Opcode(m[0]) == 2 && ChannelOf(m[0]) == id && m[1..] == [0, 0]
  {
    var x := id as byte;
    assert x < 14 && x as nat == id;
    assert (x | 0x20) & 0x0F == x && (x | 0x20) >> 4 == 2;
  }

  lemma Counts()
    ensures NextIv(1) == 2 && NextIv(2) == 3 && NextIv(3) == 4
  {
  }

  lemma PacketSize(id: nat, iv: word, m: bytes, se: byte)
    requires id < 15
    ensures |Packet(id, iv, m, se)| == |Frag(id, iv, m)| == |m| + 5
  {
    hide Seal, WireHeader, FragHeader;
  }

  /** The flow words that come up. */
  lemma Flows()
    ensures SetFlow(0xFFFF, CMC, false) == 0xBFFF && SetFlow(0xBFFF, CMC, true) == 0xFFFF && SetFlow(0xFFFF, CMC, true) == 0xFFFF
    ensures SetFlow(0xFFFE, CMC, false) == 0xBFFE && SetFlow(0xFFFE, CMC, true) == 0xFFFE
    ensures SetFlow(0xFFFF, 0, false) == 0xFFFE && SetFlow(0xFFFF, 0, true) == 0xFFFF
    ensures SetFlow(0xFFFF, 2, false) == 0xFFFB && SetFlow(0xFFFF, 2, true) == 0xFFFF
    ensures FlowBit(0xFFFF, CMC) && FlowBit(0xFFFE, CMC) && FlowBit(0xFFFF, 0) && FlowBit(0xFFFF, 2)
    ensures IsSE(0x00) && IsSE(0x40) && IsSE(0x80) && IsSE(0xC0)
  {
  }

  // ---------------------------------------------------------------------
  // Actions in turn
  // ---------------------------------------------------------------------

  /** A run, from its first action. */
  function Play(y: System, actions: seq<Action>): System
    decreases actions
  {
    if actions == [] then y else Play(Step(y, actions[0]), actions[1..])
  }

  lemma {:induction false} PlayJoin(y: System, a: seq<Action>, b: seq<Action>)
    ensures Play(y, a + b) == Play(Play(y, a), b)
    decreases a
  {
    hide Step;
    if a == [] {
      assert a + b == b;
    } else {
      assert (a + b)[1..] == a[1..] + b;
      PlayJoin(Step(y, a[0]), a[1..], b);
    }
  }

  lemma {:induction false} PlayIsRun(y: System, actions: seq<Action>)
    ensures Play(y, actions) == Run(y, actions)
    decreases actions
  {
    hide Step;
    if actions != [] {
      var front, last := actions[..|actions| - 1], actions[|actions| - 1];
      PlayIsRun(y, front);
      assert front + [last] == actions;
      PlayJoin(y, front, [last]);
      PlayOne(Play(y, front), last);
    }
  }

  lemma PlayOne(y: System, a: Action)
    ensures Play(y, [a]) == Step(y, a)
  {
    hide Step;
    assert [a][1..] == [];
  }

  lemma PlayFour(y: System, a: Action, b: Action, c: Action, d: Action)
    ensures Play(y, [a, b, c, d]) == Step(Step(Step(Step(y, a), b), c), d)
  {
    hide Step, Play;
    assert [a, b, c, d] == [a] + [b] + [c] + [d];
    PlayJoin(y, [a] + [b] + [c], [d]);
    PlayJoin(y, [a] + [b], [c]);
    PlayJoin(y, [a], [b]);
    PlayOne(y, a);
    PlayOne(Step(y, a), b);
    PlayOne(Step(Step(y, a), b), c);
    PlayOne(Step(Step(Step(y, a), b), c), d);
  }

  lemma PlayFive(y: System, a: Action, b: Action, c: Action, d: Action, e: Action)
    ensures Play(y, [a, b, c, d, e]) == Step(Step(Step(Step(Step(y, a), b), c), d), e)
  {
    hide Step, Play;
    assert [a, b, c, d, e] == [a, b, c, d] + [e];
    PlayJoin(y, [a, b, c, d], [e]);
    PlayFour(y, a, b, c, d);
    PlayOne(Step(Step(Step(Step(y, a), b), c), d), e);
  }
}
