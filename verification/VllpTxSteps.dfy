/** Transmitting, losing and repeating packets keeps the session invariant. */
module VllpTxSteps {
  import opened Common
  import opened Crc32
  import opened VllpFrames
  import opened VllpEndpoint
  import opened VllpLink
  import opened VllpSession
  import opened VllpWellFormed
  import opened VllpStreams
  import opened VllpInvariant

  // ---------------------------------------------------------------------
  // Link
  // ---------------------------------------------------------------------

  lemma AckChannel(h: byte)
    ensures IsAck(h) ==> ChannelOf(h) == 15
  {
    if IsAck(h) {
      assert h & 0x0F == 0x0F;
    }
  }

  lemma NotControlHeader(h: byte)
    requires ChannelOf(h) < 15
    ensures h != SYN && !IsAck(h)
  {
    AckChannel(h);
  }

  lemma NormKeeps(p: bytes, h: byte)
    requires |p| >= 1 && FragBits(h) == FragBits(p[0])
    ensures Norm(p[0 := h]) == Norm(p)
  {
    hide FragBits;
  }

  /** What goes on the wire carries the end's bits and the outstanding fragment,
      whatever headers earlier transmissions gave it. */
  lemma TransmitFacts(e: Endpoint)
    requires Wf(e) && e.currentTx.Some?
    ensures 1 <= |e.currentTx.value| && (e.fdcan ==> |e.currentTx.value| <= 64)
    ensures Transmit(e).out.Some? && Transmit(e).e.currentTx.Some?
    ensures var p1 := Transmit(e).e.currentTx.value;
      && Unpad(e.fdcan, Transmit(e).out.value) == Some(p1)
      && |p1| >= 1 && PacketOk(e.crcIV, p1)
      && Norm(p1) == Norm(e.currentTx.value)
      && HasS(p1[0]) == HasS(e.se) && HasE(p1[0]) == HasE(e.se) && ChannelOf(p1[0]) != 15
      && Transmit(e).e == e.(currentTx := Some(p1))
  {
    hide Crc, ChansOk, QueueOk, FreeOk, Pad, Unpad, WireHeader, FlowBit, ChannelOf, IsAck, HasS, HasE, IsSE, Norm, FragBits;
    var p := e.currentTx.value;
    var id := ChannelOf(p[0]);
    var flow := id != 15 && FlowBit(e.localFlow, id);
    WireHeaderBits(p[0], e.se, flow);
    var h := WireHeader(p[0], e.se, flow);
    NormKeeps(p, h);
    NotControlHeader(h);
    PadRoundTrip(e.fdcan, p[0 := h]);
  }

  lemma DecodeSnoc(fdcan: bool, fs: seq<Flight>, f: Flight)
    ensures DecodeAll(fdcan, fs + [f]) == DecodeAll(fdcan, fs) + [Decode(fdcan, f)]
  {
    hide Decode;
  }

  lemma DecodePacket(fdcan: bool, f: Flight, p: bytes)
    requires Unpad(fdcan, f.wire) == Some(p) && |p| >= 1
    ensures Decode(fdcan, f) == SeenOf(p, f.started, f.accepted)
  {
    hide SeenOf, Unpad;
  }

  lemma FlightsSnoc(fdcan: bool, session: word, fs: seq<Flight>, f: Flight)
    requires FlightsOk(fdcan, session, fs) && FlightOk(fdcan, session, f)
    ensures FlightsOk(fdcan, session, fs + [f])
  {
    hide FlightOk;
  }

  /** Putting one packet on the wire. */
  lemma EmitLinked(x: Node, y: Node, xy: seq<Flight>, yx: seq<Flight>, f: Flight, p: bytes)
    requires Linked(x, y, xy, yx)
    requires Unpad(x.e.fdcan, f.wire) == Some(p) && PacketOk(x.e.crcIV, p)
    requires f.started == |x.log.started| && f.accepted == |x.log.accepted|
    requires HasS(p[0]) == HasS(x.e.se) && HasE(p[0]) == HasE(x.e.se)
    requires ChannelOf(p[0]) != 15 ==> NormOf(x.e.currentTx) == Some(Norm(p))
    ensures Linked(x, y, xy + [f], yx)
  {
    hide LinkInv, DecodeAll, Unpad, PacketOk, HasS, HasE, ChannelOf, Norm, NormOf, FlightsOk;
    PacketNonEmpty(x.e.crcIV, p);
    var frag := if ChannelOf(p[0]) == 15 then None else Some(Norm(p));
    DecodePacket(x.e.fdcan, f, p);
    DecodeSnoc(x.e.fdcan, xy, f);
    SendKeepsLink(EndOf(x), EndOf(y), DecodeAll(x.e.fdcan, xy), DecodeAll(x.e.fdcan, yx), frag);
    FlightsSnoc(x.e.fdcan, x.e.crcIV, xy, f);
  }

  lemma PacketNonEmpty(session: word, p: bytes)
    requires PacketOk(session, p)
    ensures |p| >= 1
  {
  }

  /** Only what the link reads of a node matters to it. */
  lemma LinkedSame(x: Node, y: Node, xy: seq<Flight>, yx: seq<Flight>, x1: Node)
    requires Linked(x, y, xy, yx)
    requires EndOf(x1) == EndOf(x) && x1.e.fdcan == x.e.fdcan && x1.e.crcIV == x.e.crcIV
    ensures Linked(x1, y, xy, yx)
  {
    hide LinkInv, DecodeAll, FlightsOk, EndOf;
  }

  lemma LinkedSym(x: Node, y: Node, xy: seq<Flight>, yx: seq<Flight>)
    requires Linked(x, y, xy, yx) && x.e.fdcan == y.e.fdcan && x.e.crcIV == y.e.crcIV
    ensures Linked(y, x, yx, xy)
  {
    hide LinkInv, DecodeAll, FlightsOk, EndOf;
    LinkSym(EndOf(x), EndOf(y), DecodeAll(x.e.fdcan, xy), DecodeAll(x.e.fdcan, yx));
  }

  lemma RetransmitLinked(x: Node, y: Node, xy: seq<Flight>, yx: seq<Flight>)
    requires Wf(x.e) && x.e.currentTx.Some? && |x.e.currentTx.value| >= 1
    requires Linked(x, y, xy, yx)
    ensures x.e.fdcan ==> |x.e.currentTx.value| <= 64
    ensures Transmit(x.e).out.Some?
    ensures Linked(Node(Transmit(x.e).e, x.log), y,
                   xy + [Flight(Transmit(x.e).out.value, |x.log.started|, |x.log.accepted|)], yx)
  {
    hide Linked, Wf, Transmit, PacketOk, Unpad, Norm, HasS, HasE, ChannelOf;
    TransmitFacts(x.e);
    var r := Transmit(x.e);
    var n := Node(r.e, x.log);
    LinkedSame(x, y, xy, yx, n);
    EmitLinked(n, y, xy, yx, Flight(r.out.value, |x.log.started|, |x.log.accepted|), r.e.currentTx.value);
  }

  lemma NormFrag(f: bytes)
    requires |f| >= 1 && FragBits(f[0]) == f[0]
    ensures Norm(f) == f
  {
    hide FragBits;
  }

  lemma StartLinkedPacket(x: Node, y: Node, xy: seq<Flight>, yx: seq<Flight>, pick: Pick)
    requires Wf(x.e) && Linked(x, y, xy, yx) && x.e.currentTx.None?
    requires pick.pos < |x.e.active| && x.e.active[pick.pos] in pick.chans && x.e.active[pick.pos] < 16
    requires pick.chans[x.e.active[pick.pos]].txq != []
    requires FragOf(x.e.mtu, x.e.active[pick.pos], pick.chans[x.e.active[pick.pos]].txq[0])
    ensures var f := pick.chans[x.e.active[pick.pos]].txq[0];
      Linked(Node(StartPacket(x.e, pick), x.log.(started := x.log.started + [f])), y, xy, yx)
  {
    hide Wf, LinkInv, DecodeAll, FlightsOk, FragOf, HasS, HasE, IsSE, SetFlow, ToggleS, Norm;
    var f := pick.chans[x.e.active[pick.pos]].txq[0];
    FragOfSize(x.e.mtu, x.e.active[pick.pos], f);
    NormFrag(f);
    SeOf(x.e);
    ToggleBits(x.e.se);
    StartKeepsLink(EndOf(x), EndOf(y), DecodeAll(x.e.fdcan, xy), DecodeAll(x.e.fdcan, yx), f);
    var n := Node(StartPacket(x.e, pick), x.log.(started := x.log.started + [f]));
    assert EndOf(n) == Start(EndOf(x), f);
  }

  lemma SeOf(e: Endpoint)
    requires Wf(e)
    ensures IsSE(e.se)
  {
  }

  lemma AckLinked(x: Node, y: Node, xy: seq<Flight>, yx: seq<Flight>)
    requires Wf(x.e) && Linked(x, y, xy, yx)
    ensures Linked(x, y, xy + [Flight(AckPacket(x.e), |x.log.started|, |x.log.accepted|)], yx)
  {
    hide Wf, Linked, AckPacket, PacketOk, Unpad, HasS, HasE, ChannelOf, Norm;
    SeOf(x.e);
    AckPacketOk(x.e);
    UnpadShort(x.e.fdcan, AckPacket(x.e));
    EmitLinked(x, y, xy, yx, Flight(AckPacket(x.e), |x.log.started|, |x.log.accepted|), AckPacket(x.e));
  }

  // ---------------------------------------------------------------------
  // Streams
  // ---------------------------------------------------------------------

  lemma StreamFragment(server: bool, mtu: nat, session: word, i: nat, ch: Chan, l: Ledger)
    requires ChanStream(server, mtu, session, i, ch, l) && ch.state == Active && mtu >= 2 && i < 15
    ensures ChanStream(server, mtu, session, i, FragmentChan(mtu, i, ch), l)
  {
    hide TxOk, RxOk, FragmentAll, IvAfter, Base, TxBase, RxBase;
    var base := TxBase(server, Base(session, l.serial[i]));
    TxFragment(mtu, i, base, ch.txq, ch.mtxq, ch.txIV, At(l.sent, i), l.started);
  }

  lemma StreamStart(server: bool, mtu: nat, session: word, i: nat, ch: Chan, l: Ledger, ch1: Chan)
    requires ChanStream(server, mtu, session, i, ch, l) && ch.state == Active && mtu >= 2 && i < 15
    requires ch.txq != [] && FragOf(mtu, i, ch.txq[0])
    requires ch1 == ch.(txq := ch.txq[1..], state := ch1.state) && (ch1.state == Active || ch1.state == Established)
    ensures ChanStream(server, mtu, session, i, ch1, l.(started := l.started + [ch.txq[0]]))
  {
    hide TxOk, RxOk, IvAfter, Base, TxBase, RxBase, FragBits, ChannelOf;
    var base := TxBase(server, Base(session, l.serial[i]));
    TxStarted(mtu, i, base, ch.txq, ch.mtxq, ch.txIV, At(l.sent, i), l.started);
  }

  lemma StreamOtherStart(server: bool, mtu: nat, session: word, i: nat, ch: Chan, l: Ledger, f: bytes)
    requires ChanStream(server, mtu, session, i, ch, l)
    requires |f| >= 1 && ChannelOf(f[0]) != i
    ensures ChanStream(server, mtu, session, i, ch, l.(started := l.started + [f]))
  {
    hide TxOk, RxOk, IvAfter, Base, TxBase, RxBase, ChannelOf, Of, Quiet;
    OfSnoc(l.started, f, i);
    if ch.state != PendingOpen {
      var base := TxBase(server, Base(session, l.serial[i]));
      TxOther(mtu, i, base, ch.txq, ch.mtxq, ch.txIV, At(l.sent, i), l.started, f);
    }
  }

  lemma StreamsAt(n: Node, i: nat)
    requires Streams(n) && i in n.e.chans
    ensures ChanStream(n.e.server, n.e.mtu, n.e.crcIV, i, n.e.chans[i], n.log)
  {
    hide ChanStream;
  }

  lemma ScanStreams(n: Node, pick: Pick)
    requires Wf(n.e) && ScanReady(n.e) && Streams(n)
    requires pick == Scan(n.e.mtu, n.e.remoteFlow, n.e.active, n.e.chans, 0)
    ensures Streams(Node(n.e.(chans := pick.chans), n.log))
  {
    hide Wf, ScanReady, Scan, ChanStream, FragmentChan, Of, ChanOk;
    ScanReadyFits(n.e);
    forall i | i in pick.chans
      ensures ChanStream(n.e.server, n.e.mtu, n.e.crcIV, i, pick.chans[i], n.log)
    {
      ScanChan(n.e, pick, i);
      StreamsAt(n, i);
      if pick.chans[i] != n.e.chans[i] {
        StreamFragment(n.e.server, n.e.mtu, n.e.crcIV, i, n.e.chans[i], n.log);
      }
    }
  }

  lemma StartStreamsPacket(n: Node, pick: Pick)
    requires n.e.mtu >= 2 && Streams(Node(n.e.(chans := pick.chans), n.log))
    requires pick.pos < |n.e.active| && n.e.active[pick.pos] in pick.chans && n.e.active[pick.pos] < 15
    requires var ch := pick.chans[n.e.active[pick.pos]];
      ch.txq != [] && ch.state == Active && FragOf(n.e.mtu, n.e.active[pick.pos], ch.txq[0])
    ensures var f := pick.chans[n.e.active[pick.pos]].txq[0];
      Streams(Node(StartPacket(n.e, pick), n.log.(started := n.log.started + [f])))
  {
    hide ChanStream, Of, FragOf, SetFlow, ToggleS, FragBits, ChannelOf;
    var id := n.e.active[pick.pos];
    var f := pick.chans[id].txq[0];
    FragOfSize(n.e.mtu, id, f);
    var e1 := StartPacket(n.e, pick);
    var l1 := n.log.(started := n.log.started + [f]);
    forall i | i in e1.chans
      ensures ChanStream(e1.server, e1.mtu, e1.crcIV, i, e1.chans[i], l1)
    {
      if i == id {
        StreamStart(e1.server, e1.mtu, e1.crcIV, i, pick.chans[i], n.log, e1.chans[i]);
      } else {
        StreamOtherStart(e1.server, e1.mtu, e1.crcIV, i, pick.chans[i], n.log, f);
      }
    }
    forall i | i !in e1.chans
      ensures Of(l1.started, i) == []
    {
      OfSnoc(n.log.started, f, i);
    }
  }

  /** Changing what the streams do not read. */
  lemma StreamsSame(n: Node, n1: Node)
    requires Streams(n)
    requires n1.e.server == n.e.server && n1.e.mtu == n.e.mtu && n1.e.crcIV == n.e.crcIV && n1.e.chans == n.e.chans
    requires n1.log == n.log
    ensures Streams(n1)
  {
    hide ChanStream, Of;
  }

  // ---------------------------------------------------------------------
  // Tables the control exchange and the readers look at
  // ---------------------------------------------------------------------

  /** The channels are the same but for their send queues. */
  predicate SendSide(a: Chans, b: Chans) {
    && a.Keys == b.Keys
    && forall i :: i in a ==> PhaseOf(a[i]) == PhaseOf(b[i]) && a[i].rxq == b[i].rxq
  }

  lemma SendSidePhases(a: Chans, b: Chans)
    requires SendSide(a, b)
    ensures Phases(a) == Phases(b)
  {
    hide PhaseOf;
  }

  lemma ScanSendSide(e: Endpoint, pick: Pick)
    requires Wf(e) && ScanReady(e)
    requires pick == Scan(e.mtu, e.remoteFlow, e.active, e.chans, 0)
    ensures SendSide(e.chans, pick.chans)
  {
    hide Wf, ScanReady, Scan, FragmentAll, IvAfter, ChanOk;
    ScanReadyFits(e);
    forall i | i in e.chans
      ensures PhaseOf(e.chans[i]) == PhaseOf(pick.chans[i]) && e.chans[i].rxq == pick.chans[i].rxq
    {
      ScanChan(e, pick, i);
    }
  }

  lemma ReadersSame(n: Node, n1: Node)
    requires Readers(n) && SendSide(n.e.chans, n1.e.chans)
    requires n1.log.read == n.log.read && n1.log.got == n.log.got && n1.log.lost == n.log.lost
    ensures Readers(n1)
  {
    hide Messages, PhaseOf;
  }

  // ---------------------------------------------------------------------
  // One transmit step
  // ---------------------------------------------------------------------

  /** What a step at x keeps of the rest. */
  ghost predicate Quietly(x: Node, x1: Node) {
    && SendSide(x.e.chans, x1.e.chans)
    && x1.log == x.log.(started := x1.log.started)
    && x1.e.server == x.e.server && x1.e.fdcan == x.e.fdcan && x1.e.mtu == x.e.mtu
    && x1.e.crcIV == x.e.crcIV && x1.e.ivCount == x.e.ivCount
    && x1.e.connected == x.e.connected && x1.e.freeIds == x.e.freeIds
  }

  lemma TransmitShape(e: Endpoint)
    requires Wf(e) && e.currentTx.Some?
    ensures 1 <= |e.currentTx.value| && (e.fdcan ==> |e.currentTx.value| <= 64)
    ensures Transmit(e).out.Some? && Transmit(e).e.currentTx.Some?
    ensures |Transmit(e).e.currentTx.value| >= 1
    ensures Norm(Transmit(e).e.currentTx.value) == Norm(e.currentTx.value)
    ensures Transmit(e).e == e.(currentTx := Transmit(e).e.currentTx)
  {
    hide Wf, Transmit, PacketOk, Unpad, HasS, HasE, ChannelOf, Norm;
    TransmitFacts(e);
  }

  lemma RetransmitStep(x: Node, y: Node, xy: seq<Flight>, yx: seq<Flight>, ackDue: bool)
    requires Wf(x.e) && ScanReady(x.e) && Linked(x, y, xy, yx) && Streams(x)
    requires x.e.connected && x.e.currentTx.Some?
    ensures var (n, out) := TxNode(x, true, ackDue);
      Linked(n, y, xy + out, yx) && Streams(n) && Quietly(x, n)
  {
    hide Wf, ScanReady, Linked, Streams, Transmit, Norm, Scan, AckPacket;
    TransmitShape(x.e);
    RetransmitLinked(x, y, xy, yx);
    StreamsSame(x, Node(Transmit(x.e).e, x.log));
  }

  lemma StartStep(x: Node, y: Node, xy: seq<Flight>, yx: seq<Flight>, rtxDue: bool, ackDue: bool)
    requires Wf(x.e) && ScanReady(x.e) && Linked(x, y, xy, yx) && Streams(x)
    requires x.e.connected && x.e.currentTx.None?
    requires forall i :: i in x.e.active ==> i in x.e.chans && i < 15
    requires x.e.mtu >= 2
    requires Scan(x.e.mtu, x.e.remoteFlow, x.e.active, x.e.chans, 0).pos < |x.e.active|
    ensures var (n, out) := TxNode(x, rtxDue, ackDue);
      Linked(n, y, xy + out, yx) && Streams(n) && Quietly(x, n)
  {
    hide Wf, ScanReady, Linked, Streams, Transmit, Norm, Scan, FragOf, PhaseOf, TxNode, StartPacket, SendSide;
    var pick := Scan(x.e.mtu, x.e.remoteFlow, x.e.active, x.e.chans, 0);
    WfScan(x.e, pick);
    PickedChan(x.e, pick);
    WfStartPacket(x.e, pick);
    var f := pick.chans[x.e.active[pick.pos]].txq[0];
    FragOfSize(x.e.mtu, x.e.active[pick.pos], f);
    NormFrag(f);
    var e1 := StartPacket(x.e, pick);
    var n1 := Node(e1, x.log.(started := x.log.started + [f]));
    StartLinkedPacket(x, y, xy, yx, pick);
    ScanStreams(x, pick);
    StartStreamsPacket(x, pick);
    StartFields(x.e, pick);
    TransmitShape(e1);
    RetransmitLinked(n1, y, xy, yx);
    StreamsSame(n1, Node(Transmit(e1).e, n1.log));
    ScanSendSide(x.e, pick);
    StartSendSide(x.e, pick);
    StartIs(x, rtxDue, ackDue, f);
  }

  lemma StartFields(e: Endpoint, pick: Pick)
    requires pick.pos < |e.active| && e.active[pick.pos] in pick.chans && e.active[pick.pos] < 16 && pick.chans[e.active[pick.pos]].txq != []
    ensures var z := StartPacket(e, pick);
      && z == e.(chans := z.chans, active := z.active, remoteFlow := z.remoteFlow, currentTx := z.currentTx, se := z.se)
      && z.currentTx == Some(pick.chans[e.active[pick.pos]].txq[0])
  {
    hide SetFlow, ToggleS;
  }

  /** What a start puts on the wire and in the ledger. */
  lemma StartIs(x: Node, rtxDue: bool, ackDue: bool, f: bytes)
    requires ScanReady(x.e) && x.e.connected && x.e.currentTx.None?
    requires forall i :: i in x.e.active ==> i in x.e.chans && i < 15
    requires x.e.mtu >= 2
    requires var pick := Scan(x.e.mtu, x.e.remoteFlow, x.e.active, x.e.chans, 0);
      && pick.pos < |x.e.active| && x.e.active[pick.pos] in pick.chans && x.e.active[pick.pos] < 16
      && pick.chans[x.e.active[pick.pos]].txq != []
      && var e1 := StartPacket(x.e, pick);
         && e1.currentTx.Some? && |e1.currentTx.value| >= 1 && (e1.fdcan ==> |e1.currentTx.value| <= 64)
         && Transmit(e1).out.Some? && Transmit(e1).e.currentTx.Some? && |Transmit(e1).e.currentTx.value| >= 1
         && Norm(Transmit(e1).e.currentTx.value) == f
    ensures var pick := Scan(x.e.mtu, x.e.remoteFlow, x.e.active, x.e.chans, 0);
      var r := Transmit(StartPacket(x.e, pick));
      var l := x.log.(started := x.log.started + [f]);
      TxNode(x, rtxDue, ackDue) == (Node(r.e, l), [Flight(r.out.value, |l.started|, |l.accepted|)])
  {
    hide ScanReady, Transmit, Norm, Scan, AckPacket, StartPacket;
  }

  lemma StartSendSide(e: Endpoint, pick: Pick)
    requires pick.pos < |e.active| && e.active[pick.pos] in pick.chans && e.active[pick.pos] < 16
    requires pick.chans[e.active[pick.pos]].txq != [] && pick.chans[e.active[pick.pos]].state == Active
    requires SendSide(e.chans, pick.chans)
    ensures SendSide(e.chans, StartPacket(e, pick).chans)
  {
    hide SetFlow, ToggleS;
  }

  lemma IdleStep(x: Node, y: Node, xy: seq<Flight>, yx: seq<Flight>, rtxDue: bool, ackDue: bool)
    requires Wf(x.e) && ScanReady(x.e) && Linked(x, y, xy, yx) && Streams(x)
    requires x.e.connected && x.e.currentTx.None?
    requires forall i :: i in x.e.active ==> i in x.e.chans && i < 15
    requires x.e.mtu >= 2
    requires Scan(x.e.mtu, x.e.remoteFlow, x.e.active, x.e.chans, 0).pos == |x.e.active|
    ensures var (n, out) := TxNode(x, rtxDue, ackDue);
      Linked(n, y, xy + out, yx) && Streams(n) && Quietly(x, n)
  {
    hide Wf, ScanReady, Linked, Streams, Transmit, Norm, Scan, AckPacket, PhaseOf;
    var pick := Scan(x.e.mtu, x.e.remoteFlow, x.e.active, x.e.chans, 0);
    var n1 := Node(x.e.(chans := pick.chans), x.log);
    WfScan(x.e, pick);
    ScanStreams(x, pick);
    ScanSendSide(x.e, pick);
    EndOfSame(x, n1);
    LinkedSame(x, y, xy, yx, n1);
    AckLinked(n1, y, xy, yx);
    assert xy + [] == xy;
  }

  lemma EndOfSame(x: Node, n: Node)
    requires n.e.se == x.e.se && n.e.currentTx == x.e.currentTx && n.log == x.log
    ensures EndOf(n) == EndOf(x)
  {
  }

  lemma TxStep(x: Node, y: Node, xy: seq<Flight>, yx: seq<Flight>, rtxDue: bool, ackDue: bool)
    requires Wf(x.e) && ScanReady(x.e) && Linked(x, y, xy, yx) && Streams(x)
    ensures var (n, out) := TxNode(x, rtxDue, ackDue);
      Wf(n.e) && Linked(n, y, xy + out, yx) && Streams(n) && Quietly(x, n)
  {
    hide Wf, ScanReady, Linked, Streams, Transmit, Norm, Scan, AckPacket, PhaseOf;
    WfTx(x.e, rtxDue, ackDue);
    ScanReadyFits(x.e);
    if x.e.connected && x.e.currentTx.Some? && rtxDue {
      RetransmitStep(x, y, xy, yx, ackDue);
    } else if x.e.connected && x.e.currentTx.None? {
      var pick := Scan(x.e.mtu, x.e.remoteFlow, x.e.active, x.e.chans, 0);
      if pick.pos < |x.e.active| {
        StartStep(x, y, xy, yx, rtxDue, ackDue);
      } else {
        IdleStep(x, y, xy, yx, rtxDue, ackDue);
      }
    } else {
      assert xy + [] == xy;
    }
  }
}
