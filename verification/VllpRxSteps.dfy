/** Receiving packets keeps the session invariant, and does not fail on a channel
    that has lost nothing. */
module VllpRxSteps {
  import opened Common
  import opened Crc32
  import opened VllpFrames
  import opened VllpEndpoint
  import opened VllpLink
  import opened VllpSession
  import opened VllpWellFormed
  import opened VllpStreams
  import opened VllpInvariant
  import opened VllpTxSteps
  import opened VllpUserSteps

  // ---------------------------------------------------------------------
  // Link
  // ---------------------------------------------------------------------

  lemma DecodeTail(fdcan: bool, fs: seq<Flight>)
    requires fs != []
    ensures DecodeAll(fdcan, fs[1..]) == DecodeAll(fdcan, fs)[1..]
  {
    hide Decode;
  }

  lemma FlightsTail(fdcan: bool, session: word, fs: seq<Flight>)
    requires fs != [] && FlightsOk(fdcan, session, fs)
    ensures FlightsOk(fdcan, session, fs[1..])
    ensures FlightOk(fdcan, session, fs[0])
  {
    hide FlightOk;
  }

  /** A packet ignored is a packet lost. */
  lemma IgnoreLinked(x: Node, y: Node, xy: seq<Flight>, yx: seq<Flight>)
    requires Linked(x, y, xy, yx) && xy != []
    ensures Linked(x, y, xy[1..], yx)
  {
    hide Half, DecodeAll, FlightsOk, EndOf;
    var a, b := DecodeAll(x.e.fdcan, xy), DecodeAll(x.e.fdcan, yx);
    LoseKeepsHalf(EndOf(x), EndOf(y), a, b, 0);
    LoseKeepsHalf(EndOf(y), EndOf(x), b, a, 0);
    assert Without(a, 0) == a[1..];
    DecodeTail(x.e.fdcan, xy);
    FlightsTail(x.e.fdcan, x.e.crcIV, xy);
  }

  /** Handling the first packet as the link prescribes. */
  lemma DeliverLinked(x: Node, y: Node, xy: seq<Flight>, yx: seq<Flight>, y1: Node)
    requires Linked(x, y, xy, yx) && xy != []
    requires EndOf(y1) == Deliver(EndOf(y), Decode(x.e.fdcan, xy[0]))
    ensures Linked(x, y1, xy[1..], yx)
  {
    hide LinkInv, DecodeAll, FlightsOk, EndOf, Deliver;
    var a, b := DecodeAll(x.e.fdcan, xy), DecodeAll(x.e.fdcan, yx);
    DeliverKeepsLink(EndOf(x), EndOf(y), a, b);
    DecodeTail(x.e.fdcan, xy);
    FlightsTail(x.e.fdcan, x.e.crcIV, xy);
    assert a[0] == Decode(x.e.fdcan, xy[0]);
  }

  /** A taken packet carries exactly the peer's next fragment. */
  lemma TakenFragment(x: Node, y: Node, xy: seq<Flight>, yx: seq<Flight>, pkt: bytes)
    requires Linked(x, y, xy, yx) && xy != []
    requires Unpad(x.e.fdcan, xy[0].wire) == Some(pkt) && |pkt| >= 1 && Takes(y.e, pkt)
    ensures y.log.accepted + [Norm(pkt)] <= x.log.started
  {
    hide LinkInv, DecodeAll, FlightsOk, Norm, HasS, HasE, ChannelOf, Unpad;
    var a, b := DecodeAll(x.e.fdcan, xy), DecodeAll(x.e.fdcan, yx);
    DecodePacket(x.e.fdcan, xy[0], pkt);
    assert a[0] == Decode(x.e.fdcan, xy[0]);
    DeliverKeepsLink(EndOf(x), EndOf(y), a, b);
    LinkPrefixes(x, y, xy, yx);
  }

  // ---------------------------------------------------------------------
  // What handling a good packet amounts to
  // ---------------------------------------------------------------------

  lemma HandleIgnored(e: Endpoint, pkt: bytes, verdict: word)
    requires CMC in e.chans && PacketOk(e.crcIV, pkt) && |pkt| >= 1 && !e.connected
    ensures var r := HandleRx(e, pkt, verdict);
      r.e == e.(remoteFlow := r.e.remoteFlow, connected := r.e.connected)
  {
    hide Crc, ChannelReceive, FlowOf, IsAck, ChannelOf, SetFlow, HasF;
  }

  lemma HandleQuiet(e: Endpoint, pkt: bytes, verdict: word)
    requires CMC in e.chans && PacketOk(e.crcIV, pkt) && |pkt| >= 1 && e.connected && !Takes(e, pkt)
    ensures var r := HandleRx(e, pkt, verdict);
      && r.code == Ok
      && r.e == e.(remoteFlow := r.e.remoteFlow,
                   currentTx := if PeerAccepted(pkt[0], e.se) then None else e.currentTx)
  {
    hide Crc, ChannelReceive, FlowOf, IsAck, ChannelOf, SetFlow, HasF, HasS, HasE;
  }

  lemma HandleTaken(e: Endpoint, pkt: bytes, verdict: word)
    requires CMC in e.chans && PacketOk(e.crcIV, pkt) && |pkt| >= 1 && e.connected && Takes(e, pkt)
    ensures var r := HandleRx(e, pkt, verdict);
      var c := ChannelReceive(e, pkt, ChannelOf(pkt[0]), verdict);
      && r.code == c.code
      && (c.code == Ok ==>
            r.e == c.e.(se := ToggleE(c.e.se), remoteFlow := r.e.remoteFlow,
                        currentTx := if PeerAccepted(pkt[0], e.se) then None else c.e.currentTx))
  {
    hide Crc, ChannelReceive, FlowOf, IsAck, ChannelOf, SetFlow, HasF, HasS, HasE, ToggleE;
    AckChannel(pkt[0]);
  }

  // ---------------------------------------------------------------------
  // Streams
  // ---------------------------------------------------------------------

  lemma ReceiveNorm(buf: bytes, iv: word, pkt: bytes)
    requires |pkt| >= 1
    ensures Receive(buf, iv, Norm(pkt)) == Receive(buf, iv, pkt)
  {
    hide Crc, HasL, FragBits;
    FragBitsKeep(pkt[0]);
    assert Norm(pkt)[1..] == pkt[1..];
  }

  lemma NormChannel(pkt: bytes)
    requires |pkt| >= 1
    ensures ChannelOf(Norm(pkt)[0]) == ChannelOf(pkt[0])
  {
    hide ChannelOf, FragBits;
    FragBitsKeep(pkt[0]);
  }

  /** Both ends hold an open channel `id`, made by the same open. */
  ghost predicate Joined(x: Node, y: Node, id: nat) {
    && id in x.e.chans && id in y.e.chans && id < 15
    && x.e.chans[id].state != PendingOpen && y.e.chans[id].state != PendingOpen
    && id in x.log.serial && id in y.log.serial && x.log.serial[id] == y.log.serial[id]
    && x.e.mtu == y.e.mtu && x.e.crcIV == y.e.crcIV && x.e.server != y.e.server
  }

  lemma CrossBase(server: bool, base: word)
    ensures TxBase(server, base) == RxBase(!server, base)
  {
    hide Not;
  }

  /** A taken fragment of a channel that has lost nothing is absorbed, and what
      has then arrived is a prefix of what was sent. */
  lemma TakenExactly(x: Node, y: Node, id: nat, pkt: bytes)
    requires Streams(x) && Streams(y) && Joined(x, y, id)
    requires |pkt| >= 1 && ChannelOf(pkt[0]) == id
    requires y.log.accepted + [Norm(pkt)] <= x.log.started && id !in y.log.lost
    ensures var ch := y.e.chans[id];
      var base := RxBase(y.e.server, Base(y.e.crcIV, y.log.serial[id]));
      var all := y.log.accepted + [Norm(pkt)];
      var got := At(y.log.got, id);
      match Receive(ch.rxbuf, ch.rxIV, pkt)
      case Partial(buf) => RxOk(id, base, buf, ch.rxIV, got, all)
      case Complete(msg) => RxOk(id, base, [], NextIv(ch.rxIV), got + [msg], all) && got + [msg] <= At(x.log.sent, id)
      case BadChecksum => false
      case Underflow => false
  {
    hide TxOk, RxOk, Base, Norm, ChannelOf, Receive, NextIv, Streams, TxBase, RxBase;
    StreamsAt(x, id);
    StreamsAt(y, id);
    var base := Base(y.e.crcIV, y.log.serial[id]);
    CrossBase(x.e.server, base);
    var cx, cy := x.e.chans[id], y.e.chans[id];
    NormChannel(pkt);
    ReceiveNorm(cy.rxbuf, cy.rxIV, pkt);
    RxTake(y.e.mtu, id, TxBase(x.e.server, base), cy.rxbuf, cy.rxIV, At(y.log.got, id), y.log.accepted, Norm(pkt),
           cx.txq, cx.mtxq, cx.txIV, At(x.log.sent, id), x.log.started);
  }

  /** A fragment of any channel, if it is not refused, is counted. */
  lemma TakenReceive(x: Node, y: Node, id: nat, pkt: bytes)
    requires Streams(x) && Streams(y) && Joined(x, y, id)
    requires |pkt| >= 1 && ChannelOf(pkt[0]) == id
    requires y.log.accepted + [Norm(pkt)] <= x.log.started
    ensures var ch := y.e.chans[id];
      var lost := id in y.log.lost;
      var base := RxBase(y.e.server, Base(y.e.crcIV, y.log.serial[id]));
      var all := y.log.accepted + [Norm(pkt)];
      var got := At(y.log.got, id);
      match Receive(ch.rxbuf, ch.rxIV, pkt)
      case Partial(buf) => RxSide(lost, id, base, buf, ch.rxIV, got, all)
      case Complete(msg) =>
        RxSide(lost, id, base, [], NextIv(ch.rxIV), got + [msg], all) && (!lost ==> got + [msg] <= At(x.log.sent, id))
      case BadChecksum => lost
      case Underflow => lost
  {
    hide TxOk, RxOk, RxCounts, Base, Norm, ChannelOf, Receive, NextIv, Streams, TxBase, RxBase;
    if id in y.log.lost {
      StreamsAt(y, id);
      var ch := y.e.chans[id];
      NormChannel(pkt);
      ReceiveNorm(ch.rxbuf, ch.rxIV, pkt);
      CountsTake(id, RxBase(y.e.server, Base(y.e.crcIV, y.log.serial[id])), ch.rxbuf, ch.rxIV, At(y.log.got, id), y.log.accepted, Norm(pkt));
    } else {
      TakenExactly(x, y, id, pkt);
    }
  }

  /** Ledger and receive side of channel `id` move on by one fragment. */
  ghost predicate TookFragment(y: Node, n: Node, id: nat, f: bytes)
    requires id in y.e.chans && id in n.e.chans
  {
    && n.e.server == y.e.server && n.e.mtu == y.e.mtu && n.e.crcIV == y.e.crcIV
    && n.e.chans == y.e.chans[id := n.e.chans[id]]
    && n.e.chans[id] == y.e.chans[id].(rxbuf := n.e.chans[id].rxbuf, rxIV := n.e.chans[id].rxIV, rxq := n.e.chans[id].rxq)
    && n.log == y.log.(accepted := y.log.accepted + [f], got := n.log.got)
    && (forall i :: i != id ==> At(n.log.got, i) == At(y.log.got, i))
  }

  lemma StreamOtherAccept(server: bool, mtu: nat, session: word, i: nat, ch: Chan, l: Ledger, l1: Ledger, f: bytes)
    requires ChanStream(server, mtu, session, i, ch, l)
    requires |f| >= 1 && ChannelOf(f[0]) != i
    requires l1 == l.(accepted := l.accepted + [f], got := l1.got) && At(l1.got, i) == At(l.got, i)
    ensures ChanStream(server, mtu, session, i, ch, l1)
  {
    hide TxOk, RxOk, RxCounts, Of, Base, TxBase, RxBase, ChannelOf, Quiet;
    if ch.state != PendingOpen {
      var base := RxBase(server, Base(session, l.serial[i]));
      if i in l.lost {
        CountsOther(i, base, ch.rxIV, At(l.got, i), l.accepted, f);
      } else {
        RxOther(i, base, ch.rxbuf, ch.rxIV, At(l.got, i), l.accepted, f);
      }
    }
  }

  lemma StreamAccept(server: bool, mtu: nat, session: word, i: nat, ch: Chan, ch1: Chan, l: Ledger, l1: Ledger, f: bytes)
    requires ChanStream(server, mtu, session, i, ch, l) && ch.state != PendingOpen
    requires ch1 == ch.(rxbuf := ch1.rxbuf, rxIV := ch1.rxIV, rxq := ch1.rxq)
    requires l1 == l.(accepted := l.accepted + [f], got := l1.got)
    requires RxSide(i in l.lost, i, RxBase(server, Base(session, l.serial[i])), ch1.rxbuf, ch1.rxIV, At(l1.got, i), l1.accepted)
    ensures ChanStream(server, mtu, session, i, ch1, l1)
  {
    hide TxOk, RxSide, Of, Base, TxBase, RxBase;
  }

  lemma AcceptStreams(y: Node, n: Node, id: nat, f: bytes)
    requires Streams(y) && id in y.e.chans && id in n.e.chans && TookFragment(y, n, id, f)
    requires |f| >= 1 && ChannelOf(f[0]) == id
    requires y.e.chans[id].state != PendingOpen && id in y.log.serial
    requires RxSide(id in y.log.lost, id, RxBase(y.e.server, Base(y.e.crcIV, y.log.serial[id])), n.e.chans[id].rxbuf,
                    n.e.chans[id].rxIV, At(n.log.got, id), n.log.accepted)
    ensures Streams(n)
  {
    hide ChanStream, RxSide, Of, Base, RxBase, ChannelOf;
    forall i | i in n.e.chans
      ensures ChanStream(n.e.server, n.e.mtu, n.e.crcIV, i, n.e.chans[i], n.log)
    {
      StreamsAt(y, i);
      if i == id {
        StreamAccept(n.e.server, n.e.mtu, n.e.crcIV, i, y.e.chans[i], n.e.chans[i], y.log, n.log, f);
      } else {
        StreamOtherAccept(n.e.server, n.e.mtu, n.e.crcIV, i, y.e.chans[i], y.log, n.log, f);
      }
    }
  }

  lemma {:induction false} MessagesSnoc(q: seq<RxItem>, item: RxItem)
    ensures Messages(q + [item]) == Messages(q) + (if item.Message? then [item.data] else [])
    decreases q
  {
    if q == [] {
      assert q + [item] == [item];
      assert [item][1..] == [];
    } else {
      assert (q + [item])[1..] == q[1..] + [item];
      MessagesSnoc(q[1..], item);
    }
  }

  // ---------------------------------------------------------------------
  // Receiving at one end
  // ---------------------------------------------------------------------

  lemma LinkedSamePeer(x: Node, y: Node, xy: seq<Flight>, yx: seq<Flight>, y1: Node)
    requires Linked(x, y, xy, yx) && EndOf(y1) == EndOf(y)
    ensures Linked(x, y1, xy, yx)
  {
    hide LinkInv, DecodeAll, FlightsOk, EndOf;
  }

  /** The bits and counts of the first packet, against what handling it does. */
  lemma DeliverIs(y: Node, fdcan: bool, f: Flight, pkt: bytes, n: Node)
    requires Unpad(fdcan, f.wire) == Some(pkt) && |pkt| >= 1 && pkt[0] != SYN
    requires IsSE(y.e.se) && y.e.connected
    requires n.log.started == y.log.started
    requires n.log.accepted == if Takes(y.e, pkt) then y.log.accepted + [Norm(pkt)] else y.log.accepted
    requires n.e.se == if Takes(y.e, pkt) then ToggleE(y.e.se) else y.e.se
    requires n.e.currentTx == if PeerAccepted(pkt[0], y.e.se) then None else y.e.currentTx
    ensures EndOf(n) == Deliver(EndOf(y), Decode(fdcan, f))
  {
    hide HasS, HasE, IsSE, ChannelOf, Norm, Unpad, ToggleE;
    ToggleBits(y.e.se);
    DecodePacket(fdcan, f, pkt);
  }

  /** What a receiving step keeps at y, apart from the link. */
  ghost predicate Kept(y: Node, n: Node) {
    && Wf(n.e) && Streams(n) && Readers(n)
    && n.e.server == y.e.server && n.e.fdcan == y.e.fdcan && n.e.mtu == y.e.mtu && n.e.crcIV == y.e.crcIV
    && (y.e.connected ==> n.e.connected)
  }

  /** The control exchange has not moved. */
  predicate SameControl(y: Node, n: Node) {
    && Phases(n.e.chans) == Phases(y.e.chans) && n.e.chans.Keys == y.e.chans.Keys
    && n.log.serial == y.log.serial && n.e.ivCount == y.e.ivCount && n.e.freeIds == y.e.freeIds
    && At(n.log.sent, CMC) == At(y.log.sent, CMC) && At(n.log.got, CMC) == At(y.log.got, CMC)
    && n.log.lost == y.log.lost
  }

  lemma RegistersKept(y: Node, n: Node, m: Node, keep: bool)
    requires Wf(m.e) && Streams(m) && Readers(m) && IsSE(n.e.se)
    requires n.log == m.log
    requires n.e == m.e.(se := n.e.se, remoteFlow := n.e.remoteFlow, connected := n.e.connected,
                         currentTx := if keep then m.e.currentTx else None)
    ensures Wf(n.e) && Streams(n) && Readers(n)
  {
    hide Wf, Streams, Readers, IsSE;
    WfRegisters(m.e, n.e.se, n.e.remoteFlow, n.e.connected, keep);
    StreamsSame(m, n);
    ReadersSameNode(m, n);
  }

  lemma IgnoreStep(x: Node, y: Node, xy: seq<Flight>, yx: seq<Flight>, pkt: bytes, verdict: word)
    requires Wf(y.e) && CMC in y.e.chans && Linked(x, y, xy, yx) && Streams(y) && Readers(y)
    requires xy != [] && Unpad(y.e.fdcan, xy[0].wire) == Some(pkt) && |pkt| >= 1 && PacketOk(y.e.crcIV, pkt)
    requires !y.e.connected
    ensures var n := RxNode(y, xy[0].wire, verdict).0;
      Kept(y, n) && SameControl(y, n) && Linked(x, n, xy[1..], yx)
  {
    hide Wf, Streams, Readers, Linked, HandleRx, PacketOk, Unpad, ChannelOf, HasS, HasE, IsSE;
    var n := RxNode(y, xy[0].wire, verdict).0;
    HandleIgnored(y.e, pkt, verdict);
    SeOf(y.e);
    RegistersKept(y, n, y, true);
    IgnoreLinked(x, y, xy, yx);
    EndOfSame(y, n);
    LinkedSamePeer(x, y, xy[1..], yx, n);
  }

  lemma QuietStep(x: Node, y: Node, xy: seq<Flight>, yx: seq<Flight>, pkt: bytes, verdict: word)
    requires Wf(y.e) && CMC in y.e.chans && Linked(x, y, xy, yx) && Streams(y) && Readers(y)
    requires x.e.fdcan == y.e.fdcan
    requires xy != [] && Unpad(y.e.fdcan, xy[0].wire) == Some(pkt) && |pkt| >= 1 && PacketOk(y.e.crcIV, pkt)
    requires y.e.connected && !Takes(y.e, pkt)
    ensures var (n, code) := RxNode(y, xy[0].wire, verdict);
      Kept(y, n) && SameControl(y, n) && Linked(x, n, xy[1..], yx) && code == Ok
  {
    hide Wf, Streams, Readers, Linked, HandleRx, PacketOk, Unpad, Takes, HasS, HasE, IsSE, PeerAccepted, EndOf, Decode, Deliver;
    var n := RxNode(y, xy[0].wire, verdict).0;
    HandleQuiet(y.e, pkt, verdict);
    SeOf(y.e);
    PacketNotSyn(y.e.crcIV, pkt);
    RegistersKept(y, n, y, !PeerAccepted(pkt[0], y.e.se));
    DeliverIs(y, y.e.fdcan, xy[0], pkt, n);
    DeliverLinked(x, y, xy, yx, n);
  }

  lemma PacketNotSyn(session: word, p: bytes)
    requires PacketOk(session, p)
    ensures |p| >= 1 && p[0] != SYN
  {
  }

  /** The channel and ledger after a taken packet that leaves the control
      exchange alone. */
  function DataNode(y: Node, id: nat, pkt: bytes): Node
    requires |pkt| >= 1 && id in y.e.chans
  {
    var ch := y.e.chans[id];
    match Receive(ch.rxbuf, ch.rxIV, pkt)
    case Complete(msg) =>
      var ch1 := ch.(rxbuf := [], rxIV := NextIv(ch.rxIV), rxq := if id == CMC then ch.rxq else ch.rxq + [Message(msg)]);
      Node(y.e.(chans := y.e.chans[id := ch1]),
           y.log.(accepted := y.log.accepted + [Norm(pkt)], got := y.log.got[id := At(y.log.got, id) + [msg]]))
    case Partial(buf) =>
      Node(y.e.(chans := y.e.chans[id := ch.(rxbuf := buf)]), y.log.(accepted := y.log.accepted + [Norm(pkt)]))
    case _ => y
  }

  lemma DataNodeTook(y: Node, id: nat, pkt: bytes)
    requires |pkt| >= 1 && id in y.e.chans
    requires var o := Receive(y.e.chans[id].rxbuf, y.e.chans[id].rxIV, pkt); o.Partial? || o.Complete?
    ensures id in DataNode(y, id, pkt).e.chans
    ensures TookFragment(y, DataNode(y, id, pkt), id, Norm(pkt))
  {
    hide Receive, Norm, NextIv;
  }

  lemma DataNodeStreams(x: Node, y: Node, id: nat, pkt: bytes)
    requires Streams(x) && Streams(y) && Joined(x, y, id)
    requires |pkt| >= 1 && ChannelOf(pkt[0]) == id
    requires y.log.accepted + [Norm(pkt)] <= x.log.started
    ensures var o := Receive(y.e.chans[id].rxbuf, y.e.chans[id].rxIV, pkt);
      && (id !in y.log.lost ==> (o.Partial? || o.Complete?) && (o.Complete? ==> At(y.log.got, id) + [o.msg] <= At(x.log.sent, id)))
      && (o.Partial? || o.Complete? ==> Streams(DataNode(y, id, pkt)))
  {
    hide Streams, Receive, RxSide, Base, RxBase, Norm, ChannelOf, NextIv;
    TakenReceive(x, y, id, pkt);
    NormChannel(pkt);
    var o := Receive(y.e.chans[id].rxbuf, y.e.chans[id].rxIV, pkt);
    if o.Partial? || o.Complete? {
      DataNodeTook(y, id, pkt);
      AcceptStreams(y, DataNode(y, id, pkt), id, Norm(pkt));
    }
  }

  lemma DataNodeWf(y: Node, id: nat, pkt: bytes)
    requires Wf(y.e) && |pkt| >= 1 && id in y.e.chans
    ensures Wf(DataNode(y, id, pkt).e)
  {
    hide Wf, Receive, Norm, NextIv;
    var ch := y.e.chans[id];
    match Receive(ch.rxbuf, ch.rxIV, pkt)
    case Complete(msg) =>
      WfReceiveSide(y.e, id, [], NextIv(ch.rxIV), if id == CMC then ch.rxq else ch.rxq + [Message(msg)]);
    case Partial(buf) =>
      WfReceiveSide(y.e, id, buf, ch.rxIV, ch.rxq);
    case _ =>
  }

  lemma DataNodeShape(y: Node, id: nat, pkt: bytes)
    requires |pkt| >= 1 && id in y.e.chans
    requires var o := Receive(y.e.chans[id].rxbuf, y.e.chans[id].rxIV, pkt); o.Partial? || o.Complete?
    ensures var n := DataNode(y, id, pkt);
      && n.e == y.e.(chans := n.e.chans)
      && n.log == y.log.(accepted := y.log.accepted + [Norm(pkt)], got := n.log.got)
      && (!(id == CMC && Receive(y.e.chans[id].rxbuf, y.e.chans[id].rxIV, pkt).Complete?) ==> At(n.log.got, CMC) == At(y.log.got, CMC))
  {
    hide Receive, Norm, NextIv;
  }

  lemma GotReaders(y: Node, n: Node, id: nat)
    requires Readers(y) && id in y.e.chans && id in n.e.chans
    requires n.e.chans == y.e.chans[id := n.e.chans[id]]
    requires n.log.read == y.log.read && n.log.lost == y.log.lost && forall i :: i != id ==> At(n.log.got, i) == At(y.log.got, i)
    requires id != CMC && id !in y.log.lost ==> At(n.log.read, id) + Messages(n.e.chans[id].rxq) == At(n.log.got, id)
    ensures Readers(n)
  {
    hide Messages, At;
  }

  lemma DataNodeReaders(y: Node, id: nat, pkt: bytes)
    requires Readers(y) && |pkt| >= 1 && id in y.e.chans
    requires var o := Receive(y.e.chans[id].rxbuf, y.e.chans[id].rxIV, pkt); o.Partial? || o.Complete?
    ensures Readers(DataNode(y, id, pkt))
  {
    hide Receive, Norm, NextIv, Messages, Readers;
    var n := DataNode(y, id, pkt);
    DataNodeTook(y, id, pkt);
    if id != CMC && id !in y.log.lost {
      var ch := y.e.chans[id];
      ReadersAt(y, id);
      match Receive(ch.rxbuf, ch.rxIV, pkt)
      case Complete(msg) =>
        MessagesSnoc(ch.rxq, Message(msg));
        assert At(y.log.read, id) + (Messages(ch.rxq) + [msg]) == (At(y.log.read, id) + Messages(ch.rxq)) + [msg];
      case Partial(buf) =>
    }
    GotReaders(y, n, id);
  }

  lemma PhasesPutSame(chans: Chans, id: nat, ch: Chan)
    requires id in chans && PhaseOf(ch) == PhaseOf(chans[id])
    ensures Phases(chans[id := ch]) == Phases(chans)
  {
    hide PhaseOf;
  }

  lemma DataNodePhases(y: Node, id: nat, pkt: bytes)
    requires |pkt| >= 1 && id in y.e.chans
    requires var o := Receive(y.e.chans[id].rxbuf, y.e.chans[id].rxIV, pkt); o.Partial? || o.Complete?
    ensures Phases(DataNode(y, id, pkt).e.chans) == Phases(y.e.chans)
    ensures DataNode(y, id, pkt).e.chans.Keys == y.e.chans.Keys
  {
    hide Receive, Norm, DataNode, Phases;
    DataNodeTook(y, id, pkt);
    PhasesPutSame(y.e.chans, id, DataNode(y, id, pkt).e.chans[id]);
  }

  /** Receiving a taken packet is the change to channel and ledger, then to the
      link's registers. */
  lemma RxIsData(y: Node, wire: bytes, pkt: bytes, verdict: word)
    requires CMC in y.e.chans && Unpad(y.e.fdcan, wire) == Some(pkt) && |pkt| >= 1 && PacketOk(y.e.crcIV, pkt)
    requires Takes(y.e, pkt) && ChannelOf(pkt[0]) in y.e.chans
    requires var ch := y.e.chans[ChannelOf(pkt[0])];
      var o := Receive(ch.rxbuf, ch.rxIV, pkt); o.Partial? || (o.Complete? && ChannelOf(pkt[0]) != CMC)
    ensures var (n, code) := RxNode(y, wire, verdict);
      var m := DataNode(y, ChannelOf(pkt[0]), pkt);
      && code == Ok && n.log == m.log
      && n.e == m.e.(se := ToggleE(y.e.se), remoteFlow := n.e.remoteFlow, connected := true,
                     currentTx := if PeerAccepted(pkt[0], y.e.se) then None else y.e.currentTx)
  {
    hide HandleRx, PacketOk, Unpad, PeerAccepted, ChannelOf, Receive, Norm, NextIv, ToggleE, ControlRx, CanAccept;
    HandleTaken(y.e, pkt, verdict);
  }

  lemma RxRefused(y: Node, wire: bytes, pkt: bytes, verdict: word)
    requires CMC in y.e.chans && Unpad(y.e.fdcan, wire) == Some(pkt) && |pkt| >= 1 && PacketOk(y.e.crcIV, pkt)
    requires Takes(y.e, pkt) && ChannelOf(pkt[0]) in y.e.chans
    requires var ch := y.e.chans[ChannelOf(pkt[0])];
      var o := Receive(ch.rxbuf, ch.rxIV, pkt); o.BadChecksum? || o.Underflow?
    ensures RxNode(y, wire, verdict).1 != Ok
  {
    hide HandleRx, PacketOk, Unpad, PeerAccepted, ChannelOf, Receive, Norm, NextIv, ToggleE, ControlRx, CanAccept, LogRx;
    HandleTaken(y.e, pkt, verdict);
  }

  /** A taken packet whose channel is not there. */
  lemma RxIsAbsent(y: Node, wire: bytes, pkt: bytes, verdict: word)
    requires CMC in y.e.chans && Unpad(y.e.fdcan, wire) == Some(pkt) && |pkt| >= 1 && PacketOk(y.e.crcIV, pkt)
    requires Takes(y.e, pkt) && ChannelOf(pkt[0]) !in y.e.chans
    ensures var (n, code) := RxNode(y, wire, verdict);
      && code == Ok && n.log == y.log.(accepted := y.log.accepted + [Norm(pkt)])
      && n.e == y.e.(se := ToggleE(y.e.se), remoteFlow := n.e.remoteFlow, connected := true,
                     currentTx := if PeerAccepted(pkt[0], y.e.se) then None else y.e.currentTx)
  {
    hide HandleRx, PacketOk, Unpad, PeerAccepted, ChannelOf, Receive, Norm, NextIv, ToggleE, ControlRx, CanAccept;
    HandleTaken(y.e, pkt, verdict);
  }

  lemma AbsentStreams(y: Node, f: bytes)
    requires Streams(y) && |f| >= 1 && ChannelOf(f[0]) !in y.e.chans
    ensures Streams(Node(y.e, y.log.(accepted := y.log.accepted + [f])))
  {
    hide ChanStream, Of, ChannelOf;
    var n := Node(y.e, y.log.(accepted := y.log.accepted + [f]));
    forall i | i in n.e.chans
      ensures ChanStream(n.e.server, n.e.mtu, n.e.crcIV, i, n.e.chans[i], n.log)
    {
      StreamsAt(y, i);
      StreamOtherAccept(n.e.server, n.e.mtu, n.e.crcIV, i, y.e.chans[i], y.log, n.log, f);
    }
  }

  lemma AbsentReaders(y: Node, n: Node)
    requires Readers(y) && n.e == y.e && n.log.read == y.log.read && n.log.got == y.log.got && n.log.lost == y.log.lost
    ensures Readers(n)
  {
    hide Messages;
  }

  /** The end after a taken packet: channel and ledger as in `m`, then the link's
      registers. */
  lemma TakenStep(x: Node, y: Node, xy: seq<Flight>, yx: seq<Flight>, pkt: bytes, m: Node, n: Node)
    requires Wf(y.e) && CMC in y.e.chans && Linked(x, y, xy, yx) && x.e.fdcan == y.e.fdcan
    requires xy != [] && Unpad(y.e.fdcan, xy[0].wire) == Some(pkt) && |pkt| >= 1 && PacketOk(y.e.crcIV, pkt) && Takes(y.e, pkt)
    requires Wf(m.e) && Streams(m) && Readers(m) && m.e == y.e.(chans := m.e.chans)
    requires m.log.started == y.log.started && m.log.accepted == y.log.accepted + [Norm(pkt)]
    requires n.log == m.log && n.e == m.e.(se := ToggleE(y.e.se), remoteFlow := n.e.remoteFlow, connected := true,
                                           currentTx := if PeerAccepted(pkt[0], y.e.se) then None else y.e.currentTx)
    ensures Kept(y, n) && Linked(x, n, xy[1..], yx)
  {
    hide Wf, Streams, Readers, Linked, RxNode, PacketOk, Unpad, HasS, HasE, IsSE, PeerAccepted, EndOf, Decode, Deliver, ChannelOf,
      Receive, Norm, ToggleE;
    SeOf(y.e);
    ToggleBits(y.e.se);
    PacketNotSyn(y.e.crcIV, pkt);
    RegistersKept(y, n, m, !PeerAccepted(pkt[0], y.e.se));
    DeliverIs(y, y.e.fdcan, xy[0], pkt, n);
    DeliverLinked(x, y, xy, yx, n);
  }

  /** A taken packet that does not complete a control message: only a channel
      that has lost data can refuse it. */
  lemma DataStep(x: Node, y: Node, xy: seq<Flight>, yx: seq<Flight>, pkt: bytes, verdict: word)
    requires Wf(y.e) && CMC in y.e.chans && Linked(x, y, xy, yx) && Streams(x) && Streams(y) && Readers(y)
    requires x.e.fdcan == y.e.fdcan
    requires xy != [] && Unpad(y.e.fdcan, xy[0].wire) == Some(pkt) && |pkt| >= 1 && PacketOk(y.e.crcIV, pkt)
    requires Takes(y.e, pkt) && Joined(x, y, ChannelOf(pkt[0]))
    requires ChannelOf(pkt[0]) == CMC ==> !Receive(y.e.chans[CMC].rxbuf, y.e.chans[CMC].rxIV, pkt).Complete?
    ensures var (n, code) := RxNode(y, xy[0].wire, verdict);
      var ch := y.e.chans[ChannelOf(pkt[0])];
      var o := Receive(ch.rxbuf, ch.rxIV, pkt);
      && (code == Ok ==> Kept(y, n) && SameControl(y, n) && Linked(x, n, xy[1..], yx))
      && (code == Ok <==> o.Partial? || o.Complete?)
      && (ChannelOf(pkt[0]) !in y.log.lost ==> code == Ok)
  {
    hide Wf, Streams, Readers, Linked, RxNode, PacketOk, Unpad, HasS, HasE, IsSE, PeerAccepted, Takes, Kept, ChannelOf,
      Receive, Norm, ToggleE, Phases, DataNode;
    var id := ChannelOf(pkt[0]);
    TakenFragment(x, y, xy, yx, pkt);
    DataNodeStreams(x, y, id, pkt);
    var o := Receive(y.e.chans[id].rxbuf, y.e.chans[id].rxIV, pkt);
    if o.Partial? || o.Complete? {
      DataNodeWf(y, id, pkt);
      DataNodeReaders(y, id, pkt);
      DataNodePhases(y, id, pkt);
      DataNodeShape(y, id, pkt);
      RxIsData(y, xy[0].wire, pkt, verdict);
      TakenStep(x, y, xy, yx, pkt, DataNode(y, id, pkt), RxNode(y, xy[0].wire, verdict).0);
    } else {
      RxRefused(y, xy[0].wire, pkt, verdict);
    }
  }

  /** A packet for a channel that is not there is accepted and dropped. */
  lemma AbsentStep(x: Node, y: Node, xy: seq<Flight>, yx: seq<Flight>, pkt: bytes, verdict: word)
    requires Wf(y.e) && CMC in y.e.chans && Linked(x, y, xy, yx) && Streams(y) && Readers(y)
    requires x.e.fdcan == y.e.fdcan
    requires xy != [] && Unpad(y.e.fdcan, xy[0].wire) == Some(pkt) && |pkt| >= 1 && PacketOk(y.e.crcIV, pkt)
    requires Takes(y.e, pkt) && ChannelOf(pkt[0]) !in y.e.chans
    ensures var (n, code) := RxNode(y, xy[0].wire, verdict);
      Kept(y, n) && SameControl(y, n) && Linked(x, n, xy[1..], yx) && code == Ok
  {
    hide Wf, Streams, Readers, Linked, RxNode, PacketOk, Unpad, PeerAccepted, Takes, Kept, ChannelOf, Norm, ToggleE, Phases;
    NormChannel(pkt);
    NormSize(pkt);
    var m := Node(y.e, y.log.(accepted := y.log.accepted + [Norm(pkt)]));
    RxIsAbsent(y, xy[0].wire, pkt, verdict);
    AbsentStreams(y, Norm(pkt));
    AbsentReaders(y, m);
    TakenStep(x, y, xy, yx, pkt, m, RxNode(y, xy[0].wire, verdict).0);
  }

  lemma NormSize(p: bytes)
    requires |p| >= 1
    ensures |Norm(p)| == |p|
  {
    hide FragBits;
  }
}
