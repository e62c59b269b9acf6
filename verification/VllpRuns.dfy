/** Every step of a VLLP session, sends, transmissions, receptions, losses and
    repetitions alike, keeps the session invariant. */
module VllpRuns {
  import opened Common
  import opened Crc32
  import opened VllpFrames
  import opened VllpEndpoint
  import opened VllpLink
  import opened VllpSession
  import opened VllpWellFormed
  import opened VllpStreams
  import opened VllpInvariant
  import opened VllpTxSteps
  import opened VllpUserSteps
  import opened VllpRxSteps
  import opened VllpControlSteps

  // ---------------------------------------------------------------------
  // Which channels the two ends share
  // ---------------------------------------------------------------------

  lemma FragmentOnChannel(accepted: seq<bytes>, f: bytes, started: seq<bytes>, id: nat)
    requires |f| >= 1 && ChannelOf(f[0]) == id && accepted + [f] <= started
    ensures Of(started, id) != []
  {
    hide ChannelOf;
    OfPrefix(accepted + [f], started, id);
    OfSnoc(accepted, f, id);
  }

  lemma ServerPhase(y: System, id: nat)
    requires ControlOf(y) && id in y.s.e.chans && id != CMC
    ensures id in y.c.e.chans && y.c.e.chans[id].state != PendingOpen
    ensures id in y.c.log.serial && id in y.s.log.serial && y.c.log.serial[id] == y.s.log.serial[id]
  {
    hide OpenOk, AnswerOk, Accepted, OpenId, ClientControl;
  }

  lemma ControlSerial(y: System)
    requires ControlOf(y)
    ensures CMC in y.c.log.serial && CMC in y.s.log.serial && y.c.log.serial[CMC] == y.s.log.serial[CMC] == 1
  {
    hide ClientControl, ServerControl;
  }

  lemma ChanFacts(e: Endpoint, id: nat)
    requires Wf(e) && id in e.chans
    ensures id < 15 && (e.chans[id].state == PendingOpen ==> !e.server && id != CMC)
    ensures Opening(e.chans[id]) ==> !e.server && id != CMC
    ensures CMC in e.chans
  {
    ChansAt(e.server, e.mtu, e.chans, id);
  }

  lemma HasControl(e: Endpoint)
    requires Wf(e)
    ensures CMC in e.chans
  {
  }

  /** A channel of the server is open at both ends, which number it alike; the
      client may still await the answer. */
  lemma JoinedDown(y: System, id: nat)
    requires Inv(y) && id in y.s.e.chans
    ensures Joined(y.s, y.c, id)
  {
    hide Wf, Linked, Streams, Readers, ControlOf, Of;
    ChanFacts(y.s.e, id);
    if id == CMC { ControlSerial(y); HasControl(y.c.e); } else { ServerPhase(y, id); }
    ChanFacts(y.c.e, id);
  }

  lemma JoinedSym(x: Node, y: Node, id: nat)
    requires Joined(x, y, id)
    ensures Joined(y, x, id)
  {
  }

  lemma StartedIsHere(s: Node, id: nat)
    requires Streams(s) && Of(s.log.started, id) != []
    ensures id in s.e.chans
  {
    hide Of, ChanStream;
  }

  lemma UpFragment(y: System, pkt: bytes)
    requires Inv(y) && y.cs != [] && Unpad(y.c.e.fdcan, y.cs[0].wire) == Some(pkt) && |pkt| >= 1 && Takes(y.s.e, pkt)
    ensures ChannelOf(pkt[0]) in y.s.e.chans ==> Joined(y.c, y.s, ChannelOf(pkt[0]))
    ensures y.s.log.accepted + [Norm(pkt)] <= y.c.log.started
  {
    hide Wf, Linked, Streams, Readers, ControlOf, Of, ChannelOf, Norm, Takes, Unpad, Joined;
    TakenFragment(y.c, y.s, y.cs, y.sc, pkt);
    if ChannelOf(pkt[0]) in y.s.e.chans {
      JoinedDown(y, ChannelOf(pkt[0]));
      JoinedSym(y.s, y.c, ChannelOf(pkt[0]));
    }
  }

  lemma DownFragment(y: System, pkt: bytes)
    requires Inv(y) && y.sc != [] && Unpad(y.c.e.fdcan, y.sc[0].wire) == Some(pkt) && |pkt| >= 1 && Takes(y.c.e, pkt)
    ensures Joined(y.s, y.c, ChannelOf(pkt[0]))
    ensures y.c.log.accepted + [Norm(pkt)] <= y.s.log.started
  {
    hide Wf, Linked, Streams, Readers, ControlOf, Of, ChannelOf, Norm, Takes, Unpad;
    LinkedSym(y.c, y.s, y.cs, y.sc);
    TakenFragment(y.s, y.c, y.sc, y.cs, pkt);
    NormChannel(pkt);
    FragmentOnChannel(y.c.log.accepted, Norm(pkt), y.s.log.started, ChannelOf(pkt[0]));
    StartedIsHere(y.s, ChannelOf(pkt[0]));
    JoinedDown(y, ChannelOf(pkt[0]));
  }

  // ---------------------------------------------------------------------
  // Control messages
  // ---------------------------------------------------------------------

  lemma ServesOpen(e: Endpoint, msg: bytes, verdict: word)
    requires CMC in e.chans && e.server && |msg| >= 1 && Opcode(msg[0]) == 0 && ChannelOf(msg[0]) < 14
    ensures ControlRx(e, msg, verdict) == HandleOpen(e, ChannelOf(msg[0]), msg[1..], verdict)
  {
    hide HandleOpen, HandleOpenResponse, Opcode, ChannelOf;
  }

  lemma TakesAnswer(e: Endpoint, msg: bytes, verdict: word)
    requires CMC in e.chans && !e.server && |msg| == 3 && Opcode(msg[0]) == 2 && ChannelOf(msg[0]) < 14
    ensures ControlRx(e, msg, verdict) == HandleOpenResponse(e, ChannelOf(msg[0]), msg[1..])
  {
    hide HandleOpen, HandleOpenResponse, Opcode, ChannelOf;
  }

  /** What a completed message leaves in the receiving node. */
  lemma CompletedNode(y: Node, id: nat, pkt: bytes, msg: bytes)
    requires |pkt| >= 1 && id in y.e.chans && Receive(y.e.chans[id].rxbuf, y.e.chans[id].rxIV, pkt) == Complete(msg)
    ensures var m := DataNode(y, id, pkt);
      && At(m.log.got, id) == At(y.log.got, id) + [msg]
      && m.log == y.log.(accepted := y.log.accepted + [Norm(pkt)], got := m.log.got)
      && m.e == y.e.(chans := m.e.chans)
      && m.e.chans.Keys == y.e.chans.Keys
      && (id == CMC ==> forall i :: i in y.e.chans && i != id ==> m.e.chans[i] == y.e.chans[i])
  {
    hide Receive, Norm, NextIv;
  }

  lemma CompletedState(y: Node, pkt: bytes, msg: bytes, id: nat)
    requires |pkt| >= 1 && CMC in y.e.chans && Receive(y.e.chans[CMC].rxbuf, y.e.chans[CMC].rxIV, pkt) == Complete(msg)
    requires id in y.e.chans && id in DataNode(y, CMC, pkt).e.chans
    ensures DataNode(y, CMC, pkt).e.chans[id].state == y.e.chans[id].state
  {
    hide Receive, Norm, NextIv;
  }

  /** Nothing has arrived on the channel the next open asks for. */
  lemma NothingArrived(c: Node, accepted: seq<bytes>, id: nat)
    requires Streams(c) && id in c.e.chans && c.e.chans[id].state == OpenSent && accepted <= c.log.started
    ensures Of(accepted, id) == []
  {
    hide Streams, Of;
    AskedNotStarted(c, id);
    OfPrefix(accepted, c.log.started, id);
  }

  /** The control message the server completes is the client's next open. */
  lemma OpenArrives(y: System, pkt: bytes, msg: bytes, verdict: word)
    requires Inv(y) && |pkt| >= 1 && ChannelOf(pkt[0]) == CMC && CMC in y.s.e.chans
    requires Receive(y.s.e.chans[CMC].rxbuf, y.s.e.chans[CMC].rxIV, pkt) == Complete(msg)
    requires Joined(y.c, y.s, CMC) && y.s.log.accepted + [Norm(pkt)] <= y.c.log.started
    ensures |msg| >= 1 && ChannelOf(msg[0]) < 14 && ChannelOf(msg[0]) !in y.s.e.chans
    ensures At(y.s.log.got, CMC) + [msg] <= At(y.c.log.sent, CMC)
    ensures ChannelOf(msg[0]) == OpenId(At(y.c.log.sent, CMC), |At(y.s.log.sent, CMC)|)
    ensures ChannelOf(msg[0]) in y.c.e.chans && y.c.e.chans[ChannelOf(msg[0])].state == OpenSent
    ensures CMC in DataNode(y.s, CMC, pkt).e.chans
    ensures ControlRx(DataNode(y.s, CMC, pkt).e, msg, verdict) ==
      HandleOpen(DataNode(y.s, CMC, pkt).e, ChannelOf(msg[0]), msg[1..], verdict)
  {
    hide Wf, Linked, Streams, Readers, ControlOf, Of, ChannelOf, Norm, Receive, DataNode, ControlRx, HandleOpen, Joined;
    ControlKept(y.s);
    DataNodeStreams(y.c, y.s, CMC, pkt);
    CompletedNode(y.s, CMC, pkt, msg);
    NextOpen(y, msg);
    ServesOpen(DataNode(y.s, CMC, pkt).e, msg, verdict);
  }

  /** The server's tables, before the link's registers move. */
  lemma ServeNext(y: System, pkt: bytes, msg: bytes, verdict: word)
    requires Inv(y) && |pkt| >= 1 && ChannelOf(pkt[0]) == CMC && CMC in y.s.e.chans
    requires Receive(y.s.e.chans[CMC].rxbuf, y.s.e.chans[CMC].rxIV, pkt) == Complete(msg)
    requires Joined(y.c, y.s, CMC) && y.s.log.accepted + [Norm(pkt)] <= y.c.log.started
    requires |msg| >= 2 && ChannelOf(msg[0]) < 14 && ChannelOf(msg[0]) !in y.s.e.chans && CMC in DataNode(y.s, CMC, pkt).e.chans
    requires ChannelOf(msg[0]) in y.c.e.chans && y.c.e.chans[ChannelOf(msg[0])].state == OpenSent
    ensures var m := DataNode(y.s, CMC, pkt);
      var r := HandleOpen(m.e, ChannelOf(msg[0]), msg[1..], verdict);
      var n := Node(r.e, LogOpen(m.log, ChannelOf(msg[0]), verdict));
      r.code == Ok && Wf(n.e) && Streams(n) && Readers(n)
  {
    hide Wf, Linked, Streams, Readers, ControlOf, Of, ChannelOf, Norm, Receive, DataNode, HandleOpen, LogOpen, Joined;
    ControlKept(y.s);
    DataNodeStreams(y.c, y.s, CMC, pkt);
    DataNodeWf(y.s, CMC, pkt);
    DataNodeReaders(y.s, CMC, pkt);
    CompletedNode(y.s, CMC, pkt, msg);
    IvCountOf(y);
    var m := DataNode(y.s, CMC, pkt);
    NothingArrived(y.c, m.log.accepted, ChannelOf(msg[0]));
    ServedKept(m, ChannelOf(msg[0]), msg[1..], verdict);
  }

  lemma ServerControlStep(y: System, pkt: bytes, msg: bytes, verdict: word)
    requires Inv(y) && y.cs != [] && Unpad(y.c.e.fdcan, y.cs[0].wire) == Some(pkt) && |pkt| >= 1 && PacketOk(y.s.e.crcIV, pkt)
    requires Takes(y.s.e, pkt) && ChannelOf(pkt[0]) == CMC && CMC in y.s.e.chans
    requires Receive(y.s.e.chans[CMC].rxbuf, y.s.e.chans[CMC].rxIV, pkt) == Complete(msg)
    requires |msg| >= 2
    ensures var (n, code) := RxNode(y.s, y.cs[0].wire, verdict);
      code == Ok && Inv(y.(s := n, cs := y.cs[1..]))
  {
    hide Wf, Linked, Streams, Readers, ControlOf, Of, ChannelOf, Norm, Receive, DataNode, ControlRx, HandleOpen, LogOpen, RxNode, Joined,
      Unpad, Takes, PacketOk, IsSE, HasS, HasE, PeerAccepted, EndOf, Deliver, Decode, ToggleE, ResponseMessage, NextIv, Losses;
    UpFragment(y, pkt);
    OpenArrives(y, pkt, msg, verdict);
    ServeNext(y, pkt, msg, verdict);
    RxIsControl(y.s, y.cs[0].wire, pkt, msg, verdict);
    var id := ChannelOf(msg[0]);
    var m := DataNode(y.s, CMC, pkt);
    CompletedNode(y.s, CMC, pkt, msg);
    ServedShape(m, id, msg[1..], verdict);
    var n := RxNode(y.s, y.cs[0].wire, verdict).0;
    var r := ControlRx(m.e, msg, verdict);
    SeOf(y.s.e);
    ToggleBits(y.s.e.se);
    PacketNotSyn(y.s.e.crcIV, pkt);
    RegistersKept(y.s, n, Node(r.e, n.log), !PeerAccepted(pkt[0], y.s.e.se));
    TakesConnected(y.s.e, pkt);
    DeliverIs(y.s, y.c.e.fdcan, y.cs[0], pkt, n);
    DeliverLinked(y.c, y.s, y.cs, y.sc, n);
    ServedControl(y, m, n, msg, verdict);
    LossesServe(y, n);
    ControlIgnoresFlight(y.(s := n), y.(s := n, cs := y.cs[1..]));
  }

  lemma LossesServe(y: System, n: Node)
    requires Losses(y) && n.log.lost == y.s.log.lost && y.s.e.chans.Keys <= n.e.chans.Keys && y.cs != []
    ensures Losses(y.(s := n, cs := y.cs[1..]))
  {
  }

  /** An open without a name is malformed, and ends the session. */
  lemma NamelessStep(y: System, pkt: bytes, msg: bytes, verdict: word)
    requires Inv(y) && y.cs != [] && Unpad(y.c.e.fdcan, y.cs[0].wire) == Some(pkt) && |pkt| >= 1 && PacketOk(y.s.e.crcIV, pkt)
    requires Takes(y.s.e, pkt) && ChannelOf(pkt[0]) == CMC && CMC in y.s.e.chans
    requires Receive(y.s.e.chans[CMC].rxbuf, y.s.e.chans[CMC].rxIV, pkt) == Complete(msg)
    requires |msg| < 2
    ensures RxNode(y.s, y.cs[0].wire, verdict).1 == Malformed
  {
    hide Wf, Linked, Streams, Readers, ControlOf, Of, ChannelOf, Norm, Receive, DataNode, ControlRx, LogOpen, RxNode, Joined,
      Unpad, Takes, PacketOk, PeerAccepted, ToggleE, NextIv;
    UpFragment(y, pkt);
    OpenArrives(y, pkt, msg, verdict);
    RxIsControl(y.s, y.cs[0].wire, pkt, msg, verdict);
  }

  lemma TakesConnected(e: Endpoint, pkt: bytes)
    requires |pkt| >= 1 && Takes(e, pkt)
    ensures e.connected
  {
  }

  lemma ControlIgnoresFlight(y: System, z: System)
    requires ControlOf(y) && z.c == y.c && z.s == y.s
    ensures ControlOf(z)
  {
    hide Control;
  }

  /** The control message the client completes is the server's next answer. */
  lemma AnswerArrives(y: System, pkt: bytes, msg: bytes)
    requires Inv(y) && |pkt| >= 1 && ChannelOf(pkt[0]) == CMC && CMC in y.c.e.chans
    requires Receive(y.c.e.chans[CMC].rxbuf, y.c.e.chans[CMC].rxIV, pkt) == Complete(msg)
    requires Joined(y.s, y.c, CMC) && y.c.log.accepted + [Norm(pkt)] <= y.s.log.started
    ensures |msg| == 3 && ChannelOf(msg[0]) < 14 && ChannelOf(msg[0]) in y.c.e.chans
    ensures At(y.c.log.got, CMC) + [msg] <= At(y.s.log.sent, CMC)
    ensures ChannelOf(msg[0]) == OpenId(At(y.c.log.sent, CMC), |At(y.c.log.got, CMC)|)
    ensures At(y.s.log.sent, CMC)[|At(y.c.log.got, CMC)|] == msg
    ensures CMC in DataNode(y.c, CMC, pkt).e.chans
    ensures var m := DataNode(y.c, CMC, pkt);
      && ChannelOf(msg[0]) in m.e.chans && m.e.chans[ChannelOf(msg[0])].state == OpenSent
      && m.e.chans[ChannelOf(msg[0])] == y.c.e.chans[ChannelOf(msg[0])]
      && ControlRx(m.e, msg, 0) == HandleOpenResponse(m.e, ChannelOf(msg[0]), msg[1..])
      && Wf(m.e) && Streams(m) && Readers(m)
  {
    hide Wf, Linked, Streams, Readers, ControlOf, Of, ChannelOf, Norm, Receive, DataNode, ControlRx, HandleOpenResponse, Joined;
    ControlKept(y.c);
    DataNodeStreams(y.s, y.c, CMC, pkt);
    DataNodeWf(y.c, CMC, pkt);
    DataNodeReaders(y.c, CMC, pkt);
    CompletedNode(y.c, CMC, pkt, msg);
    NextAnswer(y, msg);
    TakesAnswer(DataNode(y.c, CMC, pkt).e, msg, 0);
  }

  /** The client's tables, before the link's registers move. */
  lemma AnswerNext(y: System, pkt: bytes, msg: bytes)
    requires Inv(y) && |pkt| >= 1 && ChannelOf(pkt[0]) == CMC && CMC in y.c.e.chans
    requires Receive(y.c.e.chans[CMC].rxbuf, y.c.e.chans[CMC].rxIV, pkt) == Complete(msg)
    requires Joined(y.s, y.c, CMC) && y.c.log.accepted + [Norm(pkt)] <= y.s.log.started
    ensures |msg| == 3 && ChannelOf(msg[0]) < 14 && ChannelOf(msg[0]) in y.c.e.chans
    ensures At(y.c.log.got, CMC) + [msg] <= At(y.s.log.sent, CMC)
    ensures ChannelOf(msg[0]) == OpenId(At(y.c.log.sent, CMC), |At(y.c.log.got, CMC)|)
    ensures At(y.s.log.sent, CMC)[|At(y.c.log.got, CMC)|] == msg
    ensures CMC in DataNode(y.c, CMC, pkt).e.chans
    ensures var m := DataNode(y.c, CMC, pkt);
      var r := ControlRx(m.e, msg, 0);
      var n := Node(r.e, m.log.(lost := m.log.lost + Loses(y.c.e, msg)));
      && ChannelOf(msg[0]) in m.e.chans && m.e.chans[ChannelOf(msg[0])].state == OpenSent
      && r == HandleOpenResponse(m.e, ChannelOf(msg[0]), msg[1..])
      && r.code == Ok && Wf(n.e) && Streams(n) && Readers(n)
  {
    hide Wf, Linked, Streams, Readers, ControlOf, Of, ChannelOf, Norm, Receive, DataNode, ControlRx, HandleOpenResponse, Joined,
      Discards;
    AnswerArrives(y, pkt, msg);
    var m := DataNode(y.c, CMC, pkt);
    CompletedNode(y.c, CMC, pkt, msg);
    AnsweredKept(m, ChannelOf(msg[0]), msg[1..]);
    assert m.log.(lost := m.log.lost + {}) == m.log;
  }

  /** What an acceptance discards came from the server. */
  lemma LossIsServed(y: System, id: nat)
    requires Inv(y) && id in y.c.e.chans && id != CMC && y.c.e.chans[id].state == OpenSent && Discards(y.c.e.chans[id])
    ensures id in y.s.e.chans
  {
    hide Wf, Linked, Streams, Readers, ControlOf, Of, Messages, TxOk, Base, TxBase, RxBase;
    if id !in y.s.e.chans {
      NothingAccepted(y, id);
      StreamsAt(y.c, id);
      ReadersAt(y.c, id);
    }
  }

  lemma LossesGrow(y: System, n: Node, msg: bytes)
    requires Inv(y) && |msg| == 3 && ChannelOf(msg[0]) < 14 && ChannelOf(msg[0]) in y.c.e.chans
    requires y.c.e.chans[ChannelOf(msg[0])].state == OpenSent && n.log.lost == y.c.log.lost + Loses(y.c.e, msg)
    ensures Losses(y.(c := n, sc := if y.sc == [] then [] else y.sc[1..]))
  {
    hide Wf, Linked, Streams, Readers, ControlOf, ChannelOf, Discards;
    if Discards(y.c.e.chans[ChannelOf(msg[0])]) {
      LossIsServed(y, ChannelOf(msg[0]));
    }
  }

  lemma AnsweredPhases(m: Node, id: nat, data: bytes)
    requires id in m.e.chans && m.e.chans[id].state == OpenSent && |data| == 2
    ensures Phases(HandleOpenResponse(m.e, id, data).e.chans) ==
      if data[0] == 0 && data[1] == 0 then Phases(m.e.chans)[id := Open] else Phases(m.e.chans) - {id}
  {
    hide HandleOpenResponse, Phases;
    AnsweredShape(m, id, data);
    var r := HandleOpenResponse(m.e, id, data);
    if data[0] == 0 && data[1] == 0 {
      PhasesPut(m.e.chans, id, r.e.chans[id]);
    } else {
      PhasesForget(m.e.chans, id);
    }
  }

  lemma ClientControlStep(y: System, pkt: bytes, msg: bytes)
    requires Inv(y) && y.sc != [] && Unpad(y.c.e.fdcan, y.sc[0].wire) == Some(pkt) && |pkt| >= 1 && PacketOk(y.c.e.crcIV, pkt)
    requires Takes(y.c.e, pkt) && ChannelOf(pkt[0]) == CMC && CMC in y.c.e.chans
    requires Receive(y.c.e.chans[CMC].rxbuf, y.c.e.chans[CMC].rxIV, pkt) == Complete(msg)
    ensures var (n, code) := RxNode(y.c, y.sc[0].wire, 0);
      code == Ok && n.e.connected && n.log.lost == y.c.log.lost + Loses(y.c.e, msg) && Inv(y.(c := n, sc := y.sc[1..]))
  {
    hide Wf, Linked, Streams, Readers, ControlOf, Of, ChannelOf, Norm, Receive, DataNode, ControlRx, HandleOpenResponse, RxNode, Joined,
      Unpad, Takes, PacketOk, IsSE, HasS, HasE, PeerAccepted, EndOf, Deliver, Decode, ToggleE, Phases, Loses, Losses;
    DownFragment(y, pkt);
    AnswerNext(y, pkt, msg);
    RxIsControl(y.c, y.sc[0].wire, pkt, msg, 0);
    var id := ChannelOf(msg[0]);
    var m := DataNode(y.c, CMC, pkt);
    CompletedNode(y.c, CMC, pkt, msg);
    DataNodePhases(y.c, CMC, pkt);
    AnsweredShape(m, id, msg[1..]);
    AnsweredPhases(m, id, msg[1..]);
    var n := RxNode(y.c, y.sc[0].wire, 0).0;
    var r := ControlRx(m.e, msg, 0);
    SeOf(y.c.e);
    ToggleBits(y.c.e.se);
    PacketNotSyn(y.c.e.crcIV, pkt);
    RegistersKept(y.c, n, Node(r.e, n.log), !PeerAccepted(pkt[0], y.c.e.se));
    TakesConnected(y.c.e, pkt);
    DeliverIs(y.c, y.c.e.fdcan, y.sc[0], pkt, n);
    LinkedSym(y.c, y.s, y.cs, y.sc);
    DeliverLinked(y.s, y.c, y.sc, y.cs, n);
    LinkedSym(y.s, n, y.sc[1..], y.cs);
    AnsweredControl(y, n, msg);
    CompletedState(y.c, pkt, msg, id);
    LossesGrow(y, n, msg);
    ControlIgnoresFlight(y.(c := n), y.(c := n, sc := y.sc[1..]));
  }

  // ---------------------------------------------------------------------
  // Receiving
  // ---------------------------------------------------------------------

  lemma ControlSame(y: System, z: System)
    requires ControlOf(y) && SameControl(y.c, z.c) && SameControl(y.s, z.s)
    ensures ControlOf(z) && (Losses(y) ==> Losses(z))
  {
    hide Control, Phases;
  }

  lemma SameControlSelf(n: Node)
    ensures SameControl(n, n)
  {
    hide Phases;
  }

  /** Assembling the invariant after a step of the client or of the server. */
  lemma KeptUp(y: System, n: Node)
    requires Inv(y) && Kept(y.s, n) && SameControl(y.s, n) && y.cs != [] && Linked(y.c, n, y.cs[1..], y.sc)
    ensures Inv(y.(s := n, cs := y.cs[1..]))
  {
    hide Wf, Linked, Streams, Readers, ControlOf, Phases;
    SameControlSelf(y.c);
    ControlSame(y, y.(s := n, cs := y.cs[1..]));
  }

  lemma KeptDown(y: System, n: Node)
    requires Inv(y) && Kept(y.c, n) && SameControl(y.c, n) && y.sc != [] && Linked(y.s, n, y.sc[1..], y.cs)
    ensures Inv(y.(c := n, sc := y.sc[1..]))
  {
    hide Wf, Linked, Streams, Readers, ControlOf, Phases;
    SameControlSelf(y.s);
    LinkedSym(y.s, n, y.sc[1..], y.cs);
    ControlSame(y, y.(c := n, sc := y.sc[1..]));
  }

  lemma FlightPacket(x: Node, y: Node, xy: seq<Flight>, yx: seq<Flight>)
    requires Linked(x, y, xy, yx) && xy != []
    ensures Unpad(x.e.fdcan, xy[0].wire).Some?
    ensures PacketOk(x.e.crcIV, Unpad(x.e.fdcan, xy[0].wire).value)
    ensures |Unpad(x.e.fdcan, xy[0].wire).value| >= 1
  {
    hide LinkInv, Unpad;
    FlightsTail(x.e.fdcan, x.e.crcIV, xy);
  }

  /** The message the first packet in flight would complete on the control
      channel. */
  function ControlMessage(e: Endpoint, fs: seq<Flight>): Option<bytes> {
    if fs == [] then None
    else
      match Unpad(e.fdcan, fs[0].wire)
      case None => None
      case Some(pkt) =>
        if |pkt| >= 1 && Takes(e, pkt) && ChannelOf(pkt[0]) == CMC then Completed(e, pkt) else None
  }

  lemma ControlMessageIff(e: Endpoint, fs: seq<Flight>, pkt: bytes)
    requires fs != [] && Unpad(e.fdcan, fs[0].wire) == Some(pkt) && |pkt| >= 1 && CMC in e.chans
    ensures var o := Receive(e.chans[CMC].rxbuf, e.chans[CMC].rxIV, pkt);
      ControlMessage(e, fs) == if Takes(e, pkt) && ChannelOf(pkt[0]) == CMC && o.Complete? then Some(o.msg) else None
  {
    hide Unpad, Takes, ChannelOf, Receive;
  }

  /** The channel, if any, that loses data when the client handles the next
      packet: marked for reopening, overtaken by data, and now accepted. */
  function LosesNext(y: System): set<nat> {
    match ControlMessage(y.c.e, y.sc)
    case None => {}
    case Some(msg) => Loses(y.c.e, msg)
  }

  predicate Overtaken(y: System) { LosesNext(y) != {} }

  /** The client is about to complete a message on a channel that has lost data,
      and its checksum or length is wrong. */
  predicate Garbled(y: System) {
    y.sc != [] &&
    match Unpad(y.c.e.fdcan, y.sc[0].wire)
    case None => false
    case Some(pkt) =>
      && |pkt| >= 1 && Takes(y.c.e, pkt) && ChannelOf(pkt[0]) in y.c.e.chans && ChannelOf(pkt[0]) in y.c.log.lost
      && var ch := y.c.e.chans[ChannelOf(pkt[0])];
         var o := Receive(ch.rxbuf, ch.rxIV, pkt);
         o.BadChecksum? || o.Underflow?
  }

  /** The server is about to complete an open that names no service. */
  predicate Nameless(y: System) {
    match ControlMessage(y.s.e, y.cs)
    case None => false
    case Some(msg) => |msg| < 2
  }

  lemma ServerRxStep(y: System, verdict: word)
    requires Inv(y) && y.cs != [] && CMC in y.s.e.chans
    ensures var (n, code) := RxNode(y.s, y.cs[0].wire, verdict);
      && (code == Ok <==> !Nameless(y))
      && (code == Ok ==> Inv(y.(s := n, cs := y.cs[1..])))
  {
    hide Inv, RxNode, Unpad, Takes, PacketOk, ChannelOf, Receive, Kept, SameControl, Joined, Linked, Wf, Streams, Readers, Norm, ControlOf,
      ControlMessage, Losses;
    InvParts(y);
    FlightPacket(y.c, y.s, y.cs, y.sc);
    var pkt := Unpad(y.c.e.fdcan, y.cs[0].wire).value;
    var n := RxNode(y.s, y.cs[0].wire, verdict).0;
    ControlMessageIff(y.s.e, y.cs, pkt);
    if !Takes(y.s.e, pkt) {
      QuietStep(y.c, y.s, y.cs, y.sc, pkt, verdict);
      KeptUp(y, n);
    } else {
      UpFragment(y, pkt);
      if ChannelOf(pkt[0]) == CMC && Receive(y.s.e.chans[CMC].rxbuf, y.s.e.chans[CMC].rxIV, pkt).Complete? {
        var msg := Receive(y.s.e.chans[CMC].rxbuf, y.s.e.chans[CMC].rxIV, pkt).msg;
        if |msg| < 2 {
          NamelessStep(y, pkt, msg, verdict);
        } else {
          ServerControlStep(y, pkt, msg, verdict);
        }
      } else if ChannelOf(pkt[0]) in y.s.e.chans {
        NoServerLoss(y);
        DataStep(y.c, y.s, y.cs, y.sc, pkt, verdict);
        KeptUp(y, n);
      } else {
        AbsentStep(y.c, y.s, y.cs, y.sc, pkt, verdict);
        KeptUp(y, n);
      }
    }
  }

  lemma NoServerLoss(y: System)
    requires Inv(y)
    ensures y.s.log.lost == {}
  {
    hide Wf, Linked, Streams, Readers, ControlOf;
  }

  lemma SameSettings(y: System)
    requires Inv(y)
    ensures y.c.e.fdcan == y.s.e.fdcan && y.c.e.crcIV == y.s.e.crcIV && !y.c.e.server && y.s.e.server
  {
    hide Wf, Linked, Streams, Readers, ControlOf;
  }

  lemma InvParts(y: System)
    requires Inv(y)
    ensures !y.broken && SameLink(y.c.e, y.s.e) && Wf(y.c.e) && Wf(y.s.e) && Linked(y.c, y.s, y.cs, y.sc)
    ensures Streams(y.c) && Streams(y.s) && Readers(y.c) && Readers(y.s) && ControlOf(y)
  {
    hide Wf, Linked, Streams, Readers, ControlOf, SameLink;
  }

  lemma ClientRxStep(y: System)
    requires Inv(y) && y.sc != [] && CMC in y.c.e.chans
    ensures var (n, code) := RxNode(y.c, y.sc[0].wire, 0);
      && (code != Ok && y.c.e.connected <==> Garbled(y))
      && (!Garbled(y) ==>
            && n.log.lost == y.c.log.lost + LosesNext(y) && (y.c.e.connected ==> n.e.connected)
            && Inv(y.(c := n, sc := y.sc[1..])))
  {
    hide Inv, RxNode, Unpad, Takes, PacketOk, ChannelOf, Receive, Kept, SameControl, Joined, Linked, Wf, Streams, Readers, Norm, ControlOf,
      Loses, ControlMessage;
    InvParts(y);
    LinkedSym(y.c, y.s, y.cs, y.sc);
    FlightPacket(y.s, y.c, y.sc, y.cs);
    var pkt := Unpad(y.c.e.fdcan, y.sc[0].wire).value;
    ControlMessageIff(y.c.e, y.sc, pkt);
    if !Takes(y.c.e, pkt) {
      ClientQuiet(y, pkt);
    } else {
      TakesConnected(y.c.e, pkt);
      DownFragment(y, pkt);
      if ChannelOf(pkt[0]) == CMC && Receive(y.c.e.chans[CMC].rxbuf, y.c.e.chans[CMC].rxIV, pkt).Complete? {
        ClientControlStep(y, pkt, Receive(y.c.e.chans[CMC].rxbuf, y.c.e.chans[CMC].rxIV, pkt).msg);
      } else {
        ClientData(y, pkt);
      }
    }
  }

  lemma ClientQuiet(y: System, pkt: bytes)
    requires Inv(y) && y.sc != [] && CMC in y.c.e.chans && Linked(y.s, y.c, y.sc, y.cs)
    requires Unpad(y.c.e.fdcan, y.sc[0].wire) == Some(pkt) && |pkt| >= 1 && PacketOk(y.c.e.crcIV, pkt) && !Takes(y.c.e, pkt)
    ensures var (n, code) := RxNode(y.c, y.sc[0].wire, 0);
      && (code != Ok ==> !y.c.e.connected) && (y.c.e.connected ==> n.e.connected)
      && n.log.lost == y.c.log.lost && Inv(y.(c := n, sc := y.sc[1..]))
  {
    hide Inv, RxNode, Unpad, Takes, PacketOk, Phases, Linked, Wf, Streams, Readers, ControlOf;
    InvParts(y);
    if y.c.e.connected {
      QuietStep(y.s, y.c, y.sc, y.cs, pkt, 0);
    } else {
      IgnoreStep(y.s, y.c, y.sc, y.cs, pkt, 0);
    }
    KeptDown(y, RxNode(y.c, y.sc[0].wire, 0).0);
  }

  lemma ClientData(y: System, pkt: bytes)
    requires Inv(y) && y.sc != [] && CMC in y.c.e.chans && Linked(y.s, y.c, y.sc, y.cs)
    requires Unpad(y.c.e.fdcan, y.sc[0].wire) == Some(pkt) && |pkt| >= 1 && PacketOk(y.c.e.crcIV, pkt) && Takes(y.c.e, pkt)
    requires Joined(y.s, y.c, ChannelOf(pkt[0]))
    requires ChannelOf(pkt[0]) == CMC ==> !Receive(y.c.e.chans[CMC].rxbuf, y.c.e.chans[CMC].rxIV, pkt).Complete?
    ensures var (n, code) := RxNode(y.c, y.sc[0].wire, 0);
      && (code != Ok <==> Garbled(y))
      && (code == Ok ==> n.e.connected && n.log.lost == y.c.log.lost && Inv(y.(c := n, sc := y.sc[1..])))
  {
    hide Inv, RxNode, Unpad, Takes, PacketOk, ChannelOf, Receive, Phases, Linked, Wf, Streams, Readers, ControlOf;
    InvParts(y);
    TakesConnected(y.c.e, pkt);
    DataStep(y.s, y.c, y.sc, y.cs, pkt, 0);
    var (n, code) := RxNode(y.c, y.sc[0].wire, 0);
    if code == Ok {
      KeptDown(y, n);
    }
  }

  // ---------------------------------------------------------------------
  // The other steps
  // ---------------------------------------------------------------------

  lemma LosePacket(x: Node, y: Node, xy: seq<Flight>, yx: seq<Flight>, i: nat)
    requires Linked(x, y, xy, yx) && i < |xy|
    ensures Linked(x, y, Without(xy, i), yx)
  {
    hide Half, Decode, FlightOk, EndOf;
    var a, b := DecodeAll(x.e.fdcan, xy), DecodeAll(x.e.fdcan, yx);
    LoseKeepsHalf(EndOf(x), EndOf(y), a, b, i);
    LoseKeepsHalf(EndOf(y), EndOf(x), b, a, i);
    assert DecodeAll(x.e.fdcan, Without(xy, i)) == Without(a, i);
  }

  lemma RepeatPacket(x: Node, y: Node, xy: seq<Flight>, yx: seq<Flight>, i: nat)
    requires Linked(x, y, xy, yx) && i < |xy|
    ensures Linked(x, y, Repeated(xy, i), yx)
  {
    hide Half, Decode, FlightOk, EndOf;
    var a, b := DecodeAll(x.e.fdcan, xy), DecodeAll(x.e.fdcan, yx);
    RepeatKeepsHalf(EndOf(x), EndOf(y), a, b, i);
    RepeatKeepsHalf(EndOf(y), EndOf(x), b, a, i);
    assert DecodeAll(x.e.fdcan, Repeated(xy, i)) == Repeated(a, i);
  }

  lemma QuietlySame(x: Node, n: Node)
    requires Quietly(x, n)
    ensures SameControl(x, n)
  {
    hide Phases, SendSide;
    SendSidePhases(x.e.chans, n.e.chans);
    SendSideKeys(x.e.chans, n.e.chans);
  }

  lemma SendSideKeys(a: Chans, b: Chans)
    requires SendSide(a, b)
    ensures a.Keys == b.Keys
  {
  }

  /** The parts of the invariant a step of one end can break. */
  lemma ClientMoved(y: System, n: Node, cs: seq<Flight>)
    requires Inv(y) && Wf(n.e) && Streams(n) && Readers(n) && Linked(n, y.s, cs, y.sc)
    requires SameControl(y.c, n) && SameLink(n.e, y.s.e)
    ensures Inv(y.(c := n, cs := cs))
  {
    hide Wf, Linked, Streams, Readers, ControlOf, SameControl, SameLink;
    SameControlSelf(y.s);
    ControlSame(y, y.(c := n, cs := cs));
  }

  lemma ServerMoved(y: System, n: Node, sc: seq<Flight>)
    requires Inv(y) && Wf(n.e) && Streams(n) && Readers(n) && Linked(n, y.c, sc, y.cs)
    requires SameControl(y.s, n) && SameLink(y.c.e, n.e)
    ensures Inv(y.(s := n, sc := sc))
  {
    hide Wf, Linked, Streams, Readers, ControlOf, SameControl;
    SameControlSelf(y.c);
    LinkedSym(n, y.c, sc, y.cs);
    ControlSame(y, y.(s := n, sc := sc));
  }

  lemma ClientTxStep(y: System, rtxDue: bool, ackDue: bool)
    requires Inv(y) && ScanReady(y.c.e)
    ensures var (n, out) := TxNode(y.c, rtxDue, ackDue); Inv(y.(c := n, cs := y.cs + out))
  {
    hide Inv, Wf, Linked, Streams, Readers, ControlOf, SameControl, TxNode, ScanReady, SendSide;
    InvParts(y);
    TxStep(y.c, y.s, y.cs, y.sc, rtxDue, ackDue);
    var (n, out) := TxNode(y.c, rtxDue, ackDue);
    QuietlySame(y.c, n);
    ReadersSame(y.c, n);
    ClientMoved(y, n, y.cs + out);
  }

  lemma ServerTxStep(y: System, rtxDue: bool, ackDue: bool)
    requires Inv(y) && ScanReady(y.s.e)
    ensures var (n, out) := TxNode(y.s, rtxDue, ackDue); Inv(y.(s := n, sc := y.sc + out))
  {
    hide Inv, Wf, Linked, Streams, Readers, ControlOf, SameControl, TxNode, ScanReady, SendSide;
    InvParts(y);
    LinkedSym(y.c, y.s, y.cs, y.sc);
    TxStep(y.s, y.c, y.sc, y.cs, rtxDue, ackDue);
    var (n, out) := TxNode(y.s, rtxDue, ackDue);
    QuietlySame(y.s, n);
    ReadersSame(y.s, n);
    ServerMoved(y, n, y.sc + out);
  }

  lemma SendSame(x: Node, id: nat, msg: bytes)
    requires id in x.e.chans && id != CMC
    ensures SameControl(x, SendNode(x, id, msg))
    ensures var e := SendNode(x, id, msg).e; e == x.e.(chans := e.chans, active := e.active)
  {
    hide Phases, SendNode;
    SendNodePhases(x, id, msg);
    SendNodeChan(x, id, msg);
  }

  lemma ClientSendStep(y: System, id: nat, msg: bytes)
    requires Inv(y) && id in y.c.e.chans && id != CMC
    ensures Inv(y.(c := SendNode(y.c, id, msg)))
  {
    hide Inv, Wf, Linked, Streams, Readers, ControlOf, SameControl, SendNode;
    InvParts(y);
    SendStep(y.c, y.s, y.cs, y.sc, id, msg);
    SendSame(y.c, id, msg);
    ClientMoved(y, SendNode(y.c, id, msg), y.cs);
  }

  lemma ServerSendStep(y: System, id: nat, msg: bytes)
    requires Inv(y) && id in y.s.e.chans && id != CMC
    ensures Inv(y.(s := SendNode(y.s, id, msg)))
  {
    hide Inv, Wf, Linked, Streams, Readers, ControlOf, SameControl, SendNode;
    InvParts(y);
    LinkedSym(y.c, y.s, y.cs, y.sc);
    SendStep(y.s, y.c, y.sc, y.cs, id, msg);
    SendSame(y.s, id, msg);
    ServerMoved(y, SendNode(y.s, id, msg), y.sc);
  }

  lemma ReadSame(x: Node, id: nat)
    requires id in x.e.chans && x.e.chans[id].rxq != []
    requires Phases(ReadNode(x, id).e.chans) == Phases(x.e.chans) && ReadNode(x, id).e.chans.Keys == x.e.chans.Keys
    ensures SameControl(x, ReadNode(x, id))
    ensures var e := ReadNode(x, id).e; e == x.e.(chans := e.chans)
  {
    hide Phases;
  }

  lemma ClientReadStep(y: System, id: nat)
    requires Inv(y) && id in y.c.e.chans && id != CMC && y.c.e.chans[id].rxq != []
    ensures Inv(y.(c := ReadNode(y.c, id)))
  {
    hide Inv, Wf, Linked, Streams, Readers, ControlOf, SameControl, ReadNode, Phases;
    InvParts(y);
    ReadStep(y.c, y.s, y.cs, y.sc, id);
    ReadSame(y.c, id);
    ClientMoved(y, ReadNode(y.c, id), y.cs);
  }

  lemma ServerReadStep(y: System, id: nat)
    requires Inv(y) && id in y.s.e.chans && id != CMC && y.s.e.chans[id].rxq != []
    ensures Inv(y.(s := ReadNode(y.s, id)))
  {
    hide Inv, Wf, Linked, Streams, Readers, ControlOf, SameControl, ReadNode, Phases;
    InvParts(y);
    LinkedSym(y.c, y.s, y.cs, y.sc);
    ReadStep(y.s, y.c, y.sc, y.cs, id);
    ReadSame(y.s, id);
    ServerMoved(y, ReadNode(y.s, id), y.sc);
  }

  lemma LossStep(y: System, i: nat)
    requires Inv(y)
    ensures i < |y.cs| ==> Inv(y.(cs := Without(y.cs, i)))
    ensures i < |y.sc| ==> Inv(y.(sc := Without(y.sc, i)))
  {
    hide Inv, Wf, Linked, Streams, Readers, ControlOf, SameControl;
    InvParts(y);
    SameControlSelf(y.c);
    SameControlSelf(y.s);
    if i < |y.cs| {
      LosePacket(y.c, y.s, y.cs, y.sc, i);
      ClientMoved(y, y.c, Without(y.cs, i));
    }
    if i < |y.sc| {
      LinkedSym(y.c, y.s, y.cs, y.sc);
      LosePacket(y.s, y.c, y.sc, y.cs, i);
      ServerMoved(y, y.s, Without(y.sc, i));
    }
  }

  lemma RepeatStep(y: System, i: nat)
    requires Inv(y)
    ensures i < |y.cs| ==> Inv(y.(cs := Repeated(y.cs, i)))
    ensures i < |y.sc| ==> Inv(y.(sc := Repeated(y.sc, i)))
  {
    hide Inv, Wf, Linked, Streams, Readers, ControlOf, SameControl;
    InvParts(y);
    SameControlSelf(y.c);
    SameControlSelf(y.s);
    if i < |y.cs| {
      RepeatPacket(y.c, y.s, y.cs, y.sc, i);
      ClientMoved(y, y.c, Repeated(y.cs, i));
    }
    if i < |y.sc| {
      LinkedSym(y.c, y.s, y.cs, y.sc);
      RepeatPacket(y.s, y.c, y.sc, y.cs, i);
      ServerMoved(y, y.s, Repeated(y.sc, i));
    }
  }

  // ---------------------------------------------------------------------
  // Runs
  // ---------------------------------------------------------------------

  /** The two ways a session ends: an open that names no service, and a message
      garbled by data lost earlier. */
  predicate Breaks(y: System, a: Action) {
    match a
    case ClientRx => Garbled(y)
    case ServerRx(_) => Nameless(y)
    case _ => false
  }

  lemma StepReady(y: System)
    requires Inv(y)
    ensures !y.broken && ScanReady(y.c.e) && ScanReady(y.s.e) && CMC in y.c.e.chans && CMC in y.s.e.chans
  {
    hide Inv, Wf, Linked, Streams, Readers, ControlOf, ScanReady;
    InvParts(y);
    WfReady(y.c.e);
    WfReady(y.s.e);
    HasControl(y.c.e);
    HasControl(y.s.e);
  }

  lemma ReceiveStep(y: System, a: Action)
    requires Inv(y) && (a.ClientRx? || a.ServerRx?)
    ensures Step(y, a).broken <==> Breaks(y, a)
    ensures !Breaks(y, a) ==> Inv(Step(y, a))
  {
    hide Inv, RxNode, LosesNext, Nameless, ScanReady, Garbled;
    StepReady(y);
    match a
    case ClientRx =>
      if y.sc != [] {
        ClientRxStep(y);
        var (n, code) := RxNode(y.c, y.sc[0].wire, 0);
        assert !Garbled(y) ==> Step(y, a) == y.(c := n, sc := y.sc[1..]);
      } else {
        NothingToHear(y);
      }
    case ServerRx(verdict) =>
      if y.cs != [] {
        ServerHasConnection(y);
        ServerRxStep(y, verdict);
        var (n, code) := RxNode(y.s, y.cs[0].wire, verdict);
        assert !Nameless(y) ==> Step(y, a) == y.(s := n, cs := y.cs[1..]);
      } else {
        NothingToHear(y);
      }
  }

  lemma NothingToHear(y: System)
    ensures y.sc == [] ==> !Garbled(y)
    ensures y.cs == [] ==> !Nameless(y)
  {
  }

  lemma ServerHasConnection(y: System)
    requires Inv(y)
    ensures y.s.e.connected
  {
    hide Wf, Linked, Streams, Readers, ControlOf, Losses;
  }

  /** Every step keeps the invariant, except those that end the session. */
  lemma StepKeeps(y: System, a: Action)
    requires Inv(y)
    ensures Step(y, a).broken <==> Breaks(y, a)
    ensures !Breaks(y, a) ==> Inv(Step(y, a))
  {
    hide Inv, RxNode, Garbled, Nameless, ScanReady, TxNode, SendNode, ReadNode, CreateNode, OpenNode, CanOpen, Without, Repeated;
    StepReady(y);
    match a
    case ClientRx => ReceiveStep(y, a);
    case ServerRx(verdict) => ReceiveStep(y, a);
    case ClientTx(r, k) => ClientTxStep(y, r, k);
    case ServerTx(r, k) => ServerTxStep(y, r, k);
    case ClientCreate(name, reconnect) => CreateStep(y, name, reconnect);
    case ClientOpen => if CanOpen(y.c.e) { OpenStep(y); }
    case ClientSend(id, msg) => if id in y.c.e.chans && id != CMC { ClientSendStep(y, id, msg); }
    case ServerSend(id, msg) => if id in y.s.e.chans && id != CMC { ServerSendStep(y, id, msg); }
    case ClientRead(id) => if id in y.c.e.chans && id != CMC && y.c.e.chans[id].rxq != [] { ClientReadStep(y, id); }
    case ServerRead(id) => if id in y.s.e.chans && id != CMC && y.s.e.chans[id].rxq != [] { ServerReadStep(y, id); }
    case LoseFromClient(i) => LossStep(y, i);
    case LoseFromServer(i) => LossStep(y, i);
    case RepeatFromClient(i) => RepeatStep(y, i);
    case RepeatFromServer(i) => RepeatStep(y, i);
  }

  lemma {:induction false} RunKeeps(y: System, actions: seq<Action>)
    requires Inv(y) && !Run(y, actions).broken
    ensures Inv(Run(y, actions))
    decreases actions
  {
    hide Inv, Step, Breaks;
    if actions != [] {
      var front, last := actions[..|actions| - 1], actions[|actions| - 1];
      BrokenStays(Run(y, front), last);
      RunKeeps(y, front);
      StepKeeps(Run(y, front), last);
    }
  }

  lemma BrokenStays(y: System, a: Action)
    ensures y.broken ==> Step(y, a) == y
  {
  }

  /** A channel loses data exactly when an acceptance finds it overtaken. */
  lemma LossIff(y: System, a: Action)
    requires Inv(y) && !Breaks(y, a)
    ensures Step(y, a).c.log.lost == y.c.log.lost + if a.ClientRx? then LosesNext(y) else {}
  {
    hide Inv, RxNode, ScanReady, Tx, SendMessage, ReadItem, CreateChannel, OpenPending, CanOpen, Without, Repeated, LosesNext, Garbled, Nameless;
    StepReady(y);
    if a.ClientRx? {
      if y.sc != [] { ClientRxStep(y); } else { NothingNext(y); }
    }
  }

  lemma NothingNext(y: System)
    requires y.sc == []
    ensures LosesNext(y) == {}
  {
  }
}
