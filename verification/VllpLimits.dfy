/** Where a VLLP session's guarantees stop: which refusals the client misreads,
    and what an acceptance that comes too late throws away. */
module VllpLimits {
  import opened Crc32
  import opened VllpFrames
  import opened VllpEndpoint
  import opened VllpSession
  import opened VllpWellFormed
  import opened VllpStreams
  import opened VllpInvariant
  import opened VllpTxSteps
  import opened VllpControl
  import opened VllpUserSteps
  import opened VllpRxSteps
  import opened VllpControlSteps
  import opened VllpRuns

  // ---------------------------------------------------------------------
  // A refusal that reads as an acceptance
  // ---------------------------------------------------------------------

  /** What answering the next open with any verdict does to the server. */
  lemma ServedBy(y: System, verdict: word)
    requires Inv(y) && ControlMessage(y.s.e, y.cs).Some? && !Nameless(y)
    ensures var id := OpenId(At(y.c.log.sent, CMC), |At(y.s.log.sent, CMC)|);
      var z := Step(y, ServerRx(verdict));
      && !z.broken && z.c == y.c && id < 14 && id in y.c.e.chans && y.c.e.chans[id].state == OpenSent
      && (id in z.s.e.chans <==> verdict == 0)
      && At(z.s.log.sent, CMC) == At(y.s.log.sent, CMC) + [ResponseMessage(id, verdict)]
  {
    hide Wf, Linked, Streams, Readers, ControlOf, Of, ChannelOf, Norm, Receive, DataNode, ControlRx, HandleOpen, LogOpen, RxNode, Joined,
      Unpad, Takes, PacketOk, PeerAccepted, ToggleE, ResponseMessage, NextIv, ScanReady, SameLink, OpenId;
    StepReady(y);
    InvParts(y);
    FlightPacket(y.c, y.s, y.cs, y.sc);
    SameSettings(y);
    var pkt := Unpad(y.s.e.fdcan, y.cs[0].wire).value;
    var msg := Receive(y.s.e.chans[CMC].rxbuf, y.s.e.chans[CMC].rxIV, pkt).msg;
    UpFragment(y, pkt);
    OpenArrives(y, pkt, msg, verdict);
    ServeNext(y, pkt, msg, verdict);
    RxIsControl(y.s, y.cs[0].wire, pkt, msg, verdict);
    CompletedNode(y.s, CMC, pkt, msg);
    ServedShape(DataNode(y.s, CMC, pkt), ChannelOf(msg[0]), msg[1..], verdict);
  }

  /** The channel the server's next answer is about. */
  function NextId(y: System): nat { OpenId(At(y.c.log.sent, CMC), |At(y.s.log.sent, CMC)|) }

  /** The server has answered with a verdict, and a client that has asked for the
      channel handles the answer: the client has a usable channel that the server
      does not have exactly when the verdict is a refusal whose low sixteen bits
      are zero; otherwise both have it or neither. */
  predicate Split(id: nat, verdict: word, z: System, e: Endpoint)
    requires CMC in e.chans
  {
    var answers := At(z.s.log.sent, CMC);
    && answers != [] && !z.broken
    && var r := ControlRx(e, answers[|answers| - 1], 0);
       && r.code == Ok
       && ((Usable(r.e, id) && id !in z.s.e.chans) <==> (SaysAccepted(verdict) && verdict != 0))
       && ((Usable(r.e, id) <==> id in z.s.e.chans) <==> (SaysAccepted(verdict) ==> verdict == 0))
  }

  lemma VerdictAgreesIff(y: System, verdict: word, e: Endpoint)
    requires Inv(y) && ControlMessage(y.s.e, y.cs).Some? && !Nameless(y)
    requires CMC in e.chans && !e.server && NextId(y) in e.chans && e.chans[NextId(y)].state == OpenSent
    ensures Split(NextId(y), verdict, Step(y, ServerRx(verdict)), e)
  {
    hide Inv, Step, ControlMessage, Nameless, OpenId, ResponseMessage, SaysAccepted, ControlRx, HandleOpenResponse, ChannelOf, Opcode;
    var id := NextId(y);
    ServedBy(y, verdict);
    AnswerBits(id, verdict);
    SaysAcceptedZero();
    var m := ResponseMessage(id, verdict);
    TakesAnswer(e, m, 0);
    AnsweredShape(Node(e, y.c.log), id, m[1..]);
  }

  // ---------------------------------------------------------------------
  // Data that overtakes an acceptance
  // ---------------------------------------------------------------------

  /** The channel an acceptance finds overtaken is no longer whole afterwards:
      what was discarded is missing for good from its reader or its buffer. */
  lemma OvertakenLoses(y: System, id: nat)
    requires Inv(y) && id in LosesNext(y) && id !in y.c.log.lost
    ensures var z := Step(y, ClientRx);
      && !z.broken && id in z.c.log.lost && id in z.c.e.chans
      && Whole(y.c, id) && !Whole(z.c, id)
  {
    hide Wf, Linked, Streams, Readers, ControlOf, Of, ChannelOf, Norm, Receive, DataNode, ControlRx, HandleOpenResponse, RxNode, Joined,
      Unpad, Takes, PacketOk, PeerAccepted, ToggleE, NextIv, ScanReady, SameLink, Discards, Whole;
    StepReady(y);
    InvParts(y);
    SameSettings(y);
    LinkedSym(y.c, y.s, y.cs, y.sc);
    FlightPacket(y.s, y.c, y.sc, y.cs);
    var pkt := Unpad(y.c.e.fdcan, y.sc[0].wire).value;
    var msg := Receive(y.c.e.chans[CMC].rxbuf, y.c.e.chans[CMC].rxIV, pkt).msg;
    DownFragment(y, pkt);
    AnswerArrives(y, pkt, msg);
    assert id == ChannelOf(msg[0]);
    RxIsControl(y.c, y.sc[0].wire, pkt, msg, 0);
    CompletedNode(y.c, CMC, pkt, msg);
    var m := DataNode(y.c, CMC, pkt);
    WholeUnlessLost(y.c, id);
    WholeUnlessLost(m, id);
    AnswerKeepsIff(m, id);
    assert msg[1..] == [0, 0];
    AnsweredShape(m, id, msg[1..]);
    WholeSame(AnsweredNode(m, id, [0, 0]), Step(y, ClientRx).c, id);
  }

  lemma WholeUnlessLost(n: Node, id: nat)
    requires Streams(n) && Readers(n) && id in n.e.chans && id != CMC && id !in n.log.lost && n.e.chans[id].state != PendingOpen
    ensures Whole(n, id)
  {
    hide Streams, Readers, TxOk, RxOk, Base, TxBase, RxBase, Messages;
    StreamsAt(n, id);
    ReadersAt(n, id);
  }

  lemma WholeSame(a: Node, b: Node, id: nat)
    requires b.log == a.log && b.e.chans == a.e.chans
    requires b.e.server == a.e.server && b.e.crcIV == a.e.crcIV
    ensures Whole(b, id) <==> Whole(a, id)
  {
    hide RxOk, Base, RxBase, Messages;
  }
}
