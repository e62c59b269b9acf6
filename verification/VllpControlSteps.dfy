/** A completed control message keeps the session invariant: the server's open
    and the client's answer are always the ones the other end expects. */
module VllpControlSteps {
  import opened Common
  import opened Crc32
  import opened VllpFrames
  import opened VllpEndpoint
  import opened VllpSession
  import opened VllpWellFormed
  import opened VllpStreams
  import opened VllpInvariant
  import opened VllpTxSteps
  import opened VllpControl
  import opened VllpUserSteps
  import opened VllpRxSteps

  /** Receiving a taken packet that completes a control message. */
  lemma RxIsControl(y: Node, wire: bytes, pkt: bytes, msg: bytes, verdict: word)
    requires CMC in y.e.chans && Unpad(y.e.fdcan, wire) == Some(pkt) && |pkt| >= 1 && PacketOk(y.e.crcIV, pkt)
    requires Takes(y.e, pkt) && ChannelOf(pkt[0]) == CMC
    requires Receive(y.e.chans[CMC].rxbuf, y.e.chans[CMC].rxIV, pkt) == Complete(msg)
    ensures CMC in DataNode(y, CMC, pkt).e.chans
    ensures var (n, code) := RxNode(y, wire, verdict);
      var m := DataNode(y, CMC, pkt);
      var c := ControlRx(m.e, msg, verdict);
      && code == c.code
      && (code == Ok ==>
            && n.log == (if y.e.server && |msg| >= 1 then (ChannelInRange(msg[0]); LogOpen(m.log, ChannelOf(msg[0]), verdict))
                      else if y.e.server then m.log else m.log.(lost := m.log.lost + Loses(y.e, msg)))
            && n.e == c.e.(se := ToggleE(c.e.se), remoteFlow := n.e.remoteFlow,
                           currentTx := if PeerAccepted(pkt[0], y.e.se) then None else c.e.currentTx))
  {
    hide HandleRx, PacketOk, Unpad, PeerAccepted, ChannelOf, Receive, Norm, NextIv, ToggleE, ControlRx, CanAccept, LogOpen, Loses;
    HandleTaken(y.e, pkt, verdict);
  }

  // ---------------------------------------------------------------------
  // Server
  // ---------------------------------------------------------------------

  /** The server after making the channel, or declining to. */
  function AddedNode(m: Node, id: nat, name: bytes, verdict: word): Node {
    var k := NextIv(m.e.ivCount);
    var iv := ChannelIv(m.e.crcIV, k);
    if verdict == 0 then
      Node(m.e.(ivCount := k, chans := m.e.chans[id := MakeChan(Established, false, name, iv, Not(iv))]),
           m.log.(sent := m.log.sent[id := []], got := m.log.got[id := []], read := m.log.read[id := []],
                  serial := m.log.serial[id := |At(m.log.got, CMC)| + 1]))
    else Node(m.e.(ivCount := k), m.log)
  }

  lemma ServeIsAddThenSend(m: Node, id: nat, name: bytes, verdict: word)
    requires CMC in m.e.chans && id < 14 && id !in m.e.chans && |name| >= 1
    ensures CMC in AddedNode(m, id, name, verdict).e.chans
    ensures var r := HandleOpen(m.e, id, name, verdict);
      var n := SendNode(AddedNode(m, id, name, verdict), CMC, ResponseMessage(id, verdict));
      r.code == Ok && r.e == n.e && LogOpen(m.log, id, verdict) == n.log
  {
    hide ChannelIv, Not, NextIv, ResponseMessage, SendMessage, MakeChan, LogOpen, At;
    LogIsAddThenSend(m, id, name, verdict);
  }

  lemma LogIsAddThenSend(m: Node, id: nat, name: bytes, verdict: word)
    requires id < 14
    ensures var l := AddedNode(m, id, name, verdict).log;
      LogOpen(m.log, id, verdict) == l.(sent := l.sent[CMC := At(l.sent, CMC) + [ResponseMessage(id, verdict)]])
  {
    hide ChannelIv, Not, NextIv, ResponseMessage, MakeChan;
    var l := AddedNode(m, id, name, verdict).log;
    assert At(l.sent, CMC) == At(m.log.sent, CMC);
    assert LogOpen(m.log, id, verdict).sent == l.sent[CMC := At(l.sent, CMC) + [ResponseMessage(id, verdict)]];
  }

  lemma AddedStream(mtu: nat, session: word, id: nat, name: bytes, l: Ledger, k: nat)
    requires mtu >= 2 && id < 15
    requires id in l.serial && l.serial[id] == k && At(l.sent, id) == [] && At(l.got, id) == []
    requires Of(l.started, id) == [] && Of(l.accepted, id) == []
    ensures ChanStream(true, mtu, session, id, MakeChan(Established, false, name, Base(session, k), Not(Base(session, k))), l)
  {
    hide TxOk, RxOk, RxCounts, Of, Base, Not;
    var base := Base(session, k);
    TxStart(mtu, id, base, [], l.started);
    RxStart(id, Not(base), l.accepted);
    RxOkCounts(id, Not(base), [], Not(base), [], l.accepted);
  }

  lemma AddedStreams(m: Node, id: nat, name: bytes, verdict: word)
    requires Streams(m) && m.e.server && m.e.mtu >= 2 && id < 14 && id !in m.e.chans
    requires m.e.ivCount == IvAfter(0, |At(m.log.got, CMC)|)
    requires Of(m.log.accepted, id) == []
    ensures Streams(AddedNode(m, id, name, verdict))
  {
    hide Streams, ChanStream, Of, ChannelIv, Not, NextIv, SameOthers;
    var n := AddedNode(m, id, name, verdict);
    ControlKept(m);
    if verdict == 0 {
      var k := |At(m.log.got, CMC)| + 1;
      assert IvAfter(0, k) == NextIv(m.e.ivCount);
      NotHereNotStarted(m, id);
      AddedStream(m.e.mtu, m.e.crcIV, id, name, n.log, k);
      SameOthersPut(m.e.chans, id, n.e.chans[id]);
      StreamsPut(m, n, id);
    } else {
      StreamsSame(m, n);
    }
  }

  lemma AddedReaders(m: Node, id: nat, name: bytes, verdict: word)
    requires Readers(m) && id !in m.e.chans && id < 14
    ensures Readers(AddedNode(m, id, name, verdict))
  {
    hide ChannelIv, Not, NextIv, Readers, SameOthers;
    var n := AddedNode(m, id, name, verdict);
    if verdict == 0 {
      CreateReadersLike(m, n, id);
    } else {
      ReadersSameNode(m, n);
    }
  }

  lemma CreateReadersLike(m: Node, n: Node, id: nat)
    requires Readers(m) && id !in m.e.chans && id in n.e.chans
    requires n.e.chans == m.e.chans[id := n.e.chans[id]] && n.e.chans[id].rxq == []
    requires n.log.read == m.log.read[id := []] && n.log.got == m.log.got[id := []] && n.log.lost == m.log.lost
    ensures Readers(n)
  {
  }

  /** The client has started nothing on a channel it has only asked for. */
  lemma AskedNotStarted(c: Node, id: nat)
    requires Streams(c) && id in c.e.chans && c.e.chans[id].state == OpenSent
    ensures Of(c.log.started, id) == []
  {
    hide TxOk, RxSide, Of, Base, TxBase, RxBase, Streams;
    StreamsAt(c, id);
    var ch := c.e.chans[id];
    TxUncut(c.e.mtu, id, TxBase(c.e.server, Base(c.e.crcIV, c.log.serial[id])), ch.txq, ch.mtxq, ch.txIV, At(c.log.sent, id), c.log.started);
  }

  lemma PhaseIsState(chans: Chans, id: nat)
    requires id in Phases(chans)
    ensures id in chans && (Phases(chans)[id] == Asked <==> chans[id].state == OpenSent)
  {
  }

  /** The next open, seen from the server. */
  lemma NextOpen(y: System, msg: bytes)
    requires ControlOf(y) && At(y.s.log.got, CMC) + [msg] <= At(y.c.log.sent, CMC)
    ensures |msg| >= 1 && Opcode(msg[0]) == 0 && ChannelOf(msg[0]) < 14
    ensures ChannelOf(msg[0]) == OpenId(At(y.c.log.sent, CMC), |At(y.s.log.sent, CMC)|)
    ensures ChannelOf(msg[0]) !in y.s.e.chans
    ensures ChannelOf(msg[0]) in y.c.e.chans && y.c.e.chans[ChannelOf(msg[0])].state == OpenSent
  {
    hide ClientControl, ServerControl, AnswerOk, ChannelOf, Phases, Opcode;
    var opens := At(y.c.log.sent, CMC);
    var j := |At(y.s.log.sent, CMC)|;
    assert opens[j] == msg;
    assert OpenOk(opens[j]);
    ControlNext(opens, At(y.s.log.sent, CMC), |At(y.c.log.got, CMC)|, Phases(y.c.e.chans), y.c.log.serial, y.s.e.chans.Keys, y.s.log.serial);
    PhaseIsState(y.c.e.chans, OpenId(opens, j));
  }

  /** The server's tables and streams after answering. */
  lemma ServedKept(m: Node, id: nat, name: bytes, verdict: word)
    requires Wf(m.e) && Streams(m) && Readers(m) && m.e.server && m.e.freeIds == {}
    requires CMC in m.e.chans && id < 14 && id !in m.e.chans && |name| >= 1
    requires m.e.ivCount == IvAfter(0, |At(m.log.got, CMC)|)
    requires Of(m.log.accepted, id) == []
    ensures var r := HandleOpen(m.e, id, name, verdict);
      var n := Node(r.e, LogOpen(m.log, id, verdict));
      r.code == Ok && Wf(n.e) && Streams(n) && Readers(n)
  {
    hide Wf, Streams, Readers, HandleOpen, LogOpen, Of, ResponseMessage, ChannelIv, Not, NextIv;
    SizedOf(m.e);
    WfHandleOpen(m.e, id, name, verdict);
    ServeIsAddThenSend(m, id, name, verdict);
    AddedStreams(m, id, name, verdict);
    AddedReaders(m, id, name, verdict);
    SendNodeStreams(AddedNode(m, id, name, verdict), CMC, ResponseMessage(id, verdict));
    SendNodeReaders(AddedNode(m, id, name, verdict), CMC, ResponseMessage(id, verdict));
  }

  /** Fields answering does not touch, and those the control exchange reads. */
  lemma ServedShape(m: Node, id: nat, name: bytes, verdict: word)
    requires CMC in m.e.chans && id < 14 && id !in m.e.chans && |name| >= 1
    ensures var r := HandleOpen(m.e, id, name, verdict);
      var l := LogOpen(m.log, id, verdict);
      && r.e == m.e.(ivCount := NextIv(m.e.ivCount), chans := r.e.chans, active := r.e.active)
      && r.e.chans.Keys == (if verdict == 0 then m.e.chans.Keys + {id} else m.e.chans.Keys)
      && l.started == m.log.started && l.accepted == m.log.accepted && l.lost == m.log.lost
      && At(l.sent, CMC) == At(m.log.sent, CMC) + [ResponseMessage(id, verdict)]
      && At(l.got, CMC) == At(m.log.got, CMC)
      && l.serial == (if verdict == 0 then m.log.serial[id := |At(m.log.got, CMC)| + 1] else m.log.serial)
  {
    hide ChannelIv, Not, NextIv, ResponseMessage;
  }

  lemma ServedControl(y: System, m: Node, n: Node, msg: bytes, verdict: word)
    requires ControlOf(y) && At(y.s.log.got, CMC) + [msg] <= At(y.c.log.sent, CMC)
    requires |msg| >= 2 && ChannelOf(msg[0]) < 14 && ChannelOf(msg[0]) !in y.s.e.chans
    requires ChannelOf(msg[0]) == OpenId(At(y.c.log.sent, CMC), |At(y.s.log.sent, CMC)|)
    requires At(n.log.sent, CMC) == At(y.s.log.sent, CMC) + [ResponseMessage(ChannelOf(msg[0]), verdict)]
    requires At(n.log.got, CMC) == At(y.s.log.got, CMC) + [msg]
    requires n.e.chans.Keys == if verdict == 0 then y.s.e.chans.Keys + {ChannelOf(msg[0])} else y.s.e.chans.Keys
    requires n.log.serial == if verdict == 0 then y.s.log.serial[ChannelOf(msg[0]) := |At(y.s.log.got, CMC)| + 2] else y.s.log.serial
    requires n.e.ivCount == NextIv(y.s.e.ivCount)
    ensures ControlOf(y.(s := n))
  {
    hide Control, ChannelOf, Phases, NextIv, ResponseMessage, SaysAccepted, Accepted;
    var id := ChannelOf(msg[0]);
    AnswerBits(id, verdict);
    SaysAcceptedZero();
    ControlLengths(y);
    ControlServe(At(y.c.log.sent, CMC), At(y.s.log.sent, CMC), |At(y.c.log.got, CMC)|,
                 Phases(y.c.e.chans), y.c.log.serial, y.s.e.chans.Keys, y.s.log.serial, ResponseMessage(id, verdict), verdict == 0);
  }

  lemma ControlLengths(y: System)
    requires ControlOf(y)
    ensures |At(y.c.log.got, CMC)| <= |At(y.s.log.sent, CMC)| == |At(y.s.log.got, CMC)| <= |At(y.c.log.sent, CMC)|
  {
    hide ClientControl, ServerControl;
  }

  // ---------------------------------------------------------------------
  // Client
  // ---------------------------------------------------------------------

  /** The next answer, seen from the client. */
  lemma NextAnswer(y: System, msg: bytes)
    requires ControlOf(y) && At(y.c.log.got, CMC) + [msg] <= At(y.s.log.sent, CMC)
    ensures |msg| == 3 && Opcode(msg[0]) == 2 && ChannelOf(msg[0]) < 14
    ensures ChannelOf(msg[0]) == OpenId(At(y.c.log.sent, CMC), |At(y.c.log.got, CMC)|)
    ensures ChannelOf(msg[0]) in y.c.e.chans && y.c.e.chans[ChannelOf(msg[0])].state == OpenSent
    ensures At(y.s.log.sent, CMC)[|At(y.c.log.got, CMC)|] == msg
  {
    hide ClientControl, ServerControl, OpenOk, ChannelOf, Phases, Opcode, Accepted;
    var answers := At(y.s.log.sent, CMC);
    var j := |At(y.c.log.got, CMC)|;
    assert answers[j] == msg;
    ControlPending(At(y.c.log.sent, CMC), answers, j, Phases(y.c.e.chans), y.c.log.serial, y.s.e.chans.Keys, y.s.log.serial);
    PhaseIsState(y.c.e.chans, OpenId(At(y.c.log.sent, CMC), j));
  }

  /** An answered channel keeps its stream; one that has lost data, the counts. */
  lemma AnsweredStream(mtu: nat, session: word, id: nat, ch: Chan, ch1: Chan, l: Ledger, l1: Ledger)
    requires ChanStream(false, mtu, session, id, ch, l) && ch.state == OpenSent
    requires l1 == l.(lost := l1.lost) && (id in l.lost ==> id in l1.lost) && (id !in l1.lost ==> ch1.rxbuf == ch.rxbuf)
    requires ch1 == ch.(rxq := ch1.rxq, rxbuf := ch1.rxbuf, state := ch1.state) && (ch1.state == Active || ch1.state == Established)
    ensures ChanStream(false, mtu, session, id, ch1, l1)
  {
    hide TxOk, RxOk, RxCounts, Of, Base, TxBase, RxBase;
    if id in l1.lost && id !in l.lost {
      RxOkCounts(id, RxBase(false, Base(session, l.serial[id])), ch.rxbuf, ch.rxIV, At(l.got, id), l.accepted);
    }
  }

  /** What the answer does to the client's channel. */
  lemma AnsweredShape(m: Node, id: nat, data: bytes)
    requires id in m.e.chans && m.e.chans[id].state == OpenSent && |data| == 2
    ensures var r := HandleOpenResponse(m.e, id, data);
      && r.code == Ok
      && r.e == m.e.(chans := r.e.chans, active := r.e.active, freeIds := r.e.freeIds)
      && (data[0] == 0 && data[1] == 0 ==>
            var ch, ch1 := m.e.chans[id], r.e.chans[id];
            && r.e.chans == m.e.chans[id := ch1]
            && (ch1.state == Active || ch1.state == Established)
            && ch1 == ch.(rxq := ch1.rxq, rxbuf := ch1.rxbuf, state := ch1.state)
            && ch1.rxq == (if ch.reconnect then [] else ch.rxq) + [Ready]
            && ch1.rxbuf == if ch.reconnect then [] else ch.rxbuf)
      && (!(data[0] == 0 && data[1] == 0) ==> r.e.chans == m.e.chans - {id})
  {
    hide HandleOpenResponse, AnsweredChan;
    AnsweredIs(m.e, id, data);
    AnsweredChanFields(m.e.chans[id]);
  }

  lemma AnsweredChanFields(ch: Chan)
    ensures var ch1 := AnsweredChan(ch);
      && (ch1.state == Active || ch1.state == Established)
      && ch1 == ch.(rxq := ch1.rxq, rxbuf := ch1.rxbuf, state := ch1.state)
      && ch1.rxq == (if ch.reconnect then [] else ch.rxq) + [Ready]
      && ch1.rxbuf == if ch.reconnect then [] else ch.rxbuf
  {
  }

  lemma AnsweredIs(e: Endpoint, id: nat, data: bytes)
    requires id in e.chans && e.chans[id].state == OpenSent && |data| == 2
    ensures var r := HandleOpenResponse(e, id, data);
      && r.code == Ok && r.e == e.(chans := r.e.chans, active := r.e.active, freeIds := r.e.freeIds)
      && r.e.chans == if data[0] == 0 && data[1] == 0 then e.chans[id := AnsweredChan(e.chans[id])] else e.chans - {id}
  {
  }

  lemma AnsweredMessages(ch: Chan, ch1: Chan)
    requires ch1.rxq == (if ch.reconnect then [] else ch.rxq) + [Ready]
    ensures Messages(ch1.rxq) == if ch.reconnect then [] else Messages(ch.rxq)
  {
    MessagesSnoc(if ch.reconnect then [] else ch.rxq, Ready);
  }

  lemma SameOthersForget(chans: Chans, id: nat)
    ensures SameOthers(chans, chans - {id}, id)
  {
  }

  lemma SameEntryLost(l: Ledger, lost: set<nat>, i: nat)
    requires i !in lost
    ensures SameEntry(l, l.(lost := l.lost + lost), i)
  {
  }

  /** The client after an answer: a discarding acceptance marks its channel. */
  function AnsweredNode(m: Node, id: nat, data: bytes): Node
    requires id in m.e.chans && |data| == 2
  {
    Node(HandleOpenResponse(m.e, id, data).e,
         if data[0] == 0 && data[1] == 0 && Discards(m.e.chans[id]) then m.log.(lost := m.log.lost + {id}) else m.log)
  }

  lemma AnsweredKept(m: Node, id: nat, data: bytes)
    requires Wf(m.e) && Streams(m) && Readers(m) && !m.e.server
    requires id in m.e.chans && m.e.chans[id].state == OpenSent && |data| == 2 && id < 14
    ensures var n := AnsweredNode(m, id, data);
      HandleOpenResponse(m.e, id, data).code == Ok && Wf(n.e) && Streams(n) && Readers(n)
  {
    hide Wf, Streams, Readers, HandleOpenResponse, ChanStream, Of, SameOthers, SameEntry, Messages;
    var n := AnsweredNode(m, id, data);
    WfOpenResponse(m.e, id, data);
    AnsweredShape(m, id, data);
    StreamsAt(m, id);
    ControlKept(m);
    forall i | i != id
      ensures SameEntry(m.log, n.log, i)
    {
      SameEntryLost(m.log, {}, i);
      SameEntryLost(m.log, {id}, i);
      assert m.log.(lost := m.log.lost + {}) == m.log;
    }
    if data[0] == 0 && data[1] == 0 {
      AnsweredMessages(m.e.chans[id], n.e.chans[id]);
      AnsweredStream(m.e.mtu, m.e.crcIV, id, m.e.chans[id], n.e.chans[id], m.log, n.log);
      SameOthersPut(m.e.chans, id, n.e.chans[id]);
      if id !in m.log.lost {
        ReadersAt(m, id);
      }
    } else {
      AskedNotStarted(m, id);
      SameOthersForget(m.e.chans, id);
    }
    StreamsPut(m, n, id);
    ReadersPut(m, n, id);
  }

  /** An acceptance leaves a channel whole exactly when it discards nothing. */
  lemma AnswerKeepsIff(m: Node, id: nat)
    requires id in m.e.chans && m.e.chans[id].state == OpenSent && Whole(m, id)
    ensures Whole(AnsweredNode(m, id, [0, 0]), id) <==> !Discards(m.e.chans[id])
  {
    hide HandleOpenResponse, Messages, RxOk, Base, RxBase;
    var data: bytes := [0, 0];
    var n := AnsweredNode(m, id, data);
    AnsweredShape(m, id, data);
    AnsweredMessages(m.e.chans[id], n.e.chans[id]);
    if Discards(m.e.chans[id]) && Whole(n, id) {
      RxOkUnique(id, RxBase(m.e.server, Base(m.e.crcIV, m.log.serial[id])), m.e.chans[id], n.e.chans[id], At(m.log.got, id), m.log.accepted);
    }
  }

  lemma RxOkUnique(id: nat, base: word, a: Chan, b: Chan, got: seq<bytes>, accepted: seq<bytes>)
    requires RxOk(id, base, a.rxbuf, a.rxIV, got, accepted) && RxOk(id, base, b.rxbuf, b.rxIV, got, accepted)
    ensures a.rxbuf == b.rxbuf
  {
    hide AbsorbAll, Of;
  }

  lemma PhasesForget(chans: Chans, id: nat)
    ensures Phases(chans - {id}) == Phases(chans) - {id}
  {
  }

  lemma AnsweredControl(y: System, n: Node, msg: bytes)
    requires ControlOf(y) && At(y.c.log.got, CMC) + [msg] <= At(y.s.log.sent, CMC)
    requires |msg| == 3 && ChannelOf(msg[0]) < 14
    requires ChannelOf(msg[0]) == OpenId(At(y.c.log.sent, CMC), |At(y.c.log.got, CMC)|)
    requires At(y.s.log.sent, CMC)[|At(y.c.log.got, CMC)|] == msg
    requires At(n.log.sent, CMC) == At(y.c.log.sent, CMC) && At(n.log.got, CMC) == At(y.c.log.got, CMC) + [msg]
    requires n.log.serial == y.c.log.serial && n.e.ivCount == y.c.e.ivCount
    requires Phases(n.e.chans) == if Accepted(msg) then Phases(y.c.e.chans)[ChannelOf(msg[0]) := Open]
                                  else Phases(y.c.e.chans) - {ChannelOf(msg[0])}
    ensures ControlOf(y.(c := n))
  {
    hide Control, ChannelOf, Phases, Accepted;
    ControlAnswer(At(y.c.log.sent, CMC), At(y.s.log.sent, CMC), |At(y.c.log.got, CMC)|,
                  Phases(y.c.e.chans), y.c.log.serial, y.s.e.chans.Keys, y.s.log.serial);
  }
}
