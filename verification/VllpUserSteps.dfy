/** Creating, announcing, sending on and reading from channels keeps the
    session invariant. */
module VllpUserSteps {
  import opened Common
  import opened Crc32
  import opened VllpFrames
  import opened VllpEndpoint
  import opened VllpLink
  import opened VllpSession
  import opened VllpWellFormed
  import opened VllpStreams
  import opened VllpInvariant
  import opened VllpTxSteps
  import opened VllpControl

  // ---------------------------------------------------------------------
  // Changing one channel
  // ---------------------------------------------------------------------

  /** The ledger says the same about channel i. */
  predicate SameEntry(l: Ledger, l1: Ledger, i: nat) {
    && At(l1.sent, i) == At(l.sent, i) && At(l1.got, i) == At(l.got, i) && At(l1.read, i) == At(l.read, i)
    && (i in l.serial ==> i in l1.serial && l1.serial[i] == l.serial[i])
    && l1.started == l.started && l1.accepted == l.accepted && (i in l1.lost <==> i in l.lost)
  }

  lemma ChanStreamSame(server: bool, mtu: nat, session: word, i: nat, ch: Chan, l: Ledger, l1: Ledger)
    requires ChanStream(server, mtu, session, i, ch, l) && SameEntry(l, l1, i)
    ensures ChanStream(server, mtu, session, i, ch, l1)
  {
    hide TxOk, RxOk, RxCounts, Quiet, Of, Base, TxBase, RxBase;
  }

  /** The channel tables agree outside `id`. */
  predicate SameOthers(a: Chans, b: Chans, id: nat) {
    && (forall i :: i in a && i != id ==> i in b && b[i] == a[i])
    && (forall i :: i in b && i != id ==> i in a)
  }

  lemma SameOthersPut(chans: Chans, id: nat, ch: Chan)
    ensures SameOthers(chans, chans[id := ch], id)
  {
  }

  lemma SameEntrySent(l: Ledger, id: nat, v: seq<bytes>, i: nat)
    requires i != id
    ensures SameEntry(l, l.(sent := l.sent[id := v]), i)
  {
  }

  lemma ControlKept(n: Node)
    requires Streams(n)
    ensures CMC !in n.log.lost
  {
    hide ChanStream, Of;
  }

  lemma SameEntryRead(l: Ledger, id: nat, read: map<nat, seq<bytes>>, i: nat)
    requires i != id && At(read, i) == At(l.read, i)
    ensures SameEntry(l, l.(read := read), i)
  {
  }

  lemma StreamsPut(n: Node, n1: Node, id: nat)
    requires Streams(n)
    requires n1.e.server == n.e.server && n1.e.mtu == n.e.mtu && n1.e.crcIV == n.e.crcIV
    requires SameOthers(n.e.chans, n1.e.chans, id)
    requires forall i :: i in n.e.chans && i != id ==> SameEntry(n.log, n1.log, i)
    requires n1.log.started == n.log.started && CMC !in n1.log.lost
    requires id in n1.e.chans ==> ChanStream(n1.e.server, n1.e.mtu, n1.e.crcIV, id, n1.e.chans[id], n1.log)
    requires id !in n1.e.chans ==> Of(n1.log.started, id) == []
    ensures Streams(n1)
  {
    hide ChanStream, Of, SameEntry;
    forall i | i in n1.e.chans
      ensures ChanStream(n1.e.server, n1.e.mtu, n1.e.crcIV, i, n1.e.chans[i], n1.log)
    {
      if i != id {
        StreamsAt(n, i);
        ChanStreamSame(n.e.server, n.e.mtu, n.e.crcIV, i, n.e.chans[i], n.log, n1.log);
      }
    }
  }

  lemma ReadersPut(n: Node, n1: Node, id: nat)
    requires Readers(n)
    requires SameOthers(n.e.chans, n1.e.chans, id)
    requires forall i :: i in n.e.chans && i != id ==> SameEntry(n.log, n1.log, i)
    requires id in n1.e.chans && id != CMC && id !in n1.log.lost ==> At(n1.log.read, id) + Messages(n1.e.chans[id].rxq) == At(n1.log.got, id)
    ensures Readers(n1)
  {
    hide Messages;
  }

  // ---------------------------------------------------------------------
  // Sending
  // ---------------------------------------------------------------------

  lemma SendStream(server: bool, mtu: nat, session: word, id: nat, ch: Chan, l: Ledger, msg: bytes)
    requires ChanStream(server, mtu, session, id, ch, l)
    ensures ChanStream(server, mtu, session, id,
      ch.(mtxq := ch.mtxq + [msg], state := if ch.state == Established then Active else ch.state),
      l.(sent := l.sent[id := At(l.sent, id) + [msg]]))
  {
    hide TxOk, RxOk, RxCounts, Of, Base, TxBase, RxBase;
    if ch.state != PendingOpen {
      TxSend(mtu, id, TxBase(server, Base(session, l.serial[id])), ch.txq, ch.mtxq, ch.txIV, At(l.sent, id), l.started, msg);
    }
  }

  lemma SendNodeChan(n: Node, id: nat, msg: bytes)
    requires id in n.e.chans
    ensures var n1 := SendNode(n, id, msg);
      var ch := n.e.chans[id];
      && id in n1.e.chans
      && n1.e.chans[id] == ch.(mtxq := ch.mtxq + [msg], state := if ch.state == Established then Active else ch.state)
      && n1.e.chans == n.e.chans[id := n1.e.chans[id]]
      && n1.e == n.e.(chans := n1.e.chans, active := n1.e.active)
      && n1.log == n.log.(sent := n.log.sent[id := At(n.log.sent, id) + [msg]])
  {
    hide At, SendMessage, SentChan;
    SendMessageIs(n.e, id, msg);
    SentChanIs(n.e.chans[id], msg);
  }

  lemma SentChanIs(ch: Chan, msg: bytes)
    ensures SentChan(ch, msg) == ch.(mtxq := ch.mtxq + [msg], state := if ch.state == Established then Active else ch.state)
  {
  }

  lemma SendMessageIs(e: Endpoint, id: nat, msg: bytes)
    requires id in e.chans
    ensures var e1 := SendMessage(e, id, msg);
      e1.chans == e.chans[id := SentChan(e.chans[id], msg)] && e1 == e.(chans := e1.chans, active := e1.active)
  {
    hide SentChan;
  }

  lemma SendNodeStreams(n: Node, id: nat, msg: bytes)
    requires Streams(n) && id in n.e.chans
    ensures Streams(SendNode(n, id, msg))
  {
    hide Streams, ChanStream, Of, SendNode, SameOthers, SameEntry;
    var n1 := SendNode(n, id, msg);
    SendNodeChan(n, id, msg);
    ControlKept(n);
    StreamsAt(n, id);
    SendStream(n.e.server, n.e.mtu, n.e.crcIV, id, n.e.chans[id], n.log, msg);
    SameOthersPut(n.e.chans, id, n1.e.chans[id]);
    forall i | i in n.e.chans && i != id
      ensures SameEntry(n.log, n1.log, i)
    {
      SameEntrySent(n.log, id, At(n.log.sent, id) + [msg], i);
    }
    StreamsPut(n, n1, id);
  }

  lemma SendNodeReaders(n: Node, id: nat, msg: bytes)
    requires Readers(n) && id in n.e.chans
    ensures Readers(SendNode(n, id, msg))
  {
    hide Messages, SendNode;
    SendNodeChan(n, id, msg);
  }

  lemma SendNodePhases(n: Node, id: nat, msg: bytes)
    requires id in n.e.chans
    ensures Phases(SendNode(n, id, msg).e.chans) == Phases(n.e.chans)
    ensures SendNode(n, id, msg).e.chans.Keys == n.e.chans.Keys
  {
    hide SendNode, Phases;
    SendNodeChan(n, id, msg);
    PhasesPut(n.e.chans, id, SendNode(n, id, msg).e.chans[id]);
    PhasesAt(n.e.chans, id);
  }

  /** A user's message on a channel of x. */
  lemma SendStep(x: Node, y: Node, xy: seq<Flight>, yx: seq<Flight>, id: nat, msg: bytes)
    requires Wf(x.e) && Linked(x, y, xy, yx) && Streams(x) && Readers(x) && id in x.e.chans
    ensures var n := SendNode(x, id, msg);
      Wf(n.e) && Linked(n, y, xy, yx) && Streams(n) && Readers(n)
  {
    hide Wf, Linked, Streams, Readers;
    WfSend(x.e, id, msg);
    SendNodeStreams(x, id, msg);
    SendNodeReaders(x, id, msg);
    LinkedSame(x, y, xy, yx, SendNode(x, id, msg));
  }

  // ---------------------------------------------------------------------
  // Reading
  // ---------------------------------------------------------------------

  lemma ReadStream(server: bool, mtu: nat, session: word, id: nat, ch: Chan, l: Ledger, rxq: seq<RxItem>, read: map<nat, seq<bytes>>)
    requires ChanStream(server, mtu, session, id, ch, l) && ch.rxq != []
    ensures ChanStream(server, mtu, session, id, ch.(rxq := rxq), l.(read := read))
  {
    hide TxOk, RxOk, RxCounts, Of, Base, TxBase, RxBase;
  }

  lemma ReadStep(x: Node, y: Node, xy: seq<Flight>, yx: seq<Flight>, id: nat)
    requires Wf(x.e) && Linked(x, y, xy, yx) && Streams(x) && Readers(x)
    requires id in x.e.chans && id != CMC && x.e.chans[id].rxq != []
    ensures var n := ReadNode(x, id);
      && Wf(n.e) && Linked(n, y, xy, yx) && Streams(n) && Readers(n)
      && Phases(n.e.chans) == Phases(x.e.chans) && n.e.chans.Keys == x.e.chans.Keys
  {
    hide Wf, Linked, Streams, Readers, ChanStream, Of;
    var n := ReadNode(x, id);
    var ch := x.e.chans[id];
    WfReceiveSide(x.e, id, ch.rxbuf, ch.rxIV, ch.rxq[1..]);
    ControlKept(x);
    StreamsAt(x, id);
    ReadStream(x.e.server, x.e.mtu, x.e.crcIV, id, ch, x.log, ch.rxq[1..], n.log.read);
    StreamsPut(x, n, id);
    LinkedSame(x, y, xy, yx, n);
    ReadReaders(x, id);
  }

  lemma ReadReaders(x: Node, id: nat)
    requires Readers(x) && id in x.e.chans && id != CMC && x.e.chans[id].rxq != []
    ensures Readers(ReadNode(x, id))
  {
    hide Readers, Messages, SameOthers, SameEntry;
    var n := ReadNode(x, id);
    SameOthersPut(x.e.chans, id, n.e.chans[id]);
    forall i | i in x.e.chans && i != id
      ensures SameEntry(x.log, n.log, i)
    {
      SameEntryRead(x.log, id, n.log.read, i);
    }
    if id !in x.log.lost {
      ReadersAt(x, id);
    }
    MessagesHead(x.e.chans[id].rxq);
    ReadersPut(x, n, id);
  }

  lemma ReadersAt(x: Node, id: nat)
    requires Readers(x) && id in x.e.chans && id != CMC && id !in x.log.lost
    ensures At(x.log.read, id) + Messages(x.e.chans[id].rxq) == At(x.log.got, id)
  {
    hide Messages;
  }

  lemma MessagesHead(q: seq<RxItem>)
    requires q != []
    ensures Messages(q) == (if q[0].Message? then [q[0].data] else []) + Messages(q[1..])
  {
  }

  // ---------------------------------------------------------------------
  // Creating and announcing channels
  // ---------------------------------------------------------------------

  lemma CreateStep(y: System, name: bytes, reconnect: bool)
    requires Inv(y)
    ensures Inv(y.(c := CreateNode(y.c, name, reconnect)))
  {
    hide Wf, Linked, Streams, Readers, Control, Phases, Of, LowestFree;
    var n := CreateNode(y.c, name, reconnect);
    WfCreate(y.c.e, name, reconnect);
    LinkedSame(y.c, y.s, y.cs, y.sc, n);
    match LowestFree(y.c.e.freeIds, 0)
    case None =>
      StreamsSame(y.c, n);
      ReadersSameNode(y.c, n);
    case Some(id) =>
      FreeIsUnused(y.c.e, id);
      CreateStreams(y.c, n, id);
      CreateReaders(y.c, n, id);
      PhasesPut(y.c.e.chans, id, n.e.chans[id]);
      ControlCreate(At(y.c.log.sent, CMC), At(y.s.log.sent, CMC), |At(y.c.log.got, CMC)|,
                    Phases(y.c.e.chans), y.c.log.serial, y.s.e.chans.Keys, y.s.log.serial, id);
  }

  lemma FreeIsUnused(e: Endpoint, id: nat)
    requires Wf(e) && id in e.freeIds
    ensures id < 14 && id !in e.chans
  {
  }

  lemma ReadersSameNode(n: Node, n1: Node)
    requires Readers(n) && n1.e.chans == n.e.chans && n1.log == n.log
    ensures Readers(n1)
  {
    hide Messages;
  }

  lemma PhasesPut(chans: Chans, id: nat, ch: Chan)
    ensures Phases(chans[id := ch]) == Phases(chans)[id := PhaseOf(ch)]
    ensures Phases(chans).Keys == chans.Keys
  {
  }

  lemma CreateStreams(n: Node, n1: Node, id: nat)
    requires Streams(n) && id !in n.e.chans && id < 14
    requires id in n1.e.chans
    requires n1.e.chans == n.e.chans[id := MakeChan(PendingOpen, n1.e.chans[id].reconnect, n1.e.chans[id].name, 0, 0)]
    requires n1.e.server == n.e.server && n1.e.mtu == n.e.mtu && n1.e.crcIV == n.e.crcIV
    requires n1.log == n.log.(sent := n.log.sent[id := []], got := n.log.got[id := []], read := n.log.read[id := []])
    ensures Streams(n1)
  {
    hide StreamOk, Of, Streams, SameOthers;
    ControlKept(n);
    NotHereNotStarted(n, id);
    SameOthersPut(n.e.chans, id, n1.e.chans[id]);
    StreamsPut(n, n1, id);
  }

  lemma NotHereNotStarted(n: Node, id: nat)
    requires Streams(n) && id !in n.e.chans
    ensures Of(n.log.started, id) == []
  {
    hide Of, ChanStream;
  }

  lemma CreateReaders(n: Node, n1: Node, id: nat)
    requires Readers(n) && id !in n.e.chans
    requires id in n1.e.chans && n1.e.chans == n.e.chans[id := n1.e.chans[id]] && n1.e.chans[id].rxq == []
    requires n1.log == n.log.(sent := n.log.sent[id := []], got := n.log.got[id := []], read := n.log.read[id := []])
    ensures Readers(n1)
  {
    ReadersPut(n, n1, id);
  }

  /** The channel has its initial values and serial, and is announced. */
  function AskedNode(n: Node): Node
    requires CanOpen(n.e)
  {
    var id := n.e.pending[0];
    var k := NextIv(n.e.ivCount);
    var iv := ChannelIv(n.e.crcIV, k);
    Node(n.e.(pending := n.e.pending[1..], ivCount := k,
              chans := n.e.chans[id := n.e.chans[id].(state := OpenSent, txIV := Not(iv), rxIV := iv)]),
         n.log.(serial := n.log.serial[id := |At(n.log.sent, CMC)| + 2]))
  }

  lemma OpenIsAskThenSend(n: Node)
    requires CanOpen(n.e)
    ensures CMC in AskedNode(n).e.chans
    ensures OpenNode(n) == SendNode(AskedNode(n), CMC, OpenMessage(n.e.pending[0], n.e.chans[n.e.pending[0]].name))
  {
    hide ChannelIv, Not, NextIv, OpenMessage;
  }

  lemma AskedStream(mtu: nat, session: word, id: nat, ch: Chan, l: Ledger, k: nat, ch1: Chan)
    requires mtu >= 2 && id < 15 && ch.state == PendingOpen && ChanStream(false, mtu, session, id, ch, l)
    requires Of(l.accepted, id) == []
    requires ch1 == ch.(state := OpenSent, txIV := Not(Base(session, k)), rxIV := Base(session, k))
    ensures ChanStream(false, mtu, session, id, ch1, l.(serial := l.serial[id := k]))
  {
    hide TxOk, RxOk, RxCounts, Of, Base, Not;
    var base := Base(session, k);
    TxStart(mtu, id, Not(base), ch.mtxq, l.started);
    RxStart(id, base, l.accepted);
    RxOkCounts(id, base, ch1.rxbuf, base, [], l.accepted);
  }

  lemma AskedStreams(n: Node)
    requires CanOpen(n.e) && Streams(n) && n.e.mtu >= 2 && !n.e.server
    requires n.e.chans[n.e.pending[0]].state == PendingOpen
    requires n.e.ivCount == IvAfter(0, |At(n.log.sent, CMC)| + 1)
    requires Of(n.log.accepted, n.e.pending[0]) == []
    ensures Streams(AskedNode(n))
  {
    hide Streams, ChanStream, Of, Not, ChannelIv, NextIv;
    var id := n.e.pending[0];
    ControlKept(n);
    StreamsAt(n, id);
    var k := |At(n.log.sent, CMC)| + 2;
    assert IvAfter(0, k) == NextIv(n.e.ivCount);
    AskedStream(n.e.mtu, n.e.crcIV, id, n.e.chans[id], n.log, k, AskedNode(n).e.chans[id]);
    StreamsPut(n, AskedNode(n), id);
  }

  lemma AskedReaders(n: Node)
    requires CanOpen(n.e) && Readers(n)
    ensures Readers(AskedNode(n))
  {
    hide Messages, Not, ChannelIv, NextIv;
  }

  /** Nothing has been accepted for a channel the server does not have. */
  lemma NothingAccepted(y: System, id: nat)
    requires Linked(y.c, y.s, y.cs, y.sc) && Streams(y.s) && id !in y.s.e.chans
    ensures Of(y.c.log.accepted, id) == []
  {
    hide LinkInv, ChanStream, FlightsOk, Of;
    LinkPrefixes(y.c, y.s, y.cs, y.sc);
    OfPrefix(y.c.log.accepted, y.s.log.started, id);
  }

  lemma LinkPrefixes(x: Node, y: Node, xy: seq<Flight>, yx: seq<Flight>)
    requires Linked(x, y, xy, yx)
    ensures y.log.accepted <= x.log.started && |x.log.started| <= |y.log.accepted| + 1
    ensures x.log.accepted <= y.log.started && |y.log.started| <= |x.log.accepted| + 1
  {
    hide DataOk, AckOk, DataOrdered, AckOrdered, FlightsOk;
  }

  lemma WaitingNotServed(y: System, id: nat)
    requires ControlOf(y) && id in y.c.e.chans && id != CMC && y.c.e.chans[id].state == PendingOpen
    ensures id !in y.s.e.chans
  {
    hide OpenOk, AnswerOk, Accepted, OpenId, ClientControl;
    assert Phases(y.c.e.chans)[id] == Waiting;
  }

  lemma OpenControl(y: System)
    requires ControlOf(y) && CanOpen(y.c.e)
    requires var id := y.c.e.pending[0]; y.c.e.chans[id].state == PendingOpen
    ensures ControlOf(y.(c := OpenNode(y.c)))
  {
    hide Control, ChannelIv, Not, NextIv, OpenMessage, OpenOk, ChannelOf, Phases;
    var id := y.c.e.pending[0];
    var m := OpenMessage(id, y.c.e.chans[id].name);
    OpenBits(id, y.c.e.chans[id].name);
    OpenIsAskThenSend(y.c);
    var a := AskedNode(y.c);
    PhasesPut(y.c.e.chans, id, a.e.chans[id]);
    SendNodePhases(a, CMC, m);
    PhasesAt(y.c.e.chans, id);
    ControlOpen(At(y.c.log.sent, CMC), At(y.s.log.sent, CMC), |At(y.c.log.got, CMC)|,
                Phases(y.c.e.chans), y.c.log.serial, y.s.e.chans.Keys, y.s.log.serial, id, m);
    var n := OpenNode(y.c);
    assert At(n.log.sent, CMC) == At(y.c.log.sent, CMC) + [m];
  }

  lemma PhasesAt(chans: Chans, id: nat)
    requires id in chans
    ensures id in Phases(chans) && Phases(chans)[id] == PhaseOf(chans[id])
  {
  }

  lemma OpenStep(y: System)
    requires Inv(y) && CanOpen(y.c.e)
    ensures Inv(y.(c := OpenNode(y.c)))
  {
    hide Wf, Linked, Streams, Readers, ControlOf, Of, ChannelIv, Not, NextIv, OpenMessage, ChanOk;
    var id := y.c.e.pending[0];
    var name := y.c.e.chans[id].name;
    PendingFacts(y.c.e);
    WfOpenPending(y.c.e);
    OpenIsAskThenSend(y.c);
    WaitingNotServed(y, id);
    NothingAccepted(y, id);
    IvCountOf(y);
    AskedStreams(y.c);
    AskedReaders(y.c);
    SendNodeStreams(AskedNode(y.c), CMC, OpenMessage(id, name));
    SendNodeReaders(AskedNode(y.c), CMC, OpenMessage(id, name));
    EndOfSame2(y.c, OpenNode(y.c));
    LinkedSame(y.c, y.s, y.cs, y.sc, OpenNode(y.c));
    OpenControl(y);
  }

  lemma IvCountOf(y: System)
    requires ControlOf(y)
    ensures y.c.e.ivCount == IvAfter(0, |At(y.c.log.sent, CMC)| + 1)
    ensures y.s.e.ivCount == IvAfter(0, |At(y.s.log.got, CMC)| + 1)
    ensures |At(y.s.log.sent, CMC)| == |At(y.s.log.got, CMC)|
  {
  }

  lemma EndOfSame2(x: Node, n: Node)
    requires n.e.se == x.e.se && n.e.currentTx == x.e.currentTx
    requires n.log.started == x.log.started && n.log.accepted == x.log.accepted
    ensures EndOf(n) == EndOf(x)
  {
  }

  lemma PendingFacts(e: Endpoint)
    requires Wf(e) && e.pending != []
    ensures e.pending[0] in e.chans && e.pending[0] < 14
    ensures e.chans[e.pending[0]].state == PendingOpen
    ensures e.mtu >= 2
  {
    hide FragOf;
    QueueAt(e.pending, e.chans, PendingOpen, 0);
    ChansAt(e.server, e.mtu, e.chans, e.pending[0]);
  }
}
