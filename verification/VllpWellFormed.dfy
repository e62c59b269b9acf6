/** What every step of a VLLP endpoint keeps about its own tables: queue
    membership agrees with channel state, only an active channel has anything
    to send, and identifiers are handed out once. */
module VllpWellFormed {
  import opened Common
  import opened Crc32
  import opened VllpFrames
  import opened VllpEndpoint

  type Chans = map<nat, Chan>

  /** A queued fragment of channel `id`. */
  predicate FragOf(mtu: nat, id: nat, f: bytes) {
    1 <= |f| <= mtu && ChannelOf(f[0]) == id && FragBits(f[0]) == f[0]
  }

  predicate Opening(ch: Chan) { ch.state == PendingOpen || ch.state == OpenSent }

  ghost predicate ChanOk(server: bool, mtu: nat, id: nat, ch: Chan) {
    && id < 15
    && (forall f :: f in ch.txq ==> FragOf(mtu, id, f))
    && (ch.state == Active ==> ch.txq != [] || ch.mtxq != [])
    && (ch.state == Established ==> ch.txq == [] && ch.mtxq == [])
    && (Opening(ch) ==> !server && id != CMC && ch.txq == [])
  }

  ghost predicate ChansOk(server: bool, mtu: nat, chans: Chans) {
    CMC in chans && forall i :: i in chans ==> ChanOk(server, mtu, i, chans[i])
  }

  predicate InState(chans: Chans, i: nat, st: ChanState) { i in chans && chans[i].state == st }

  /** A queue holds exactly the channels in one state, each once. */
  ghost predicate QueueOk(q: seq<nat>, chans: Chans, st: ChanState) {
    && Distinct(q)
    && (forall k :: 0 <= k < |q| ==> InState(chans, q[k], st))
    && (forall i :: InState(chans, i, st) ==> i in q)
  }

  predicate FreeOk(free: set<nat>, chans: Chans) {
    forall i :: i in free ==> i < 14 && i !in chans
  }

  predicate Sized(e: Endpoint) {
    && e.mtu >= 2
    && (e.fdcan ==> e.mtu <= 63)
    && (e.currentTx.Some? ==> 1 <= |e.currentTx.value| <= e.mtu && ChannelOf(e.currentTx.value[0]) < 15)
  }

  ghost predicate Wf(e: Endpoint) {
    && Sized(e)
    && IsSE(e.se)
    && ChansOk(e.server, e.mtu, e.chans)
    && QueueOk(e.active, e.chans, Active)
    && QueueOk(e.pending, e.chans, PendingOpen)
    && FreeOk(e.freeIds, e.chans)
  }

  // ---------------------------------------------------------------------
  // Queues
  // ---------------------------------------------------------------------

  lemma QueueSame(q: seq<nat>, chans: Chans, chans1: Chans, st: ChanState)
    requires QueueOk(q, chans, st)
    requires forall i :: InState(chans1, i, st) == InState(chans, i, st)
    ensures QueueOk(q, chans1, st)
  {
    hide InState, Distinct;
  }

  lemma QueueAppend(q: seq<nat>, chans: Chans, chans1: Chans, st: ChanState, id: nat)
    requires QueueOk(q, chans, st)
    requires !InState(chans, id, st) && InState(chans1, id, st)
    requires forall i :: i != id ==> InState(chans1, i, st) == InState(chans, i, st)
    ensures QueueOk(q + [id], chans1, st)
  {
    hide InState;
    var r := q + [id];
    forall i | InState(chans1, i, st)
      ensures i in r
    {
      assert i == id || i in q;
    }
  }

  lemma QueueRemove(q: seq<nat>, chans: Chans, chans1: Chans, st: ChanState, p: nat)
    requires QueueOk(q, chans, st) && p < |q|
    requires !InState(chans1, q[p], st)
    requires forall i :: i != q[p] ==> InState(chans1, i, st) == InState(chans, i, st)
    ensures QueueOk(q[..p] + q[p + 1..], chans1, st)
  {
    hide InState;
    var r := q[..p] + q[p + 1..];
    forall i | InState(chans1, i, st)
      ensures i in r
    {
      assert i in q && i != q[p];
      var k :| 0 <= k < |q| && q[k] == i;
      assert r[if k < p then k else k - 1] == i;
    }
  }

  lemma QueueRotate(q: seq<nat>, chans: Chans, st: ChanState, p: nat)
    requires QueueOk(q, chans, st) && p < |q|
    ensures QueueOk(q[..p] + q[p + 1..] + [q[p]], chans, st)
  {
    hide InState;
    var r := q[..p] + q[p + 1..] + [q[p]];
    forall i | InState(chans, i, st)
      ensures i in r
    {
      assert i in q;
      var k :| 0 <= k < |q| && q[k] == i;
      assert r[if k < p then k else if k == p then |q| - 1 else k - 1] == i;
    }
  }

  lemma QueuePutSame(q: seq<nat>, chans: Chans, id: nat, ch: Chan, st: ChanState)
    requires QueueOk(q, chans, st)
    requires (ch.state == st) == InState(chans, id, st)
    ensures QueueOk(q, chans[id := ch], st)
  {
    hide QueueOk;
    QueueSame(q, chans, chans[id := ch], st);
  }

  lemma QueuePutAppend(q: seq<nat>, chans: Chans, id: nat, ch: Chan, st: ChanState)
    requires QueueOk(q, chans, st)
    requires ch.state == st && !InState(chans, id, st)
    ensures QueueOk(q + [id], chans[id := ch], st)
  {
    hide QueueOk;
    QueueAppend(q, chans, chans[id := ch], st, id);
  }

  lemma QueuePutRemove(q: seq<nat>, chans: Chans, ch: Chan, st: ChanState, p: nat)
    requires QueueOk(q, chans, st) && p < |q| && ch.state != st
    ensures QueueOk(q[..p] + q[p + 1..], chans[q[p] := ch], st)
  {
    hide QueueOk;
    QueueRemove(q, chans, chans[q[p] := ch], st, p);
  }

  lemma QueueForget(q: seq<nat>, chans: Chans, id: nat, st: ChanState)
    requires QueueOk(q, chans, st) && !InState(chans, id, st)
    ensures QueueOk(q, chans - {id}, st)
  {
    hide QueueOk;
    QueueSame(q, chans, chans - {id}, st);
  }

  lemma QueueAt(q: seq<nat>, chans: Chans, st: ChanState, p: nat)
    requires QueueOk(q, chans, st) && p < |q|
    ensures q[p] in chans && chans[q[p]].state == st
  {
    hide Distinct;
  }

  lemma ChansAt(server: bool, mtu: nat, chans: Chans, i: nat)
    requires ChansOk(server, mtu, chans) && i in chans
    ensures ChanOk(server, mtu, i, chans[i])
  {
    hide ChanOk;
  }

  lemma ChansPut(server: bool, mtu: nat, chans: Chans, i: nat, ch: Chan)
    requires ChansOk(server, mtu, chans) && ChanOk(server, mtu, i, ch)
    ensures ChansOk(server, mtu, chans[i := ch])
  {
    hide ChanOk;
  }

  lemma ActiveOk(server: bool, mtu: nat, chans: Chans, q: seq<nat>)
    requires ChansOk(server, mtu, chans) && QueueOk(q, chans, Active)
    ensures Distinct(q)
    ensures forall i :: i in q ==> i < 15 && i in chans && chans[i].state == Active && (chans[i].txq != [] || chans[i].mtxq != [])
  {
    hide FragOf, Distinct;
    forall i | i in q
      ensures i < 15 && i in chans && chans[i].state == Active && (chans[i].txq != [] || chans[i].mtxq != [])
    {
      var k :| 0 <= k < |q| && q[k] == i;
      assert InState(chans, q[k], Active);
      assert ChanOk(server, mtu, i, chans[i]);
    }
  }

  lemma WfReady(e: Endpoint)
    requires Wf(e)
    ensures ScanReady(e)
  {
    hide Distinct, IsSE;
    ActiveOk(e.server, e.mtu, e.chans, e.active);
    forall i | i in e.chans
      ensures forall f :: f in e.chans[i].txq ==> 1 <= |f| <= e.mtu
    {
      assert ChanOk(e.server, e.mtu, i, e.chans[i]);
    }
    forall i | i in e.pending
      ensures i in e.chans
    {
      var k :| 0 <= k < |e.pending| && e.pending[k] == i;
      assert InState(e.chans, e.pending[k], PendingOpen);
    }
  }

  lemma WfStart(server: bool, fdcan: bool, mtu: nat, session: word)
    requires StoredMtu(fdcan, mtu) >= 2 && (fdcan ==> StoredMtu(fdcan, mtu) <= 63)
    ensures Wf(StartSession(Fresh(server, fdcan, mtu), session))
  {
    hide ChannelIv, Not, StoredMtu;
    assert IsSE(HDR_E);
  }

  // ---------------------------------------------------------------------
  // Sending
  // ---------------------------------------------------------------------

  lemma SendChanOk(server: bool, mtu: nat, id: nat, ch: Chan, msg: bytes)
    requires ChanOk(server, mtu, id, ch)
    ensures ChanOk(server, mtu, id, ch.(mtxq := ch.mtxq + [msg], state := if ch.state == Established then Active else ch.state))
  {
    hide FragOf;
  }

  lemma WfSend(e: Endpoint, id: nat, msg: bytes)
    requires Wf(e) && id in e.chans
    ensures Wf(SendMessage(e, id, msg))
  {
    hide ChanOk, IsSE, QueueOk, ChansOk;
    var e1 := SendMessage(e, id, msg);
    var ch := e.chans[id];
    ChansAt(e.server, e.mtu, e.chans, id);
    SendChanOk(e.server, e.mtu, id, ch, msg);
    var ch1 := e1.chans[id];
    ChansPut(e.server, e.mtu, e.chans, id, ch1);
    if ch.state == Established {
      QueuePutAppend(e.active, e.chans, id, ch1, Active);
    } else {
      QueuePutSame(e.active, e.chans, id, ch1, Active);
    }
    QueuePutSame(e.pending, e.chans, id, ch1, PendingOpen);
  }

  /** Replacing a channel by one in the same state. */
  lemma WfSetChan(e: Endpoint, id: nat, ch: Chan)
    requires Wf(e) && id in e.chans
    requires ChanOk(e.server, e.mtu, id, ch) && ch.state == e.chans[id].state
    ensures Wf(e.(chans := e.chans[id := ch]))
  {
    hide FragOf, IsSE, ChanOk, ChansOk, QueueOk;
    ChansPut(e.server, e.mtu, e.chans, id, ch);
    QueuePutSame(e.active, e.chans, id, ch, Active);
    QueuePutSame(e.pending, e.chans, id, ch, PendingOpen);
  }

  lemma FragmentChanOk(server: bool, mtu: nat, id: nat, ch: Chan)
    requires mtu >= 2 && ChanOk(server, mtu, id, ch) && ch.state == Active
    ensures ChanOk(server, mtu, id, FragmentChan(mtu, id, ch))
    ensures FragmentChan(mtu, id, ch).txq != []
    ensures FragmentChan(mtu, id, ch).mtxq == []
    ensures FragmentChan(mtu, id, ch).state == Active
  {
    hide FragmentAll, ChannelOf, FragBits, IvAfter;
    FragmentShape(mtu, id, ch.txIV, ch.mtxq);
    if ch.mtxq != [] {
      FragmentAllNonEmpty(mtu, id, ch.txIV, ch.mtxq);
    }
  }

  lemma ScanChan(e: Endpoint, pick: Pick, i: nat)
    requires Wf(e) && ScanReady(e) && i in e.chans
    requires pick == Scan(e.mtu, e.remoteFlow, e.active, e.chans, 0)
    ensures i in pick.chans
    ensures pick.chans[i] == e.chans[i]
      || (i < 15 && e.chans[i].state == Active && pick.chans[i] == FragmentChan(e.mtu, i, e.chans[i]))
    ensures ChanOk(e.server, e.mtu, i, pick.chans[i])
    ensures pick.chans[i].state == e.chans[i].state
  {
    hide FragmentChan, IsSE, Scan, ChanOk, ChansOk, QueueOk, Distinct;
    ActiveOk(e.server, e.mtu, e.chans, e.active);
    ScanPointwise(e.mtu, e.remoteFlow, e.active, e.chans, 0);
    ChansAt(e.server, e.mtu, e.chans, i);
    if i in e.active {
      FragmentChanOk(e.server, e.mtu, i, e.chans[i]);
      var k :| 0 <= k < |e.active| && e.active[k] == i;
    } else {
      assert i !in e.active[0..];
    }
  }

  lemma WfScan(e: Endpoint, pick: Pick)
    requires Wf(e) && ScanReady(e)
    requires pick == Scan(e.mtu, e.remoteFlow, e.active, e.chans, 0)
    ensures Wf(e.(chans := pick.chans))
  {
    hide FragmentChan, IsSE, Scan, ChanOk, QueueOk, Distinct, ScanReady;
    ScanReadyFits(e);
    forall i | i in pick.chans
      ensures ChanOk(e.server, e.mtu, i, pick.chans[i])
      ensures pick.chans[i].state == e.chans[i].state
    {
      ScanChan(e, pick, i);
    }
    QueueSame(e.active, e.chans, pick.chans, Active);
    QueueSame(e.pending, e.chans, pick.chans, PendingOpen);
  }

  lemma PickedChan(e: Endpoint, pick: Pick)
    requires Wf(e) && ScanReady(e)
    requires pick == Scan(e.mtu, e.remoteFlow, e.active, e.chans, 0)
    requires pick.pos < |e.active|
    ensures e.active[pick.pos] in e.chans && e.active[pick.pos] < 15
    ensures var id := e.active[pick.pos];
      && e.chans[id].state == Active
      && pick.chans[id] == FragmentChan(e.mtu, id, e.chans[id])
      && pick.chans[id].txq != [] && pick.chans[id].mtxq == [] && pick.chans[id].state == Active
  {
    hide FragmentChan, IsSE, Scan, ChanOk, ChansOk, QueueOk, Distinct;
    ActiveOk(e.server, e.mtu, e.chans, e.active);
    var id := e.active[pick.pos];
    assert id in e.active;
    ScanPointwise(e.mtu, e.remoteFlow, e.active, e.chans, 0);
    ChansAt(e.server, e.mtu, e.chans, id);
    FragmentChanOk(e.server, e.mtu, id, e.chans[id]);
  }

  lemma SentChanOk(server: bool, mtu: nat, id: nat, ch: Chan)
    requires ChanOk(server, mtu, id, ch) && ch.txq != [] && ch.mtxq == [] && ch.state == Active
    ensures ChanOk(server, mtu, id, ch.(txq := ch.txq[1..], state := if ch.txq[1..] == [] then Established else Active))
    ensures FragOf(mtu, id, ch.txq[0])
  {
    hide FragOf;
    assert ch.txq[0] in ch.txq;
    assert ch.txq == [ch.txq[0]] + ch.txq[1..];
  }

  lemma FragOfSize(mtu: nat, id: nat, f: bytes)
    requires FragOf(mtu, id, f)
    ensures 1 <= |f| <= mtu && ChannelOf(f[0]) == id && FragBits(f[0]) == f[0]
  {
  }

  lemma WfStartPacket(e: Endpoint, pick: Pick)
    requires Wf(e.(chans := pick.chans)) && pick.pos < |e.active|
    requires e.active[pick.pos] in pick.chans && e.active[pick.pos] < 16
    requires var ch := pick.chans[e.active[pick.pos]]; ch.txq != [] && ch.mtxq == [] && ch.state == Active
    ensures Wf(StartPacket(e, pick))
    ensures FragOf(e.mtu, e.active[pick.pos], pick.chans[e.active[pick.pos]].txq[0])
  {
    hide IsSE, SetFlow, ToggleS, QueueOk, ChansOk, ChanOk, FragOf, ChannelOf;
    var e1 := StartPacket(e, pick);
    var id := e.active[pick.pos];
    var ch := pick.chans[id];
    var ch1 := e1.chans[id];
    ToggleBits(e.se);
    ChansAt(e.server, e.mtu, pick.chans, id);
    SentChanOk(e.server, e.mtu, id, ch);
    ChanIdRange(e.server, e.mtu, id, ch);
    FragOfSize(e.mtu, id, ch.txq[0]);
    ChansPut(e.server, e.mtu, pick.chans, id, ch1);
    if ch.txq[1..] == [] {
      QueuePutRemove(e.active, pick.chans, ch1, Active, pick.pos);
    } else {
      QueueRotate(e.active, pick.chans, Active, pick.pos);
      QueuePutSame(e1.active, pick.chans, id, ch1, Active);
    }
    QueuePutSame(e.pending, pick.chans, id, ch1, PendingOpen);
  }

  lemma WfTransmit(e: Endpoint)
    requires Wf(e) && e.currentTx.Some?
    ensures Wf(Transmit(e).e)
  {
    hide ChansOk, QueueOk, IsSE, WireHeader, FlowBit, Pad, ChannelOf;
    var p := e.currentTx.value;
    var id := ChannelOf(p[0]);
    WireHeaderBits(p[0], e.se, id != 15 && FlowBit(e.localFlow, id));
  }

  lemma WfTx(e: Endpoint, rtxDue: bool, ackDue: bool)
    requires Wf(e) && ScanReady(e)
    ensures Wf(Tx(e, rtxDue, ackDue).e)
  {
    hide Wf, Transmit, Scan, AckPacket, ScanReady;
    SizedOf(e);
    ScanReadyFits(e);
    if e.connected && e.currentTx.Some? && rtxDue {
      WfTransmit(e);
    }
    if e.connected && e.currentTx.None? {
      var pick := Scan(e.mtu, e.remoteFlow, e.active, e.chans, 0);
      WfScan(e, pick);
      if pick.pos < |e.active| {
        PickedChan(e, pick);
        WfStartPacket(e, pick);
        SizedOf(StartPacket(e, pick));
        WfTransmit(StartPacket(e, pick));
      }
    }
  }

  lemma SizedOf(e: Endpoint)
    requires Wf(e)
    ensures Sized(e) && CMC in e.chans
  {
  }

  lemma ScanReadyFits(e: Endpoint)
    requires ScanReady(e)
    ensures e.mtu >= 2
    ensures forall i :: i in e.active ==> i in e.chans && i < 15
    ensures forall k :: 0 <= k < |e.active| ==> e.active[k] in e.chans && e.active[k] < 15
  {
    forall k | 0 <= k < |e.active|
      ensures e.active[k] in e.chans && e.active[k] < 15
    {
      assert e.active[k] in e.active;
    }
  }

  // ---------------------------------------------------------------------
  // Opening channels
  // ---------------------------------------------------------------------

  lemma WfCreate(e: Endpoint, name: bytes, reconnect: bool)
    requires Wf(e) && !e.server
    ensures Wf(CreateChannel(e, name, reconnect).0)
  {
    hide IsSE, QueueOk, ChansOk;
    match LowestFree(e.freeIds, 0)
    case None =>
    case Some(id) =>
      var e1 := CreateChannel(e, name, reconnect).0;
      ChansPut(e.server, e.mtu, e.chans, id, e1.chans[id]);
      QueuePutSame(e.active, e.chans, id, e1.chans[id], Active);
      QueuePutAppend(e.pending, e.chans, id, e1.chans[id], PendingOpen);
  }

  lemma WfOpenPending(e: Endpoint)
    requires Wf(e) && e.pending != [] && e.pending[0] in e.chans && e.pending[0] < 15
    ensures CMC in e.chans
    ensures Wf(OpenPending(e))
  {
    hide IsSE, QueueOk, ChansOk, FragOf, ChannelIv, Not, OpenMessage, NextIv;
    var id := e.pending[0];
    var n := NextIv(e.ivCount);
    var iv := ChannelIv(e.crcIV, n);
    SizedOf(e);
    QueueAt(e.pending, e.chans, PendingOpen, 0);
    ChansAt(e.server, e.mtu, e.chans, id);
    var ch := e.chans[id].(state := OpenSent, txIV := Not(iv), rxIV := iv);
    var chans1 := e.chans[id := ch];
    ChansPut(e.server, e.mtu, e.chans, id, ch);
    QueuePutSame(e.active, e.chans, id, ch, Active);
    QueuePutRemove(e.pending, e.chans, ch, PendingOpen, 0);
    assert e.pending[..0] + e.pending[1..] == e.pending[1..];
    WfSend(e.(pending := e.pending[1..], ivCount := n, chans := chans1), CMC, OpenMessage(id, ch.name));
  }

  lemma WfHandleOpen(e: Endpoint, id: nat, name: bytes, verdict: word)
    requires Wf(e) && e.server && id < 14 && e.freeIds == {}
    ensures CMC in e.chans
    ensures Wf(HandleOpen(e, id, name, verdict).e)
  {
    hide IsSE, QueueOk, ChansOk, FragOf, ChannelIv, Not, ResponseMessage, NextIv;
    SizedOf(e);
    if |name| >= 1 && id !in e.chans {
      var n := NextIv(e.ivCount);
      var iv := ChannelIv(e.crcIV, n);
      var ch := MakeChan(Established, false, name, iv, Not(iv));
      var chans1 := if verdict == 0 then e.chans[id := ch] else e.chans;
      ChansPut(e.server, e.mtu, e.chans, id, ch);
      QueuePutSame(e.active, e.chans, id, ch, Active);
      QueuePutSame(e.pending, e.chans, id, ch, PendingOpen);
      WfSend(e.(ivCount := n, chans := chans1), CMC, ResponseMessage(id, verdict));
    }
  }

  lemma AnsweredChanOk(mtu: nat, id: nat, ch: Chan, rxq: seq<RxItem>, rxbuf: bytes)
    requires ChanOk(false, mtu, id, ch) && ch.state == OpenSent
    ensures ChanOk(false, mtu, id, ch.(rxq := rxq, rxbuf := rxbuf, state := if ch.mtxq != [] then Active else Established))
  {
    hide FragOf;
  }

  lemma ChansForget(server: bool, mtu: nat, chans: Chans, id: nat)
    requires ChansOk(server, mtu, chans) && id != CMC
    ensures ChansOk(server, mtu, chans - {id})
  {
    hide ChanOk;
  }

  lemma ChanIdRange(server: bool, mtu: nat, id: nat, ch: Chan)
    requires ChanOk(server, mtu, id, ch)
    ensures id < 15
    ensures Opening(ch) ==> id < 14
  {
    hide FragOf;
  }

  lemma WfOpenResponse(e: Endpoint, id: nat, data: bytes)
    requires Wf(e) && !e.server
    ensures Wf(HandleOpenResponse(e, id, data).e)
  {
    hide IsSE, QueueOk, ChansOk, ChanOk;
    if id in e.chans && e.chans[id].state == OpenSent && |data| == 2 {
      var e1 := HandleOpenResponse(e, id, data).e;
      var ch := e.chans[id];
      ChansAt(e.server, e.mtu, e.chans, id);
      ChanIdRange(e.server, e.mtu, id, ch);
      if data[0] == 0 && data[1] == 0 {
        var ch1 := e1.chans[id];
        AnsweredChanOk(e.mtu, id, ch, ch1.rxq, ch1.rxbuf);
        ChansPut(e.server, e.mtu, e.chans, id, ch1);
        if ch.mtxq != [] {
          QueuePutAppend(e.active, e.chans, id, ch1, Active);
        } else {
          QueuePutSame(e.active, e.chans, id, ch1, Active);
        }
        QueuePutSame(e.pending, e.chans, id, ch1, PendingOpen);
      } else {
        ChansForget(e.server, e.mtu, e.chans, id);
        QueueForget(e.active, e.chans, id, Active);
        QueueForget(e.pending, e.chans, id, PendingOpen);
      }
    }
  }

  // ---------------------------------------------------------------------
  // Receiving
  // ---------------------------------------------------------------------

  /** Only the receive side of a channel changes. */
  lemma WfReceiveSide(e: Endpoint, id: nat, buf: bytes, iv: word, rxq: seq<RxItem>)
    requires Wf(e) && id in e.chans
    ensures Wf(e.(chans := e.chans[id := e.chans[id].(rxbuf := buf, rxIV := iv, rxq := rxq)]))
  {
    hide IsSE, QueueOk, ChansOk, FragOf;
    ChansAt(e.server, e.mtu, e.chans, id);
    WfSetChan(e, id, e.chans[id].(rxbuf := buf, rxIV := iv, rxq := rxq));
  }

  /** The fields outside the tables that receiving may change. */
  lemma WfRegisters(e: Endpoint, se: byte, flow: bv16, connected: bool, keep: bool)
    requires Wf(e) && IsSE(se)
    ensures Wf(e.(se := se, remoteFlow := flow, connected := connected, currentTx := if keep then e.currentTx else None))
  {
    hide IsSE, QueueOk, ChansOk;
  }
}
