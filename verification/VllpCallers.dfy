/** What the users of a VLLP session can do to have all its guarantees: a
    condition on their calls alone, whatever the links do. */
module VllpCallers {
  import opened Common
  import opened Crc32
  import opened VllpFrames
  import opened VllpEndpoint
  import opened VllpSession
  import opened VllpWellFormed
  import opened VllpStreams
  import opened VllpInvariant
  import opened VllpUserSteps
  import opened VllpRxSteps
  import opened VllpControlSteps
  import opened VllpRuns
  import opened VllpTheorems

  /** A channel is created with a name and not marked for reopening. */
  predicate CarefulCall(a: Action) { a.ClientCreate? ==> a.name != [] && !a.reconnect }

  predicate Careful(actions: seq<Action>) { forall i :: 0 <= i < |actions| ==> CarefulCall(actions[i]) }

  // ---------------------------------------------------------------------
  // The client's channels keep their marks
  // ---------------------------------------------------------------------

  /** No channel of `b` is new, or marked or named otherwise than in `a`. */
  predicate Marks(a: Chans, b: Chans) {
    forall i :: i in b ==> i in a && b[i].reconnect == a[i].reconnect && b[i].name == a[i].name
  }

  lemma MarksJoin(a: Chans, b: Chans, c: Chans)
    requires Marks(a, b) && Marks(b, c)
    ensures Marks(a, c)
  {
  }

  lemma ControlMarks(e: Endpoint, msg: bytes, verdict: word)
    requires CMC in e.chans && !e.server
    ensures Marks(e.chans, ControlRx(e, msg, verdict).e.chans)
  {
    hide HandleOpen, HandleOpenResponse, Opcode, ChannelOf;
    if |msg| >= 1 { ResponseMarks(e, ChannelOf(msg[0]), msg[1..]); }
  }

  lemma ResponseMarks(e: Endpoint, id: nat, data: bytes)
    ensures Marks(e.chans, HandleOpenResponse(e, id, data).e.chans)
  {
    hide HandleOpenResponse;
    if id in e.chans && e.chans[id].state == OpenSent && |data| == 2 {
      AnsweredIs(e, id, data);
      PutMarks(e.chans, id, AnsweredChan(e.chans[id]));
    } else {
      Unanswered(e, id, data);
    }
  }

  lemma Unanswered(e: Endpoint, id: nat, data: bytes)
    requires !(id in e.chans && e.chans[id].state == OpenSent && |data| == 2)
    ensures HandleOpenResponse(e, id, data).e == e
  {
  }

  lemma PutMarks(a: Chans, id: nat, ch: Chan)
    requires id in a && ch.reconnect == a[id].reconnect && ch.name == a[id].name
    ensures Marks(a, a[id := ch])
  {
  }

  lemma ReceiveMarks(e: Endpoint, pkt: bytes, id: nat, verdict: word)
    requires |pkt| >= 1 && CMC in e.chans && !e.server
    ensures Marks(e.chans, ChannelReceive(e, pkt, id, verdict).e.chans)
  {
    hide Receive, ControlRx, NextIv, Marks;
    SelfMarks(e.chans);
    if id in e.chans {
      var ch := e.chans[id];
      match Receive(ch.rxbuf, ch.rxIV, pkt)
      case Partial(buf) => PutMarks(e.chans, id, ch.(rxbuf := buf));
      case BadChecksum => PutMarks(e.chans, id, ch.(rxbuf := []));
      case Underflow =>
      case Complete(msg) =>
        var ch1 := ch.(rxbuf := [], rxIV := NextIv(ch.rxIV));
        PutMarks(e.chans, id, ch1);
        if id == CMC {
          var e1 := e.(chans := e.chans[id := ch1]);
          ControlMarks(e1, msg, verdict);
          MarksJoin(e.chans, e1.chans, ControlRx(e1, msg, verdict).e.chans);
        } else {
          PutMarks(e.chans, id, ch1.(rxq := ch1.rxq + [Message(msg)]));
        }
    }
  }

  lemma SelfMarks(a: Chans)
    ensures Marks(a, a)
  {
  }

  lemma RxMarks(e: Endpoint, pkt: bytes, verdict: word)
    requires CMC in e.chans && !e.server
    ensures Marks(e.chans, HandleRx(e, pkt, verdict).e.chans)
  {
    hide Crc, ChannelReceive, FlowOf, IsAck, ChannelOf, SetFlow, HasF, HasS, HasE, ToggleE, PeerAccepted, CanAccept, Marks;
    SelfMarks(e.chans);
    if |pkt| >= 1 {
      var e1 := if IsAck(pkt[0]) && |pkt| == 7 then e.(remoteFlow := FlowOf(pkt[1], pkt[2])) else e;
      ReceiveMarks(e1, pkt, ChannelOf(pkt[0]), verdict);
    }
  }

  lemma {:induction false} ScanMarks(mtu: nat, flow: bv16, active: seq<nat>, chans: Chans, pos: nat)
    requires mtu >= 2 && pos <= |active| && forall i :: i in active ==> i in chans && i < 15
    ensures Marks(chans, Scan(mtu, flow, active, chans, pos).chans)
    decreases |active| - pos
  {
    hide FragmentAll, FlowBit, IvAfter;
    if pos < |active| {
      var id := active[pos];
      var chans1 := chans[id := FragmentChan(mtu, id, chans[id])];
      if !FlowBit(flow, id) {
        ScanMarks(mtu, flow, active, chans1, pos + 1);
        MarksJoin(chans, chans1, Scan(mtu, flow, active, chans1, pos + 1).chans);
      }
    }
  }

  lemma StartMarks(e: Endpoint, pick: Pick)
    requires pick.pos < |e.active| && e.active[pick.pos] in pick.chans && e.active[pick.pos] < 16 && pick.chans[e.active[pick.pos]].txq != []
    requires Marks(e.chans, pick.chans)
    ensures Marks(e.chans, StartPacket(e, pick).chans)
  {
    hide SetFlow, ToggleS;
  }

  lemma TxMarks(e: Endpoint, rtxDue: bool, ackDue: bool)
    requires ScanReady(e)
    ensures Marks(e.chans, Tx(e, rtxDue, ackDue).e.chans)
  {
    hide Scan, AckPacket, StartPacket, WireHeader, FlowBit, ChannelOf, Pad, Marks;
    SelfMarks(e.chans);
    ScanMarks(e.mtu, e.remoteFlow, e.active, e.chans, 0);
    if e.connected && e.currentTx.None? {
      var pick := Scan(e.mtu, e.remoteFlow, e.active, e.chans, 0);
      if pick.pos < |e.active| {
        ScanFindsPacket(e);
        StartMarks(e, pick);
      }
    }
  }

  // ---------------------------------------------------------------------
  // Runs
  // ---------------------------------------------------------------------

  /** The client's channels are named and none is to be reopened, and every open
      it has sent has a name. */
  predicate Plain(n: Node) {
    && (forall i :: i in n.e.chans ==> !n.e.chans[i].reconnect && (i != CMC ==> n.e.chans[i].name != []))
    && (forall j :: 0 <= j < |At(n.log.sent, CMC)| ==> |At(n.log.sent, CMC)[j]| >= 2)
  }

  lemma PlainMarks(n: Node, m: Node)
    requires Plain(n) && Marks(n.e.chans, m.e.chans) && At(m.log.sent, CMC) == At(n.log.sent, CMC)
    ensures Plain(m)
  {
  }

  lemma PlainRx(n: Node, wire: bytes, verdict: word)
    requires CMC in n.e.chans && !n.e.server && Plain(n)
    ensures Plain(RxNode(n, wire, verdict).0)
  {
    hide Plain, Unpad, HandleRx, Marks, Takes, Receive, Norm;
    var p := Unpad(n.e.fdcan, wire);
    if p.Some? && |p.value| >= 1 {
      RxMarks(n.e, p.value, verdict);
      PlainMarks(n, RxNode(n, wire, verdict).0);
    }
  }

  lemma PlainTx(n: Node, rtxDue: bool, ackDue: bool)
    requires ScanReady(n.e) && Plain(n)
    ensures Plain(TxNode(n, rtxDue, ackDue).0)
  {
    hide Plain, Tx, Marks, ScanReady, Norm;
    TxMarks(n.e, rtxDue, ackDue);
    PlainMarks(n, TxNode(n, rtxDue, ackDue).0);
  }

  lemma PlainOpen(n: Node)
    requires CanOpen(n.e) && Plain(n)
    ensures Plain(OpenNode(n))
  {
    hide NextIv, ChannelIv, Not;
    var id := n.e.pending[0];
    assert |OpenMessage(id, n.e.chans[id].name)| >= 2;
  }

  lemma PlainSend(n: Node, id: nat, msg: bytes)
    requires id in n.e.chans && id != CMC && Plain(n)
    ensures Plain(SendNode(n, id, msg))
  {
    hide SendNode, Marks;
    SendNodeChan(n, id, msg);
    var m := SendNode(n, id, msg);
    PutMarks(n.e.chans, id, m.e.chans[id]);
    assert At(m.log.sent, CMC) == At(n.log.sent, CMC);
    PlainMarks(n, m);
  }

  lemma PlainStep(y: System, a: Action)
    requires Inv(y) && Plain(y.c) && CarefulCall(a)
    ensures Plain(Step(y, a).c)
  {
    hide Inv, Plain, RxNode, TxNode, OpenNode, SendNode, ScanReady, CanOpen, Wf, Linked, Streams, Readers, ControlOf;
    StepReady(y);
    InvParts(y);
    match a
    case ClientRx => if y.sc != [] { PlainRx(y.c, y.sc[0].wire, 0); }
    case ClientTx(r, k) => PlainTx(y.c, r, k);
    case ClientCreate(name, reconnect) => PlainCreate(y.c, name, reconnect);
    case ClientOpen => if CanOpen(y.c.e) { PlainOpen(y.c); }
    case ClientSend(id, msg) => if id in y.c.e.chans && id != CMC { PlainSend(y.c, id, msg); }
    case ClientRead(id) => if id in y.c.e.chans && id != CMC && y.c.e.chans[id].rxq != [] { PlainRead(y.c, id); }
    case _ =>
  }

  lemma PlainCreate(n: Node, name: bytes, reconnect: bool)
    requires Plain(n) && name != [] && !reconnect
    ensures Plain(CreateNode(n, name, reconnect))
  {
    var r := CreateChannel(n.e, name, reconnect);
    assert r.1.Some? ==> r.1.value != CMC;
    var m := CreateNode(n, name, reconnect);
    assert At(m.log.sent, CMC) == At(n.log.sent, CMC);
    assert forall i :: i in m.e.chans ==> (i in n.e.chans && m.e.chans[i] == n.e.chans[i]) || (r.1 == Some(i) && m.e.chans[i] == MakeChan(PendingOpen, reconnect, name, 0, 0));
  }

  lemma PlainRead(n: Node, id: nat)
    requires id in n.e.chans && id != CMC && n.e.chans[id].rxq != [] && Plain(n)
    ensures Plain(ReadNode(n, id))
  {
  }

  lemma OpenNamed(y: System)
    requires Inv(y) && Plain(y.c)
    ensures !Nameless(y)
  {
    hide Inv, Wf, Linked, Streams, Readers, ControlOf, Of, ChannelOf, Norm, Receive, DataNode, ControlRx, Joined, Unpad, Takes, PacketOk;
    InvParts(y);
    if ControlMessage(y.s.e, y.cs).Some? {
      StepReady(y);
      FlightPacket(y.c, y.s, y.cs, y.sc);
      var pkt := Unpad(y.s.e.fdcan, y.cs[0].wire).value;
      var msg := Receive(y.s.e.chans[CMC].rxbuf, y.s.e.chans[CMC].rxIV, pkt).msg;
      UpFragment(y, pkt);
      OpenArrives(y, pkt, msg, 0);
      var k := |At(y.s.log.got, CMC)|;
      assert At(y.c.log.sent, CMC)[k] == (At(y.s.log.got, CMC) + [msg])[k];
    }
  }

  lemma PlainLosesNothing(e: Endpoint, msg: bytes)
    requires forall i :: i in e.chans ==> !e.chans[i].reconnect
    ensures Loses(e, msg) == {}
  {
    hide ChannelOf, Messages;
  }

  /** Such a step neither ends the session nor loses data. */
  lemma PlainLasts(y: System, a: Action)
    requires Inv(y) && Plain(y.c) && CarefulCall(a) && y.c.log.lost == {}
    ensures !Breaks(y, a) && Inv(Step(y, a)) && Plain(Step(y, a).c) && Step(y, a).c.log.lost == {}
  {
    hide Inv, Step, CarefulCall, LosesNext, Takes, Unpad, Receive, ChannelOf, ControlMessage, Loses, Plain;
    OpenNamed(y);
    StepKeeps(y, a);
    PlainStep(y, a);
    PlainUnmarked(y.c);
    LossIff(y, a);
    var m := ControlMessage(y.c.e, y.sc);
    if m.Some? { PlainLosesNothing(y.c.e, m.value); }
    NothingLost(y);
  }

  lemma NothingLost(y: System)
    requires ControlMessage(y.c.e, y.sc).Some? ==> Loses(y.c.e, ControlMessage(y.c.e, y.sc).value) == {}
    ensures LosesNext(y) == {}
  {
    hide ControlMessage, Loses;
  }

  lemma PlainUnmarked(n: Node)
    requires Plain(n)
    ensures forall i :: i in n.e.chans ==> !n.e.chans[i].reconnect
  {
  }

  lemma {:induction false} CarefulKeeps(y: System, actions: seq<Action>)
    requires Inv(y) && Plain(y.c) && Careful(actions) && y.c.log.lost == {}
    ensures Inv(Run(y, actions)) && Plain(Run(y, actions).c) && Run(y, actions).c.log.lost == {}
    decreases actions
  {
    hide Inv, Plain, Step, Breaks, CarefulCall;
    if actions != [] {
      var front, last := actions[..|actions| - 1], actions[|actions| - 1];
      CarefulKeeps(y, front);
      PlainLasts(Run(y, front), last);
    }
  }

  lemma PlainInit(fdcan: bool, mtu: nat, session: word)
    ensures Plain(Init(fdcan, mtu, session).c) && Init(fdcan, mtu, session).c.log.lost == {}
  {
    hide ChannelIv, Not, AckPacket;
  }

  lemma StartsWell(fdcan: bool, mtu: nat, session: word)
    requires UsableMtu(fdcan, mtu)
    ensures Inv(Init(fdcan, mtu, session))
  {
    hide Inv, Init, StoredMtu;
    InitInv(fdcan, mtu, session);
  }

  /** After careful calls the session lasts and no channel loses anything,
      whatever is lost, repeated or delayed on the wire. */
  lemma CarefulLasts(fdcan: bool, mtu: nat, session: word, actions: seq<Action>)
    requires UsableMtu(fdcan, mtu) && Careful(actions)
    ensures var y := Run(Init(fdcan, mtu, session), actions); !y.broken && y.c.log.lost == {}
  {
    hide Inv, Plain, Init, UsableMtu, Careful;
    StartsWell(fdcan, mtu, session);
    PlainInit(fdcan, mtu, session);
    CarefulKeeps(Init(fdcan, mtu, session), actions);
    StepReady(Run(Init(fdcan, mtu, session), actions));
  }

  /** End-to-end delivery, both ways, for careful calls. */
  lemma CarefulEndToEnd(fdcan: bool, mtu: nat, session: word, actions: seq<Action>, id: nat)
    requires UsableMtu(fdcan, mtu) && Careful(actions) && id != CMC
    ensures var y := Run(Init(fdcan, mtu, session), actions);
      && !y.broken
      && (id in y.s.e.chans ==> id in y.c.e.chans && Delivered(y.c, y.s, id) && Delivered(y.s, y.c, id))
  {
    hide Delivered, Init, UsableMtu, Careful, Run;
    CarefulLasts(fdcan, mtu, session, actions);
    EndToEnd(fdcan, mtu, session, actions, id);
  }
}
