/** A round trip that is not lost always clears the outstanding packet, so a
    link that keeps retransmitting over a fair wire cannot stall. */
module VllpProgress {
  import opened Common
  import opened Crc32
  import opened VllpFrames
  import opened VllpEndpoint
  import opened VllpLink
  import opened VllpSession
  import opened VllpWellFormed
  import opened VllpInvariant
  import opened VllpTxSteps
  import opened VllpRxSteps
  import opened VllpRuns

  /** One packet, sent with the end's counts, and carrying its outstanding
      fragment if any. */
  predicate Speaks(x: Node, n: Node, out: seq<Flight>) {
    |out| == 1 &&
    var p := Unpad(x.e.fdcan, out[0].wire);
    && p.Some? && |p.value| >= 1
    && out[0].accepted == |x.log.accepted| && n.log.accepted == x.log.accepted
    && n.e.connected == x.e.connected && n.e.fdcan == x.e.fdcan
    && (x.e.currentTx.Some? ==>
          ChannelOf(p.value[0]) != 15 && n.log == x.log && out[0].started == |x.log.started|)
  }

  lemma RetransmitSpeaks(x: Node)
    requires Wf(x.e) && ScanReady(x.e) && x.e.connected && x.e.currentTx.Some?
    ensures var (n, out) := TxNode(x, true, true); Speaks(x, n, out)
  {
    hide Wf, ScanReady, Transmit, Unpad, PacketOk, HasS, HasE, ChannelOf, Norm;
    TransmitFacts(x.e);
  }

  lemma StartSpeaks(x: Node)
    requires Wf(x.e) && ScanReady(x.e) && x.e.connected && x.e.currentTx.None?
    requires x.e.mtu >= 2 && forall i :: i in x.e.active ==> i in x.e.chans && i < 15
    requires Scan(x.e.mtu, x.e.remoteFlow, x.e.active, x.e.chans, 0).pos < |x.e.active|
    ensures var (n, out) := TxNode(x, true, true); Speaks(x, n, out)
  {
    hide Wf, ScanReady, Transmit, Unpad, PacketOk, HasS, HasE, ChannelOf, Norm, Scan, IsSE, ToggleS, SetFlow, FragOf;
    var pick := Scan(x.e.mtu, x.e.remoteFlow, x.e.active, x.e.chans, 0);
    WfScan(x.e, pick);
    PickedChan(x.e, pick);
    WfStartPacket(x.e, pick);
    var e1 := StartPacket(x.e, pick);
    TransmitFacts(e1);
  }

  lemma AckSpeaks(x: Node)
    requires Wf(x.e) && ScanReady(x.e) && x.e.connected && x.e.currentTx.None?
    requires x.e.mtu >= 2 && forall i :: i in x.e.active ==> i in x.e.chans && i < 15
    requires Scan(x.e.mtu, x.e.remoteFlow, x.e.active, x.e.chans, 0).pos == |x.e.active|
    ensures var (n, out) := TxNode(x, true, true); Speaks(x, n, out)
  {
    hide Wf, ScanReady, Unpad, PacketOk, HasS, HasE, ChannelOf, Norm, Scan, IsSE, AckPacket;
    var pick := Scan(x.e.mtu, x.e.remoteFlow, x.e.active, x.e.chans, 0);
    var e1 := x.e.(chans := pick.chans);
    SeOf(x.e);
    AckPacketOk(e1);
    UnpadShort(x.e.fdcan, AckPacket(e1));
  }

  /** A connected end whose timers are due always puts a packet on the wire. */
  lemma DueSpeaks(x: Node)
    requires Wf(x.e) && ScanReady(x.e) && x.e.connected
    ensures var (n, out) := TxNode(x, true, true); Speaks(x, n, out)
  {
    hide Wf, ScanReady, TxNode, Scan, Speaks;
    ScanReadyFits(x.e);
    if x.e.currentTx.Some? {
      RetransmitSpeaks(x);
    } else if Scan(x.e.mtu, x.e.remoteFlow, x.e.active, x.e.chans, 0).pos < |x.e.active| {
      StartSpeaks(x);
    } else {
      AckSpeaks(x);
    }
  }

  // ---------------------------------------------------------------------
  // Hearing one packet
  // ---------------------------------------------------------------------

  lemma LogRxAccepts(l: Ledger, e: Endpoint, pkt: bytes, verdict: word)
    requires |pkt| >= 1
    ensures LogRx(l, e, pkt, verdict).accepted == if Takes(e, pkt) then l.accepted + [Norm(pkt)] else l.accepted
    ensures LogRx(l, e, pkt, verdict).started == l.started
  {
    hide Takes, Norm, Completed, ChannelOf, ResponseMessage, Loses;
  }

  /** A packet carrying x's latest fragment is taken exactly when y lacks it. */
  lemma LatestIsTaken(x: Node, y: Node, xy: seq<Flight>, yx: seq<Flight>, pkt: bytes)
    requires Linked(x, y, xy, yx) && xy != [] && xy[0].started == |x.log.started| && y.e.connected
    requires Unpad(x.e.fdcan, xy[0].wire) == Some(pkt) && |pkt| >= 1 && ChannelOf(pkt[0]) != 15 && pkt[0] != SYN
    ensures Takes(y.e, pkt) <==> |x.log.started| == |y.log.accepted| + 1
    ensures y.log.accepted <= x.log.started && |x.log.started| <= |y.log.accepted| + 1
  {
    hide AckOk, DataOrdered, AckOrdered, FlightsOk, HasS, HasE, Norm, Unpad, ChannelOf;
    DecodePacket(x.e.fdcan, xy[0], pkt);
    AckChannel(pkt[0]);
    assert DecodeAll(x.e.fdcan, xy)[0] == Decode(x.e.fdcan, xy[0]);
  }

  /** A packet sent after y had all of x's fragments confirms them to x. */
  lemma LatestIsConfirmed(x: Node, y: Node, xy: seq<Flight>, yx: seq<Flight>, pkt: bytes)
    requires Linked(x, y, xy, yx) && yx != [] && yx[0].accepted == |x.log.started|
    requires Unpad(x.e.fdcan, yx[0].wire) == Some(pkt) && |pkt| >= 1
    ensures PeerAccepted(pkt[0], x.e.se)
  {
    hide DataOk, DataOrdered, AckOrdered, FlightsOk, HasS, HasE, Norm, Unpad, ChannelOf;
    DecodePacket(x.e.fdcan, yx[0], pkt);
    assert DecodeAll(x.e.fdcan, yx)[0] == Decode(x.e.fdcan, yx[0]);
  }

  /** The server has the client's fragment once it has heard a packet that carries it. */
  lemma ServerHears(y: System, verdict: word)
    requires Inv(y) && y.cs != [] && y.cs[0].started == |y.c.log.started| && !Step(y, ServerRx(verdict)).broken
    requires var p := Unpad(y.c.e.fdcan, y.cs[0].wire); p.Some? && |p.value| >= 1 && ChannelOf(p.value[0]) != 15
    ensures Step(y, ServerRx(verdict)).s.log.accepted == y.c.log.started
  {
    hide Inv, Wf, Linked, Streams, Readers, ControlOf, HandleRx, ScanReady, Unpad, LogRx, Norm, Takes, ChannelOf, PacketOk;
    StepReady(y);
    InvParts(y);
    ServerHasConnection(y);
    StepKeeps(y, ServerRx(verdict));
    var z := Step(y, ServerRx(verdict));
    InvParts(z);
    FlightPacket(y.c, y.s, y.cs, y.sc);
    var p := Unpad(y.c.e.fdcan, y.cs[0].wire).value;
    PacketNotSyn(y.c.e.crcIV, p);
    LatestIsTaken(y.c, y.s, y.cs, y.sc, p);
    LogRxAccepts(y.s.log, y.s.e, p, verdict);
    AcceptedAll(z.c, z.s, z.cs, z.sc);
  }

  lemma ClientHears(y: System)
    requires Inv(y) && y.sc != [] && y.sc[0].started == |y.s.log.started| && !Step(y, ClientRx).broken && y.c.e.connected
    requires var p := Unpad(y.c.e.fdcan, y.sc[0].wire); p.Some? && |p.value| >= 1 && ChannelOf(p.value[0]) != 15
    ensures Step(y, ClientRx).c.log.accepted == y.s.log.started
  {
    hide Inv, Wf, Linked, Streams, Readers, ControlOf, HandleRx, ScanReady, Unpad, LogRx, Norm, Takes, ChannelOf, PacketOk;
    StepReady(y);
    InvParts(y);
    StepKeeps(y, ClientRx);
    var z := Step(y, ClientRx);
    InvParts(z);
    LinkedSym(y.c, y.s, y.cs, y.sc);
    LinkedSym(z.c, z.s, z.cs, z.sc);
    FlightPacket(y.s, y.c, y.sc, y.cs);
    var p := Unpad(y.c.e.fdcan, y.sc[0].wire).value;
    PacketNotSyn(y.s.e.crcIV, p);
    LatestIsTaken(y.s, y.c, y.sc, y.cs, p);
    LogRxAccepts(y.c.log, y.c.e, p, 0);
    AcceptedAll(z.s, z.c, z.sc, z.cs);
  }

  lemma AcceptedAll(x: Node, y: Node, xy: seq<Flight>, yx: seq<Flight>)
    requires Linked(x, y, xy, yx)
    ensures y.log.accepted <= x.log.started
    ensures |y.log.accepted| == |x.log.started| ==> y.log.accepted == x.log.started
  {
    hide DataOk, AckOk, DataOrdered, AckOrdered, FlightsOk, DecodeAll, HasS, HasE;
  }

  lemma ConfirmedDrops(y: Node, wire: bytes, pkt: bytes, verdict: word)
    requires CMC in y.e.chans && Unpad(y.e.fdcan, wire) == Some(pkt) && |pkt| >= 1 && PacketOk(y.e.crcIV, pkt)
    requires y.e.connected && PeerAccepted(pkt[0], y.e.se) && RxNode(y, wire, verdict).1 == Ok
    ensures RxNode(y, wire, verdict).0.e.currentTx.None?
  {
    hide HandleRx, PacketOk, Unpad, PeerAccepted, Takes, LogRx;
    if Takes(y.e, pkt) {
      HandleTaken(y.e, pkt, verdict);
    } else {
      HandleQuiet(y.e, pkt, verdict);
    }
  }

  /** The client's packet is no longer outstanding once it has heard a packet
      sent after the server had its fragment. */
  lemma ClientConfirmed(y: System)
    requires Inv(y) && y.sc != [] && y.sc[0].accepted == |y.c.log.started| && !Step(y, ClientRx).broken && y.c.e.connected
    ensures Step(y, ClientRx).c.e.currentTx.None?
  {
    hide Inv, Wf, Linked, Streams, Readers, ControlOf, RxNode, ScanReady, Unpad, PeerAccepted, PacketOk;
    StepReady(y);
    InvParts(y);
    LinkedSym(y.c, y.s, y.cs, y.sc);
    FlightPacket(y.s, y.c, y.sc, y.cs);
    var p := Unpad(y.c.e.fdcan, y.sc[0].wire).value;
    LatestIsConfirmed(y.c, y.s, y.cs, y.sc, p);
    ConfirmedDrops(y.c, y.sc[0].wire, p, 0);
  }

  lemma ServerConfirmed(y: System, verdict: word)
    requires Inv(y) && y.cs != [] && y.cs[0].accepted == |y.s.log.started| && !Step(y, ServerRx(verdict)).broken
    ensures Step(y, ServerRx(verdict)).s.e.currentTx.None?
  {
    hide Inv, Wf, Linked, Streams, Readers, ControlOf, RxNode, ScanReady, Unpad, PeerAccepted, PacketOk;
    StepReady(y);
    InvParts(y);
    ServerHasConnection(y);
    LinkedSym(y.c, y.s, y.cs, y.sc);
    FlightPacket(y.c, y.s, y.cs, y.sc);
    var p := Unpad(y.s.e.fdcan, y.cs[0].wire).value;
    LatestIsConfirmed(y.s, y.c, y.sc, y.cs, p);
    ConfirmedDrops(y.s, y.cs[0].wire, p, verdict);
  }

  // ---------------------------------------------------------------------
  // Hearing all that is in flight
  // ---------------------------------------------------------------------

  /** The server handles as many packets, deciding each open it meets. */
  function ServerListens(verdicts: seq<word>): seq<Action>
    decreases verdicts
  {
    if verdicts == [] then []
    else ServerListens(verdicts[..|verdicts| - 1]) + [ServerRx(verdicts[|verdicts| - 1])]
  }

  function ClientListens(n: nat): seq<Action> {
    if n == 0 then [] else ClientListens(n - 1) + [ClientRx]
  }

  lemma RunSnoc(y: System, actions: seq<Action>, a: Action)
    ensures Run(y, actions + [a]) == Step(Run(y, actions), a)
  {
    hide Step;
    assert (actions + [a])[..|actions + [a]| - 1] == actions;
  }

  lemma {:induction false} ServerDrains(y: System, verdicts: seq<word>)
    requires Inv(y) && |verdicts| <= |y.cs| && !Run(y, ServerListens(verdicts)).broken
    ensures var z := Run(y, ServerListens(verdicts));
      Inv(z) && z.c == y.c && z.sc == y.sc && z.cs == y.cs[|verdicts|..] && z.s.log.started == y.s.log.started
    decreases verdicts
  {
    hide Inv, Step, Run;
    if verdicts == [] {
      NoActions(y);
    } else {
      var k := |verdicts| - 1;
      var front := ServerListens(verdicts[..k]);
      var w := Run(y, front);
      RunSnoc(y, front, ServerRx(verdicts[k]));
      BrokenStays(w, ServerRx(verdicts[k]));
      ServerDrains(y, verdicts[..k]);
      ServerHeard(w, verdicts[k]);
    }
  }

  lemma NoActions(y: System)
    ensures Run(y, []) == y
  {
  }

  lemma ServerHeard(y: System, verdict: word)
    requires Inv(y) && y.cs != [] && !Step(y, ServerRx(verdict)).broken
    ensures var z := Step(y, ServerRx(verdict));
      Inv(z) && z.c == y.c && z.sc == y.sc && z.cs == y.cs[1..] && z.s.log.started == y.s.log.started
  {
    hide Inv, Wf, Linked, Streams, Readers, ControlOf, HandleRx, ScanReady, Unpad, LogRx, PacketOk;
    StepReady(y);
    InvParts(y);
    StepKeeps(y, ServerRx(verdict));
    FlightPacket(y.c, y.s, y.cs, y.sc);
    LogRxAccepts(y.s.log, y.s.e, Unpad(y.c.e.fdcan, y.cs[0].wire).value, verdict);
  }

  lemma {:induction false} ClientDrains(y: System, n: nat)
    requires Inv(y) && n <= |y.sc| && !Run(y, ClientListens(n)).broken
    ensures var z := Run(y, ClientListens(n));
      && Inv(z) && z.s == y.s && z.cs == y.cs && z.sc == y.sc[n..] && z.c.log.started == y.c.log.started
      && (y.c.e.connected ==> z.c.e.connected) && z.c.e.fdcan == y.c.e.fdcan
    decreases n
  {
    hide Inv, Step, Run;
    if n == 0 {
      NoActions(y);
    } else {
      var front := ClientListens(n - 1);
      var w := Run(y, front);
      RunSnoc(y, front, ClientRx);
      BrokenStays(w, ClientRx);
      ClientDrains(y, n - 1);
      ClientHeard(w);
    }
  }

  lemma ClientHeard(y: System)
    requires Inv(y) && y.sc != [] && !Step(y, ClientRx).broken
    ensures var z := Step(y, ClientRx);
      && Inv(z) && z.s == y.s && z.cs == y.cs && z.sc == y.sc[1..] && z.c.log.started == y.c.log.started
      && (y.c.e.connected ==> z.c.e.connected) && z.c.e.fdcan == y.c.e.fdcan
  {
    hide Inv, Wf, Linked, Streams, Readers, ControlOf, HandleRx, ScanReady, Unpad, LogRx, PacketOk;
    StepReady(y);
    InvParts(y);
    StepKeeps(y, ClientRx);
    InvParts(Step(y, ClientRx));
    LinkedSym(y.c, y.s, y.cs, y.sc);
    FlightPacket(y.s, y.c, y.sc, y.cs);
    var p := Unpad(y.c.e.fdcan, y.sc[0].wire).value;
    LogRxAccepts(y.c.log, y.c.e, p, 0);
    ClientRxStep(y);
  }

  // ---------------------------------------------------------------------
  // The round trip
  // ---------------------------------------------------------------------

  lemma ClientSpeaks(y: System)
    requires Inv(y) && y.c.e.connected
    ensures var z := Step(y, ClientTx(true, true));
      && Inv(z) && z.s == y.s && z.sc == y.sc && |z.cs| == |y.cs| + 1 && z.cs[..|y.cs|] == y.cs
      && Speaks(y.c, z.c, [z.cs[|y.cs|]])
  {
    hide Inv, Wf, Linked, Streams, Readers, ControlOf, TxNode, ScanReady, Speaks;
    StepReady(y);
    InvParts(y);
    StepKeeps(y, ClientTx(true, true));
    DueSpeaks(y.c);
    var (n, out) := TxNode(y.c, true, true);
    SpeaksOnce(y.c, n, out);
    assert (y.cs + out)[|y.cs|..] == out;
  }

  lemma ServerSpeaks(y: System)
    requires Inv(y)
    ensures var z := Step(y, ServerTx(true, true));
      && Inv(z) && z.c == y.c && z.cs == y.cs && |z.sc| == |y.sc| + 1 && z.sc[..|y.sc|] == y.sc
      && Speaks(y.s, z.s, [z.sc[|y.sc|]])
  {
    hide Inv, Wf, Linked, Streams, Readers, ControlOf, TxNode, ScanReady, Speaks;
    StepReady(y);
    InvParts(y);
    ServerHasConnection(y);
    StepKeeps(y, ServerTx(true, true));
    DueSpeaks(y.s);
    var (n, out) := TxNode(y.s, true, true);
    SpeaksOnce(y.s, n, out);
    assert (y.sc + out)[|y.sc|..] == out;
  }

  lemma SpeaksOnce(x: Node, n: Node, out: seq<Flight>)
    requires Speaks(x, n, out)
    ensures |out| == 1 && [out[0]] == out
  {
  }

  /** The server handles everything in flight, the last packet carrying the
      client's outstanding fragment. */
  lemma ServerCatchesUp(y: System, verdicts: seq<word>)
    requires Inv(y) && y.cs != [] && |verdicts| == |y.cs| && !Run(y, ServerListens(verdicts)).broken
    requires y.cs[|y.cs| - 1].started == |y.c.log.started|
    requires var p := Unpad(y.c.e.fdcan, y.cs[|y.cs| - 1].wire); p.Some? && |p.value| >= 1 && ChannelOf(p.value[0]) != 15
    ensures var z := Run(y, ServerListens(verdicts));
      Inv(z) && z.c == y.c && z.sc == y.sc && z.s.log.accepted == y.c.log.started
  {
    hide Inv, Step, Run, Unpad, ChannelOf;
    var k := |verdicts| - 1;
    var w := Run(y, ServerListens(verdicts[..k]));
    RunSnoc(y, ServerListens(verdicts[..k]), ServerRx(verdicts[k]));
    BrokenStays(w, ServerRx(verdicts[k]));
    ServerDrains(y, verdicts[..k]);
    ServerDrains(y, verdicts);
    ServerHears(w, verdicts[k]);
  }

  lemma ClientCatchesUp(y: System)
    requires Inv(y) && y.sc != [] && !Run(y, ClientListens(|y.sc|)).broken && y.c.e.connected
    requires y.sc[|y.sc| - 1].started == |y.s.log.started|
    requires var p := Unpad(y.c.e.fdcan, y.sc[|y.sc| - 1].wire); p.Some? && |p.value| >= 1 && ChannelOf(p.value[0]) != 15
    ensures var z := Run(y, ClientListens(|y.sc|));
      Inv(z) && z.s == y.s && z.cs == y.cs && z.c.log.accepted == y.s.log.started && z.c.e.connected
  {
    hide Inv, Step, Run, Unpad, ChannelOf;
    var n := |y.sc|;
    var w := Run(y, ClientListens(n - 1));
    RunSnoc(y, ClientListens(n - 1), ClientRx);
    BrokenStays(w, ClientRx);
    ClientDrains(y, n - 1);
    ClientDrains(y, n);
    ClientHears(w);
  }

  /** Whatever was lost before and whatever is still in flight: the client sends
      once more, the server handles all it is sent and sends, the client handles
      all it is sent. If the session lasts, the outstanding fragment has been
      accepted exactly once and is no longer outstanding. */
  lemma RoundTripClears(y: System, verdicts: seq<word>)
    requires Inv(y) && y.c.e.connected && y.c.e.currentTx.Some? && |verdicts| == |y.cs| + 1
    ensures var y1 := Run(Step(y, ClientTx(true, true)), ServerListens(verdicts));
      var z := Run(Step(y1, ServerTx(true, true)), ClientListens(|y1.sc| + 1));
      !z.broken ==>
        Inv(z) && z.c.e.currentTx.None? && z.c.log.started == y.c.log.started && z.s.log.accepted == y.c.log.started
  {
    hide Inv, Step, Run, Unpad, ChannelOf;
    var y0 := Step(y, ClientTx(true, true));
    var y1 := Run(y0, ServerListens(verdicts));
    var y2 := Step(y1, ServerTx(true, true));
    var n := |y1.sc| + 1;
    var z := Run(y2, ClientListens(n));
    if !z.broken {
      ClientSpeaks(y);
      BrokenRun(y2, ClientListens(n));
      BrokenStays(y1, ServerTx(true, true));
      ServerCatchesUp(y0, verdicts);
      ServerSpeaks(y1);
      var w := Run(y2, ClientListens(n - 1));
      RunSnoc(y2, ClientListens(n - 1), ClientRx);
      BrokenStays(w, ClientRx);
      ClientDrains(y2, n - 1);
      ClientDrains(y2, n);
      ClientConfirmed(w);
    }
  }

  /** The same for the server's outstanding fragment, once the client has seen the
      connection accepted. */
  lemma ServerRoundTripClears(y: System, verdicts: seq<word>)
    requires Inv(y) && y.c.e.connected && y.s.e.currentTx.Some?
    requires var y1 := Run(Step(y, ServerTx(true, true)), ClientListens(|y.sc| + 1)); |verdicts| == |y1.cs| + 1
    ensures var y1 := Run(Step(y, ServerTx(true, true)), ClientListens(|y.sc| + 1));
      var z := Run(Step(y1, ClientTx(true, true)), ServerListens(verdicts));
      !z.broken ==>
        Inv(z) && z.s.e.currentTx.None? && z.s.log.started == y.s.log.started && z.c.log.accepted == y.s.log.started
  {
    hide Inv, Step, Run, Unpad, ChannelOf;
    var y0 := Step(y, ServerTx(true, true));
    var y1 := Run(y0, ClientListens(|y.sc| + 1));
    var y2 := Step(y1, ClientTx(true, true));
    var k := |verdicts| - 1;
    var z := Run(y2, ServerListens(verdicts));
    if !z.broken {
      ServerSpeaks(y);
      SameSettings(y);
      BrokenRun(y2, ServerListens(verdicts));
      BrokenStays(y1, ClientTx(true, true));
      ClientCatchesUp(y0);
      ClientSpeaks(y1);
      var w := Run(y2, ServerListens(verdicts[..k]));
      RunSnoc(y2, ServerListens(verdicts[..k]), ServerRx(verdicts[k]));
      BrokenStays(w, ServerRx(verdicts[k]));
      ServerDrains(y2, verdicts[..k]);
      ServerDrains(y2, verdicts);
      ServerConfirmed(w, verdicts[k]);
    }
  }

  lemma {:induction false} BrokenRun(y: System, actions: seq<Action>)
    ensures y.broken ==> Run(y, actions) == y
    decreases actions
  {
    hide Step;
    if actions != [] {
      BrokenRun(y, actions[..|actions| - 1]);
      BrokenStays(y, actions[|actions| - 1]);
    }
  }
}
