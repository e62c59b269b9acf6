/** The guarantees of a VLLP session, over every run from the handshake. */
module VllpTheorems {
  import opened Common
  import opened Crc32
  import opened VllpFrames
  import opened VllpEndpoint
  import opened VllpLink
  import opened VllpSession
  import opened VllpWellFormed
  import opened VllpStreams
  import opened VllpInvariant
  import opened VllpTxSteps
  import opened VllpUserSteps
  import opened VllpRxSteps
  import opened VllpRuns

  /** Transfer units for which fragmentation and padding are faithful. */
  predicate UsableMtu(fdcan: bool, mtu: nat) {
    StoredMtu(fdcan, mtu) >= 2 && (fdcan ==> StoredMtu(fdcan, mtu) <= 63)
  }

  lemma Reached(fdcan: bool, mtu: nat, session: word, actions: seq<Action>)
    requires UsableMtu(fdcan, mtu) && !Run(Init(fdcan, mtu, session), actions).broken
    ensures Inv(Run(Init(fdcan, mtu, session), actions))
  {
    hide Inv, Init, StoredMtu;
    InitInv(fdcan, mtu, session);
    RunKeeps(Init(fdcan, mtu, session), actions);
  }

  // ---------------------------------------------------------------------
  // Link
  // ---------------------------------------------------------------------

  /** x's fragments reach y in order, once each, at most one is outstanding, it
      stays outstanding until y has it, and every copy on the wire is exact. */
  ghost predicate InOrderOnce(x: Node, y: Node, xy: seq<Flight>) {
    && y.log.accepted <= x.log.started
    && |x.log.started| <= |y.log.accepted| + 1
    && (x.e.currentTx.None? ==> y.log.accepted == x.log.started)
    && (x.e.currentTx.Some? ==> x.log.started != [] && |x.e.currentTx.value| >= 1
                                && Norm(x.e.currentTx.value) == x.log.started[|x.log.started| - 1])
    && forall i :: 0 <= i < |xy| ==> CopyExact(x, xy[i])
  }

  predicate CopyExact(x: Node, f: Flight) {
    var p := Unpad(x.e.fdcan, f.wire);
    && p.Some? && |p.value| >= 1
    && (ChannelOf(p.value[0]) != 15 ==>
          && 1 <= f.started <= |x.log.started| && Norm(p.value) == x.log.started[f.started - 1]
          && HasS(p.value[0]) == Odd(f.started))
  }

  lemma CopyIsExact(x: Node, y: Node, xy: seq<Flight>, yx: seq<Flight>, i: nat)
    requires Linked(x, y, xy, yx) && i < |xy|
    ensures CopyExact(x, xy[i])
  {
    hide Norm, ChannelOf, Unpad, AckOk, DataOrdered, AckOrdered, PacketOk;
    assert FlightOk(x.e.fdcan, x.e.crcIV, xy[i]);
    var p := Unpad(x.e.fdcan, xy[i].wire).value;
    PacketNotSyn(x.e.crcIV, p);
    DecodePacket(x.e.fdcan, xy[i], p);
    assert DecodeAll(x.e.fdcan, xy)[i] == Decode(x.e.fdcan, xy[i]);
  }

  lemma HalfInOrder(x: Node, y: Node, xy: seq<Flight>, yx: seq<Flight>)
    requires Linked(x, y, xy, yx) && Wf(x.e)
    ensures InOrderOnce(x, y, xy)
  {
    hide Norm, CopyExact, DataOk, AckOk, DataOrdered, AckOrdered, FlightsOk, DecodeAll, ChansOk, QueueOk, IsSE;
    forall i | 0 <= i < |xy|
      ensures CopyExact(x, xy[i])
    {
      CopyIsExact(x, y, xy, yx, i);
    }
  }

  /** In every run, as long as the session lasts. */
  lemma LinkSafety(fdcan: bool, mtu: nat, session: word, actions: seq<Action>)
    requires UsableMtu(fdcan, mtu)
    ensures var y := Run(Init(fdcan, mtu, session), actions);
      !y.broken ==> InOrderOnce(y.c, y.s, y.cs) && InOrderOnce(y.s, y.c, y.sc)
  {
    hide Inv, Init, InOrderOnce, UsableMtu, Wf, Linked, Streams, Readers, ControlOf;
    var y := Run(Init(fdcan, mtu, session), actions);
    if !y.broken {
      Reached(fdcan, mtu, session, actions);
      InvParts(y);
      HalfInOrder(y.c, y.s, y.cs, y.sc);
      LinkedSym(y.c, y.s, y.cs, y.sc);
      HalfInOrder(y.s, y.c, y.sc, y.cs);
    }
  }

  // ---------------------------------------------------------------------
  // End to end
  // ---------------------------------------------------------------------

  /** What y's reader has, and what waits for it, is what x sent, in order and
      without repetition; and all of it once x has nothing left to send. */
  predicate Delivered(x: Node, y: Node, id: nat)
    requires id in x.e.chans && id in y.e.chans
  {
    var has := At(y.log.read, id) + Messages(y.e.chans[id].rxq);
    && has <= At(x.log.sent, id)
    && (x.e.chans[id].txq == [] && x.e.chans[id].mtxq == [] && x.e.currentTx.None? ==>
          has == At(x.log.sent, id) && y.e.chans[id].rxbuf == [])
  }

  lemma AllSent(mtu: nat, id: nat, base: word, rxbuf: bytes, rxIV: word, got: seq<bytes>, txIV: word, sent: seq<bytes>, started: seq<bytes>)
    requires mtu >= 2 && id < 15
    requires RxOk(id, base, rxbuf, rxIV, got, started) && TxOk(mtu, id, base, [], [], txIV, sent, started)
    ensures got == sent && rxbuf == []
  {
    hide AbsorbAll, FragmentAll, IvAfter, Of;
    assert sent[..|sent|] == sent;
    var frags := Of(started, id);
    assert frags == FragmentAll(mtu, id, base, sent);
    AbsorbMessages(mtu, id, base, sent);
  }

  lemma JoinedDelivers(x: Node, y: Node, xy: seq<Flight>, yx: seq<Flight>, id: nat)
    requires Linked(x, y, xy, yx) && Wf(x.e) && Streams(x) && Streams(y) && Readers(y) && Joined(x, y, id)
    requires id != CMC && id !in y.log.lost
    ensures Delivered(x, y, id)
  {
    hide Linked, Wf, Streams, Readers, Messages, TxOk, RxOk, Base, TxBase, RxBase, CopyExact;
    HalfInOrder(x, y, xy, yx);
    StreamsAt(x, id);
    StreamsAt(y, id);
    ReadersAt(y, id);
    var base := Base(x.e.crcIV, x.log.serial[id]);
    CrossBase(x.e.server, base);
    var a, b := x.e.chans[id], y.e.chans[id];
    GotIsPrefix(x.e.mtu, id, TxBase(x.e.server, base), b.rxbuf, b.rxIV, At(y.log.got, id), y.log.accepted,
                a.txq, a.mtxq, a.txIV, At(x.log.sent, id), x.log.started);
    if a.txq == [] && a.mtxq == [] && x.e.currentTx.None? {
      AllSent(x.e.mtu, id, TxBase(x.e.server, base), b.rxbuf, b.rxIV, At(y.log.got, id), a.txIV, At(x.log.sent, id), x.log.started);
    }
  }

  /** In every run that lasts, the server reads on each of its channels exactly
      what the client sent; the client what the server sent, unless an acceptance
      threw data of that channel away. */
  lemma EndToEnd(fdcan: bool, mtu: nat, session: word, actions: seq<Action>, id: nat)
    requires UsableMtu(fdcan, mtu) && id != CMC
    ensures var y := Run(Init(fdcan, mtu, session), actions);
      !y.broken && id in y.s.e.chans ==>
        id in y.c.e.chans && Delivered(y.c, y.s, id) && (id !in y.c.log.lost ==> Delivered(y.s, y.c, id))
  {
    hide Inv, Init, UsableMtu, Wf, Linked, Streams, Readers, ControlOf, Delivered, Joined;
    var y := Run(Init(fdcan, mtu, session), actions);
    if !y.broken && id in y.s.e.chans {
      Reached(fdcan, mtu, session, actions);
      InvParts(y);
      NoServerLoss(y);
      JoinedDown(y, id);
      JoinedSym(y.s, y.c, id);
      JoinedBoth(y.s, y.c, id);
      JoinedDelivers(y.c, y.s, y.cs, y.sc, id);
      if id !in y.c.log.lost {
        LinkedSym(y.c, y.s, y.cs, y.sc);
        JoinedDelivers(y.s, y.c, y.sc, y.cs, id);
      }
    }
  }

  lemma JoinedBoth(x: Node, y: Node, id: nat)
    requires Joined(x, y, id)
    ensures id in x.e.chans && id in y.e.chans
  {
  }

  /** Nothing is ever read on a channel the server does not have. */
  lemma NothingFromNowhere(fdcan: bool, mtu: nat, session: word, actions: seq<Action>, id: nat)
    requires UsableMtu(fdcan, mtu) && id != CMC
    ensures var y := Run(Init(fdcan, mtu, session), actions);
      !y.broken && id in y.c.e.chans && id !in y.s.e.chans ==> At(y.c.log.read, id) + Messages(y.c.e.chans[id].rxq) == []
  {
    hide Inv, Init, UsableMtu, Wf, Linked, Streams, Readers, ControlOf, Messages, Of, TxOk, Base, TxBase, RxBase;
    var y := Run(Init(fdcan, mtu, session), actions);
    if !y.broken && id in y.c.e.chans && id !in y.s.e.chans {
      Reached(fdcan, mtu, session, actions);
      InvParts(y);
      if id in y.c.log.lost { LostAreServed(y, id); }
      NothingAccepted(y, id);
      StreamsAt(y.c, id);
      ReadersAt(y.c, id);
    }
  }

  lemma LostAreServed(y: System, id: nat)
    requires Inv(y) && id in y.c.log.lost
    ensures id in y.s.e.chans
  {
    hide Wf, Linked, Streams, Readers, ControlOf;
  }

  // ---------------------------------------------------------------------
  // Initial values
  // ---------------------------------------------------------------------

  /** x seals its next message on the channel with the value that y will have
      when it has reassembled all of x's earlier ones. */
  ghost predicate Agrees(x: Node, y: Node, id: nat, base: word)
    requires id in x.e.chans && id in y.e.chans
  {
    var cut := |At(x.log.sent, id)| - |x.e.chans[id].mtxq|;
    && cut >= 0
    && x.e.chans[id].txIV == IvAfter(base, cut)
    && y.e.chans[id].rxIV == IvAfter(base, |At(y.log.got, id)|)
    && |At(y.log.got, id)| <= cut
  }

  lemma JoinedAgrees(x: Node, y: Node, xy: seq<Flight>, yx: seq<Flight>, id: nat)
    requires Linked(x, y, xy, yx) && Streams(x) && Streams(y) && Joined(x, y, id)
    ensures Agrees(x, y, id, TxBase(x.e.server, Base(x.e.crcIV, x.log.serial[id])))
  {
    hide Linked, Streams, RxOk, FragmentAll, IvAfter, Of, Lasts, Base, TxBase, RxBase;
    LinkPrefixes(x, y, xy, yx);
    StreamsAt(x, id);
    StreamsAt(y, id);
    var base := Base(x.e.crcIV, x.log.serial[id]);
    CrossBase(x.e.server, base);
    var a, b := x.e.chans[id], y.e.chans[id];
    if id !in y.log.lost {
      RxOkCounts(id, TxBase(x.e.server, base), b.rxbuf, b.rxIV, At(y.log.got, id), y.log.accepted);
    }
    CountedWereCut(x.e.mtu, id, TxBase(x.e.server, base), b.rxIV, At(y.log.got, id), y.log.accepted,
                   a.txq, a.mtxq, a.txIV, At(x.log.sent, id), x.log.started);
  }

  /** The two ends number the channel's open alike, and draw its values from the
      session's by that number: one for what the server sends, its complement for
      what the client sends. */
  ghost predicate CrosswiseIvs(c: Node, s: Node, id: nat) {
    && id in c.e.chans && id in s.e.chans && id in c.log.serial && id in s.log.serial
    && c.log.serial[id] == s.log.serial[id] && c.e.crcIV == s.e.crcIV
    && var base := ChannelIv(s.e.crcIV, IvAfter(0, s.log.serial[id]));
       Agrees(s, c, id, base) && Agrees(c, s, id, Not(base))
  }

  /** Both ends derive a channel's initial values from the same count of opens,
      and use them crosswise, whatever the channel has lost. */
  lemma IvAgreement(fdcan: bool, mtu: nat, session: word, actions: seq<Action>, id: nat)
    requires UsableMtu(fdcan, mtu)
    ensures var y := Run(Init(fdcan, mtu, session), actions);
      !y.broken && id in y.s.e.chans ==> CrosswiseIvs(y.c, y.s, id)
  {
    hide Inv, Init, UsableMtu, Wf, Linked, Streams, Readers, ControlOf, Agrees, ChannelIv, Not, IvAfter;
    var y := Run(Init(fdcan, mtu, session), actions);
    if !y.broken && id in y.s.e.chans {
      Reached(fdcan, mtu, session, actions);
      InvParts(y);
      JoinedDown(y, id);
      JoinedSym(y.s, y.c, id);
      JoinedAgrees(y.c, y.s, y.cs, y.sc, id);
      LinkedSym(y.c, y.s, y.cs, y.sc);
      JoinedAgrees(y.s, y.c, y.sc, y.cs, id);
    }
  }
}
