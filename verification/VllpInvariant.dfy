/** The invariant of a VLLP session, in the parts that different steps touch. */
module VllpInvariant {
  import opened Common
  import opened Crc32
  import opened VllpFrames
  import opened VllpEndpoint
  import opened VllpLink
  import opened VllpSession
  import opened VllpWellFormed
  import opened VllpStreams

  // ---------------------------------------------------------------------
  // Link
  // ---------------------------------------------------------------------

  function NormOf(p: Option<bytes>): Option<bytes> {
    if p.Some? && |p.value| >= 1 then Some(Norm(p.value)) else None
  }

  function EndOf(n: Node): End {
    End(HasS(n.e.se), HasE(n.e.se), NormOf(n.e.currentTx), n.log.started, n.log.accepted)
  }

  /** A packet the other end will take as a data packet or an acknowledgement. */
  predicate PacketOk(session: word, p: bytes) {
    && |p| >= 1
    && p[0] != SYN
    && (ChannelOf(p[0]) == 15 ==> IsAck(p[0]))
    && (IsAck(p[0]) ==> |p| == 7 && Crc(session, p) == ALL_ONES)
  }

  predicate FlightOk(fdcan: bool, session: word, f: Flight) {
    var p := Unpad(fdcan, f.wire);
    p.Some? && PacketOk(session, p.value)
  }

  function SeenOf(p: bytes, started: nat, accepted: nat): Seen
    requires |p| >= 1
  {
    Seen(HasS(p[0]), HasE(p[0]), if ChannelOf(p[0]) == 15 then None else Some(Norm(p)), started, accepted)
  }

  function Decode(fdcan: bool, f: Flight): Seen {
    match Unpad(fdcan, f.wire)
    case None => Seen(false, false, None, f.started, f.accepted)
    case Some(p) => if |p| >= 1 then SeenOf(p, f.started, f.accepted) else Seen(false, false, None, f.started, f.accepted)
  }

  function DecodeAll(fdcan: bool, fs: seq<Flight>): (r: seq<Seen>)
    ensures |r| == |fs|
    ensures forall i :: 0 <= i < |fs| ==> r[i] == Decode(fdcan, fs[i])
  {
    seq(|fs|, i requires 0 <= i < |fs| => Decode(fdcan, fs[i]))
  }

  predicate FlightsOk(fdcan: bool, session: word, fs: seq<Flight>) {
    forall i :: 0 <= i < |fs| ==> FlightOk(fdcan, session, fs[i])
  }

  predicate Linked(x: Node, y: Node, xy: seq<Flight>, yx: seq<Flight>) {
    && LinkInv(EndOf(x), EndOf(y), DecodeAll(x.e.fdcan, xy), DecodeAll(x.e.fdcan, yx))
    && FlightsOk(x.e.fdcan, x.e.crcIV, xy)
    && FlightsOk(x.e.fdcan, x.e.crcIV, yx)
  }

  // ---------------------------------------------------------------------
  // Streams
  // ---------------------------------------------------------------------

  /** The initial value of the channel made by the k-th open. */
  function Base(session: word, k: nat): word { ChannelIv(session, IvAfter(0, k)) }

  /** Client and server use the value and its complement, crosswise. */
  function TxBase(server: bool, base: word): word { if server then base else Not(base) }
  function RxBase(server: bool, base: word): word { if server then Not(base) else base }

  predicate Quiet(ch: Chan, sent: seq<bytes>, got: seq<bytes>, read: seq<bytes>) {
    ch.txq == [] && ch.mtxq == sent && ch.rxbuf == [] && ch.rxq == [] && got == [] && read == []
  }

  /** What a channel has received is exactly the stream, unless it has lost data;
      then only the counts are right. */
  ghost predicate RxSide(lost: bool, id: nat, base: word, rxbuf: bytes, rxIV: word, got: seq<bytes>, accepted: seq<bytes>) {
    if lost then RxCounts(id, base, rxIV, got, accepted) else RxOk(id, base, rxbuf, rxIV, got, accepted)
  }

  ghost predicate StreamOk(server: bool, mtu: nat, base: word, id: nat, ch: Chan, sent: seq<bytes>, got: seq<bytes>,
                     started: seq<bytes>, accepted: seq<bytes>, lost: bool)
  {
    && mtu >= 2 && id < 15
    && TxOk(mtu, id, TxBase(server, base), ch.txq, ch.mtxq, ch.txIV, sent, started)
    && RxSide(lost, id, RxBase(server, base), ch.rxbuf, ch.rxIV, got, accepted)
    && (ch.state == OpenSent ==> ch.mtxq == sent)
  }

  ghost predicate ChanStream(server: bool, mtu: nat, session: word, i: nat, ch: Chan, l: Ledger) {
    if ch.state == PendingOpen then
      && Quiet(ch, At(l.sent, i), At(l.got, i), At(l.read, i))
      && Of(l.started, i) == []
    else
      && i in l.serial
      && StreamOk(server, mtu, Base(session, l.serial[i]), i, ch, At(l.sent, i), At(l.got, i), l.started, l.accepted, i in l.lost)
  }

  ghost predicate Streams(n: Node) {
    && (forall i :: i in n.e.chans ==> ChanStream(n.e.server, n.e.mtu, n.e.crcIV, i, n.e.chans[i], n.log))
    && (forall i :: i !in n.e.chans ==> Of(n.log.started, i) == [])
    && CMC !in n.log.lost
  }

  /** Between reassembly and the reader nothing is lost but what is known to be. */
  predicate Readers(n: Node) {
    forall i :: i in n.e.chans && i != CMC && i !in n.log.lost ==>
      At(n.log.read, i) + Messages(n.e.chans[i].rxq) == At(n.log.got, i)
  }

  // ---------------------------------------------------------------------
  // Control
  // ---------------------------------------------------------------------

  datatype Phase = Waiting | Asked | Open

  function PhaseOf(ch: Chan): Phase {
    match ch.state
    case PendingOpen => Waiting
    case OpenSent => Asked
    case _ => Open
  }

  function Phases(chans: Chans): map<nat, Phase> {
    map i | i in chans :: PhaseOf(chans[i])
  }

  predicate OpenOk(m: bytes) { |m| >= 1 && Opcode(m[0]) == 0 && ChannelOf(m[0]) < 14 }

  predicate AnswerOk(m: bytes, id: nat) { |m| == 3 && Opcode(m[0]) == 2 && ChannelOf(m[0]) == id }

  function OpenId(opens: seq<bytes>, j: nat): nat {
    if j < |opens| && |opens[j]| >= 1 then ChannelOf(opens[j][0]) else 15
  }

  /** The j-th open is the channel's current one. */
  predicate Serial(serial: map<nat, nat>, id: nat, j: nat) { id in serial && serial[id] == j + 2 }

  ghost predicate ClientControl(opens: seq<bytes>, handled: nat, phases: map<nat, Phase>, serial: map<nat, nat>) {
    && (forall j :: handled <= j < |opens| ==>
          OpenId(opens, j) in phases && phases[OpenId(opens, j)] == Asked && Serial(serial, OpenId(opens, j), j))
    && (forall i :: i in phases && i != CMC && phases[i] == Asked ==>
          i in serial && handled + 2 <= serial[i] < |opens| + 2 && OpenId(opens, serial[i] - 2) == i)
  }

  /** A channel of the server is the client's too, made by the same open, which
      was accepted; the client may have others. */
  ghost predicate ServerControl(opens: seq<bytes>, answers: seq<bytes>, ids: set<nat>, sserial: map<nat, nat>, phases: map<nat, Phase>, serial: map<nat, nat>) {
    forall i :: i in ids && i != CMC ==>
      && i in sserial && 2 <= sserial[i] < |answers| + 2
      && OpenId(opens, sserial[i] - 2) == i && Accepted(answers[sserial[i] - 2])
      && i in phases && phases[i] != Waiting && i in serial && serial[i] == sserial[i]
  }

  /** Opens, in the order sent; their answers, in the order given; and how many
      of the answers the client has handled. */
  ghost predicate Control(opens: seq<bytes>, answers: seq<bytes>, handled: nat,
                    phases: map<nat, Phase>, serial: map<nat, nat>, ids: set<nat>, sserial: map<nat, nat>)
  {
    && handled <= |answers| <= |opens|
    && (forall j :: 0 <= j < |opens| ==> OpenOk(opens[j]))
    && (forall j :: 0 <= j < |answers| ==> AnswerOk(answers[j], OpenId(opens, j)))
    && ClientControl(opens, handled, phases, serial)
    && ServerControl(opens, answers, ids, sserial, phases, serial)
    && CMC in serial && CMC in sserial && serial[CMC] == 1 && sserial[CMC] == 1
  }

  ghost predicate ControlOf(y: System) {
    && Control(At(y.c.log.sent, CMC), At(y.s.log.sent, CMC), |At(y.c.log.got, CMC)|,
               Phases(y.c.e.chans), y.c.log.serial, y.s.e.chans.Keys, y.s.log.serial)
    && |At(y.s.log.sent, CMC)| == |At(y.s.log.got, CMC)|
    && y.c.e.ivCount == IvAfter(0, |At(y.c.log.sent, CMC)| + 1)
    && y.s.e.ivCount == IvAfter(0, |At(y.s.log.got, CMC)| + 1)
  }

  // ---------------------------------------------------------------------
  // All of it
  // ---------------------------------------------------------------------

  predicate SameLink(c: Endpoint, s: Endpoint) {
    && !c.server && s.server
    && c.fdcan == s.fdcan && c.mtu == s.mtu && c.crcIV == s.crcIV
    && s.connected && s.freeIds == {}
  }

  /** Channel `i` has received exactly the stream, and its reader lacks nothing. */
  ghost predicate Whole(n: Node, i: nat) {
    && i in n.e.chans && i in n.log.serial
    && RxOk(i, RxBase(n.e.server, Base(n.e.crcIV, n.log.serial[i])), n.e.chans[i].rxbuf, n.e.chans[i].rxIV,
            At(n.log.got, i), n.log.accepted)
    && At(n.log.read, i) + Messages(n.e.chans[i].rxq) == At(n.log.got, i)
  }

  /** Only the client loses data, and only on channels the server has. */
  predicate Losses(y: System) {
    y.s.log.lost == {} && forall i :: i in y.c.log.lost ==> i in y.s.e.chans
  }

  ghost predicate Inv(y: System) {
    && !y.broken
    && SameLink(y.c.e, y.s.e)
    && Wf(y.c.e) && Wf(y.s.e)
    && Linked(y.c, y.s, y.cs, y.sc)
    && Streams(y.c) && Streams(y.s)
    && Readers(y.c) && Readers(y.s)
    && ControlOf(y) && Losses(y)
  }

  // ---------------------------------------------------------------------
  // It holds at the start
  // ---------------------------------------------------------------------

  lemma AckPacketOk(e: Endpoint)
    requires IsSE(e.se)
    ensures PacketOk(e.crcIV, AckPacket(e))
    ensures HasS(AckPacket(e)[0]) == HasS(e.se) && HasE(AckPacket(e)[0]) == HasE(e.se)
    ensures ChannelOf(AckPacket(e)[0]) == 15
    ensures |AckPacket(e)| == 7
  {
    hide Crc, Seal, HasS, HasE, ChannelOf, IsAck, AckBits, FlowLow, FlowHigh, IsSE;
    AckHeader(e.se);
    SealedThree(e.crcIV, AckBits(e.se), FlowLow(e.localFlow), FlowHigh(e.localFlow));
  }

  lemma SealedThree(iv: word, a: byte, b: byte, c: byte)
    ensures |Seal(iv, [a, b, c])| == 7 && Seal(iv, [a, b, c])[0] == a
    ensures Crc(iv, Seal(iv, [a, b, c])) == ALL_ONES
  {
    hide Crc, LittleEndian, Not;
    SealedResidue(iv, [a, b, c]);
  }

  lemma AckHeader(se: byte)
    requires IsSE(se)
    ensures var h := AckBits(se);
      h != SYN && IsAck(h) && ChannelOf(h) == 15 && HasS(h) == HasS(se) && HasE(h) == HasE(se)
  {
    assert (se | 0x1F) & 0x0F == 0x0F;
  }

  lemma UnpadShort(fdcan: bool, p: bytes)
    requires 1 <= |p| <= 8
    ensures Unpad(fdcan, p) == Some(p)
  {
    assert p[..|p|] == p;
  }

  lemma StartStreams(server: bool, fdcan: bool, mtu: nat, session: word)
    requires StoredMtu(fdcan, mtu) >= 2
    ensures Streams(Node(StartSession(Fresh(server, fdcan, mtu), session), FreshLedger()))
  {
    hide ChannelIv, Not, StoredMtu, TxOk, RxOk;
    var n := Node(StartSession(Fresh(server, fdcan, mtu), session), FreshLedger());
    assert IvAfter(0, 1) == NextIv(IvAfter(0, 0)) == 1;
    var base := Base(session, 1);
    TxStart(n.e.mtu, CMC, TxBase(server, base), [], []);
    RxStart(CMC, RxBase(server, base), []);
  }

  lemma StartControl(fdcan: bool, mtu: nat, session: word)
    ensures ControlOf(Init(fdcan, mtu, session))
  {
    hide ChannelIv, Not, StoredMtu, AckPacket;
    assert IvAfter(0, 1) == NextIv(IvAfter(0, 0)) == 1;
  }

  lemma StartLinked(fdcan: bool, mtu: nat, session: word)
    ensures var y := Init(fdcan, mtu, session); Linked(y.c, y.s, y.cs, y.sc)
  {
    hide ChannelIv, Not, StoredMtu, AckPacket, HasS, HasE, ChannelOf, LinkInv, PacketOk, Unpad;
    var y := Init(fdcan, mtu, session);
    assert IsSE(HDR_E);
    EBits();
    AckPacketOk(y.s.e);
    UnpadShort(fdcan, AckPacket(y.s.e));
    var x := End(false, true, None, [], []);
    InitialLink();
    LinkSym(x, x, [], []);
    SendKeepsLink(x, x, [], [], None);
    assert [] + [Announce(x, None)] == [Announce(x, None)];
    LinkSym(x, x, [Announce(x, None)], []);
    assert DecodeAll(fdcan, y.sc) == [Announce(x, None)];
    assert DecodeAll(fdcan, y.cs) == [];
  }

  lemma EBits()
    ensures !HasS(HDR_E) && HasE(HDR_E)
  {
  }

  lemma LinkSym(x: End, y: End, xy: seq<Seen>, yx: seq<Seen>)
    requires LinkInv(x, y, xy, yx)
    ensures LinkInv(y, x, yx, xy)
  {
    hide Half;
  }

  lemma InitInv(fdcan: bool, mtu: nat, session: word)
    requires StoredMtu(fdcan, mtu) >= 2 && (fdcan ==> StoredMtu(fdcan, mtu) <= 63)
    ensures Inv(Init(fdcan, mtu, session))
  {
    hide Wf, Linked, Streams, ControlOf, ChannelIv, Not, StoredMtu, AckPacket;
    WfStart(false, fdcan, mtu, session);
    WfStart(true, fdcan, mtu, session);
    StartStreams(false, fdcan, mtu, session);
    StartStreams(true, fdcan, mtu, session);
    StartLinked(fdcan, mtu, session);
    StartControl(fdcan, mtu, session);
  }
}
