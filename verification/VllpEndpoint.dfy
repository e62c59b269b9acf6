/** One end of a VLLP connection as a value, and what each locked run of the
    protocol code does to it. Client and server share the code; `server` selects
    the branches that differ. Wall-clock deadlines appear as the arguments that
    say which deadline has passed. */
module VllpEndpoint {
  import opened Common
  import opened Crc32
  import opened VllpFrames

  const SYN: byte := 0x0F
  const VERSION: byte := 2

  /** The control channel, which carries channel opens and their answers. */
  const CMC: nat := 14

  datatype ChanState = PendingOpen | OpenSent | Established | Active

  /** What a channel's reader finds in its queue. */
  datatype RxItem = Message(data: bytes) | Ready | Eof(lo: byte, hi: byte)

  datatype Chan = Chan(state: ChanState, reconnect: bool, name: bytes,
                       txq: seq<bytes>, mtxq: seq<bytes>, txIV: word,
                       rxIV: word, rxbuf: bytes, rxq: seq<RxItem>)

  /** A channel with nothing queued in either direction. */
  function MakeChan(state: ChanState, reconnect: bool, name: bytes, txIV: word, rxIV: word): Chan {
    Chan(state, reconnect, name, [], [], txIV, rxIV, [], [])
  }

  datatype Endpoint = Endpoint(
    server: bool, fdcan: bool, mtu: nat,
    connected: bool, se: byte, currentTx: Option<bytes>,
    crcIV: word, ivCount: word,
    remoteFlow: bv16, localFlow: bv16,
    freeIds: set<nat>, pending: seq<nat>, active: seq<nat>,
    chans: map<nat, Chan>)

  datatype Code = Ok | Malformed | BadState | ChecksumError | ShortMessage | OutOfSession

  /** `out` is the packet sent while handling, if any. */
  datatype RxResult = RxResult(e: Endpoint, code: Code, out: Option<bytes> := None)

  datatype TxResult = TxResult(e: Endpoint, out: Option<bytes>)

  /** What the code relies on: the control channel is always there, and every
      channel it queues is in the table. */
  predicate Valid(e: Endpoint) {
    && e.mtu >= 2
    && (e.fdcan ==> e.mtu <= 63)
    && CMC in e.chans
    && (forall i :: i in e.active ==> i in e.chans)
    && (forall i :: i in e.pending ==> i in e.chans)
    && (forall i :: i in e.chans ==> forall f :: f in e.chans[i].txq ==> 1 <= |f| <= e.mtu)
    && (e.currentTx.Some? ==> 1 <= |e.currentTx.value| <= e.mtu)
  }

  // ---------------------------------------------------------------------
  // Flow bits
  // ---------------------------------------------------------------------

  predicate FlowBit(w: bv16, id: nat)
    requires id < 16
  {
    (w >> id) & 1 == 1
  }

  function SetFlow(w: bv16, id: nat, on: bool): bv16
    requires id < 16
  {
    var bit: bv16 := 1 << id;
    if on then w | bit else w & !bit
  }

  function FlowLow(w: bv16): byte { (w & 0xFF) as byte }
  function FlowHigh(w: bv16): byte { (w >> 8) as byte }
  function FlowOf(lo: byte, hi: byte): bv16 { (lo as bv16) | ((hi as bv16) << 8) }

  lemma ChannelInRange(h: byte)
    ensures ChannelOf(h) < 16
  {
  }

  // ---------------------------------------------------------------------
  // Creation and connection
  // ---------------------------------------------------------------------

  const USER_IDS: set<nat> := {0, 1, 2, 3, 4, 5, 6, 7, 8, 9, 10, 11, 12, 13}

  function Fresh(server: bool, fdcan: bool, mtu: nat): Endpoint {
    Endpoint(server, fdcan, StoredMtu(fdcan, mtu), false, HDR_E, None, 0, 0, 0xFFFF, 0xFFFF,
             if server then {} else USER_IDS, [], [],
             map[CMC := MakeChan(Established, false, [], 0, 0)])
  }

  /** Per-channel initial values are drawn from the session's by a counter. */
  function ChannelIv(session: word, count: word): word { Crc(session, LittleEndian(count)) }

  /** The state in which a client has just sent, or a server just accepted, the
      connection request carrying `session`. */
  function StartSession(e: Endpoint, session: word): Endpoint
    requires CMC in e.chans
  {
    var iv := ChannelIv(session, 1);
    var cmc := if e.server then e.chans[CMC].(txIV := iv, rxIV := Not(iv))
               else e.chans[CMC].(txIV := Not(iv), rxIV := iv);
    e.(crcIV := session, ivCount := 1, connected := e.server, chans := e.chans[CMC := cmc])
  }

  function SynPacket(e: Endpoint): bytes {
    [SYN, VERSION, (e.mtu % 256) as byte] + LittleEndian(e.crcIV)
  }

  function WordOf(b: bytes): word
    requires |b| == 4
  {
    (((b[3] as word) << 24) | ((b[2] as word) << 16)) | (((b[1] as word) << 8) | (b[0] as word))
  }

  function AckBits(se: byte): byte { se | 0x1F }

  function AckPacket(e: Endpoint): bytes {
    Seal(e.crcIV, [AckBits(e.se), FlowLow(e.localFlow), FlowHigh(e.localFlow)])
  }

  // ---------------------------------------------------------------------
  // Sending on channels
  // ---------------------------------------------------------------------

  /** Queue a message; an established channel becomes active. */
  function SendMessage(e: Endpoint, id: nat, msg: bytes): Endpoint
    requires id in e.chans
  {
    var ch := e.chans[id];
    e.(chans := e.chans[id := SentChan(ch, msg)], active := if ch.state == Established then e.active + [id] else e.active)
  }

  /** A channel with one more message to send. */
  function SentChan(ch: Chan, msg: bytes): Chan {
    ch.(mtxq := ch.mtxq + [msg], state := if ch.state == Established then Active else ch.state)
  }

  /** Seal and cut everything queued on a channel. */
  function FragmentChan(mtu: nat, id: nat, ch: Chan): Chan
    requires mtu >= 2 && id < 15
  {
    ch.(txq := ch.txq + FragmentAll(mtu, id, ch.txIV, ch.mtxq),
        mtxq := [],
        txIV := IvAfter(ch.txIV, |ch.mtxq|))
  }

  // ---------------------------------------------------------------------
  // Transmitting
  // ---------------------------------------------------------------------

  /** The channels in turn: fragment each, stop at the first that may send. */
  datatype Pick = Pick(chans: map<nat, Chan>, pos: nat)

  function Scan(mtu: nat, flow: bv16, active: seq<nat>, chans: map<nat, Chan>, pos: nat): (r: Pick)
    requires mtu >= 2 && pos <= |active|
    requires forall i :: i in active ==> i in chans && i < 15
    ensures pos <= r.pos <= |active|
    ensures r.chans.Keys == chans.Keys
    decreases |active| - pos
  {
    if pos == |active| then Pick(chans, pos)
    else
      var id := active[pos];
      var chans1 := chans[id := FragmentChan(mtu, id, chans[id])];
      if FlowBit(flow, id) then Pick(chans1, pos)
      else Scan(mtu, flow, active, chans1, pos + 1)
  }

  /** Rewrite the outstanding packet's header and put it on the wire. */
  function Transmit(e: Endpoint): TxResult
    requires e.currentTx.Some? && |e.currentTx.value| >= 1
    requires e.fdcan ==> |e.currentTx.value| <= 64
  {
    var p := e.currentTx.value;
    var id := ChannelOf(p[0]);
    ChannelInRange(p[0]);
    var h := WireHeader(p[0], e.se, id != 15 && FlowBit(e.localFlow, id));
    var p1 := p[0 := h];
    TxResult(e.(currentTx := Some(p1)), Some(Pad(e.fdcan, p1)))
  }

  /** Take the next fragment of the picked channel as the outstanding packet. */
  function StartPacket(e: Endpoint, pick: Pick): Endpoint
    requires pick.pos < |e.active|
    requires e.active[pick.pos] in pick.chans && e.active[pick.pos] < 16
    requires pick.chans[e.active[pick.pos]].txq != []
  {
    var id := e.active[pick.pos];
    var ch := pick.chans[id];
    var rest := ch.txq[1..];
    var others := e.active[..pick.pos] + e.active[pick.pos + 1..];
    var ch1 := if rest == [] then ch.(txq := rest, state := Established) else ch.(txq := rest);
    e.(chans := pick.chans[id := ch1],
       active := if rest == [] then others else others + [id],
       remoteFlow := SetFlow(e.remoteFlow, id, false),
       currentTx := Some(ch.txq[0]),
       se := ToggleS(e.se))
  }

  /** A channel that has been scanned always has something to send. */
  predicate ScanReady(e: Endpoint) {
    && Valid(e)
    && Distinct(e.active)
    && (forall i :: i in e.active ==> i < 15 && (e.chans[i].txq != [] || e.chans[i].mtxq != []))
  }

  function Tx(e: Endpoint, rtxDue: bool, ackDue: bool): TxResult
    requires ScanReady(e)
  {
    if !e.connected then TxResult(e, None)
    else if e.currentTx.Some? then
      if rtxDue then Transmit(e) else TxResult(e, None)
    else
      var pick := Scan(e.mtu, e.remoteFlow, e.active, e.chans, 0);
      if pick.pos < |e.active| then
        ScanFindsPacket(e);
        Transmit(StartPacket(e, pick))
      else
        var e1 := e.(chans := pick.chans);
        TxResult(e1, if ackDue then Some(AckPacket(e1)) else None)
  }

  lemma FragmentAllNonEmpty(mtu: nat, id: nat, iv: word, msgs: seq<bytes>)
    requires mtu >= 2 && id < 15 && msgs != []
    ensures FragmentAll(mtu, id, iv, msgs) != []
  {
  }

  lemma FragmentChanShape(mtu: nat, id: nat, ch: Chan)
    requires mtu >= 2 && id < 15
    requires forall f :: f in ch.txq ==> 1 <= |f| <= mtu
    ensures forall f :: f in FragmentChan(mtu, id, ch).txq ==> 1 <= |f| <= mtu
    ensures ch.txq != [] || ch.mtxq != [] ==> FragmentChan(mtu, id, ch).txq != []
  {
    hide FragmentAll;
    FragmentShape(mtu, id, ch.txIV, ch.mtxq);
    if ch.mtxq != [] {
      FragmentAllNonEmpty(mtu, id, ch.txIV, ch.mtxq);
    }
  }

  /** Scanning fragments each channel it visits and touches no other. */
  lemma {:induction false} ScanPointwise(mtu: nat, flow: bv16, active: seq<nat>, chans: map<nat, Chan>, pos: nat)
    requires mtu >= 2 && pos <= |active| && Distinct(active)
    requires forall i :: i in active ==> i in chans && i < 15
    ensures var r := Scan(mtu, flow, active, chans, pos);
      && (forall k :: pos <= k < |active| ==>
            r.chans[active[k]] == if k <= r.pos then FragmentChan(mtu, active[k], chans[active[k]]) else chans[active[k]])
      && (forall i :: i in chans && i !in active[pos..] ==> r.chans[i] == chans[i])
    decreases |active| - pos
  {
    hide FragmentChan, FlowBit;
    if pos < |active| {
      var id := active[pos];
      assert id in active && active[pos..] == [id] + active[pos + 1..];
      assert id !in active[pos + 1..];
      var chans1 := chans[id := FragmentChan(mtu, id, chans[id])];
      if !FlowBit(flow, id) {
        ScanPointwise(mtu, flow, active, chans1, pos + 1);
      }
    }
  }

  lemma ScanFindsPacket(e: Endpoint)
    requires ScanReady(e)
    ensures var r := Scan(e.mtu, e.remoteFlow, e.active, e.chans, 0);
      r.pos < |e.active| ==>
        var txq := r.chans[e.active[r.pos]].txq;
        txq != [] && 1 <= |txq[0]| <= e.mtu
  {
    hide FragmentChan, FlowBit, Scan;
    var r := Scan(e.mtu, e.remoteFlow, e.active, e.chans, 0);
    ScanPointwise(e.mtu, e.remoteFlow, e.active, e.chans, 0);
    if r.pos < |e.active| {
      var id := e.active[r.pos];
      assert id in e.active;
      FragmentChanShape(e.mtu, id, e.chans[id]);
      var txq := FragmentChan(e.mtu, id, e.chans[id]).txq;
      assert txq[0] in txq;
    }
  }

  // ---------------------------------------------------------------------
  // Opening channels
  // ---------------------------------------------------------------------

  /** The lowest identifier not in use, searching upward from `i`. */
  function LowestFree(free: set<nat>, i: nat): (r: Option<nat>)
    requires i <= 14
    ensures r.Some? ==> r.value in free && r.value < 14
    ensures r.Some? ==> forall k: nat :: i <= k < r.value ==> k !in free
    ensures r.None? ==> forall k: nat :: i <= k < 14 ==> k !in free
    decreases 14 - i
  {
    if i == 14 then None
    else if i in free then Some(i)
    else LowestFree(free, i + 1)
  }

  /** A user asks the client for a channel; `None` when all are taken. */
  function CreateChannel(e: Endpoint, name: bytes, reconnect: bool): (Endpoint, Option<nat>) {
    match LowestFree(e.freeIds, 0)
    case None => (e, None)
    case Some(id) =>
      (e.(freeIds := e.freeIds - {id},
          pending := e.pending + [id],
          chans := e.chans[id := MakeChan(PendingOpen, reconnect, name, 0, 0)]),
       Some(id))
  }

  function OpenMessage(id: nat, name: bytes): bytes
    requires id < 15
  {
    [id as byte] + name
  }

  /** Announce one waiting channel on the control channel. */
  function OpenPending(e: Endpoint): Endpoint
    requires e.pending != [] && e.pending[0] in e.chans && e.pending[0] < 15 && CMC in e.chans
  {
    var id := e.pending[0];
    var n := NextIv(e.ivCount);
    var iv := ChannelIv(e.crcIV, n);
    var ch := e.chans[id].(state := OpenSent, txIV := Not(iv), rxIV := iv);
    SendMessage(e.(pending := e.pending[1..], ivCount := n, chans := e.chans[id := ch]),
                CMC, OpenMessage(id, ch.name))
  }

  function ResponseMessage(id: nat, verdict: word): bytes
    requires id < 16
  {
    [(id as byte) | 0x20, LowByte(verdict), LowByte(DropByte(verdict))]
  }

  /** The server makes the channel, asks the application, and answers. */
  function HandleOpen(e: Endpoint, id: nat, name: bytes, verdict: word): RxResult
    requires CMC in e.chans && id < 16
  {
    if |name| < 1 then RxResult(e, Malformed)
    else if id in e.chans then RxResult(e, BadState)
    else
      var n := NextIv(e.ivCount);
      var iv := ChannelIv(e.crcIV, n);
      var chans := if verdict == 0 then e.chans[id := MakeChan(Established, false, name, iv, Not(iv))] else e.chans;
      RxResult(SendMessage(e.(ivCount := n, chans := chans), CMC, ResponseMessage(id, verdict)), Ok)
  }

  /** A channel that was accepted: what a reconnecting one had received is
      dropped, and it transmits if it has anything to send. */
  function AnsweredChan(ch: Chan): Chan {
    ch.(rxq := (if ch.reconnect then [] else ch.rxq) + [Ready], rxbuf := if ch.reconnect then [] else ch.rxbuf,
        state := if ch.mtxq != [] then Active else Established)
  }

  /** The client learns whether its channel was accepted. */
  function HandleOpenResponse(e: Endpoint, id: nat, data: bytes): RxResult {
    if id !in e.chans then RxResult(e, BadState)
    else if e.chans[id].state != OpenSent then RxResult(e, BadState)
    else if |data| != 2 then RxResult(e, Malformed)
    else
      var ch := e.chans[id];
      if data[0] == 0 && data[1] == 0 then
        RxResult(e.(chans := e.chans[id := AnsweredChan(ch)], active := if ch.mtxq != [] then e.active + [id] else e.active), Ok)
      else
        RxResult(e.(chans := e.chans - {id}, freeIds := e.freeIds + {id}), Ok)
  }

  /** A channel that may send. */
  predicate Usable(e: Endpoint, id: nat) { id in e.chans && (e.chans[id].state == Active || e.chans[id].state == Established) }

  function Opcode(b: byte): byte { b >> 4 }

  /** A complete message on the control channel. */
  function ControlRx(e: Endpoint, msg: bytes, verdict: word): RxResult
    requires CMC in e.chans
  {
    if |msg| < 1 then RxResult(e, Malformed)
    else
      ChannelInRange(msg[0]);
      if Opcode(msg[0]) == 3 then RxResult(e, OutOfSession)
      else if e.server && Opcode(msg[0]) == 0 then HandleOpen(e, ChannelOf(msg[0]), msg[1..], verdict)
      else if !e.server && Opcode(msg[0]) == 2 then HandleOpenResponse(e, ChannelOf(msg[0]), msg[1..])
      else RxResult(e, Malformed)
  }

  // ---------------------------------------------------------------------
  // Receiving
  // ---------------------------------------------------------------------

  /** An accepted fragment reaches its channel. */
  function ChannelReceive(e: Endpoint, pkt: bytes, id: nat, verdict: word): RxResult
    requires |pkt| >= 1 && CMC in e.chans
  {
    if id !in e.chans then RxResult(e, Ok)
    else
      var ch := e.chans[id];
      match Receive(ch.rxbuf, ch.rxIV, pkt)
      case Partial(buf) => RxResult(e.(chans := e.chans[id := ch.(rxbuf := buf)]), Ok)
      case BadChecksum => RxResult(e.(chans := e.chans[id := ch.(rxbuf := [])]), ChecksumError)
      case Underflow => RxResult(e, ShortMessage)
      case Complete(msg) =>
        var ch1 := ch.(rxbuf := [], rxIV := NextIv(ch.rxIV));
        if id == CMC then ControlRx(e.(chans := e.chans[id := ch1]), msg, verdict)
        else RxResult(e.(chans := e.chans[id := ch1.(rxq := ch1.rxq + [Message(msg)])]), Ok)
  }

  predicate IsAck(h: byte) { h & 0x1F == 0x1F }

  /** The peer's E differs from our S once it has accepted our packet. */
  predicate PeerAccepted(h: byte, se: byte) { HasE(h) != HasS(se) }

  /** A packet is new when its S equals our E. */
  predicate CanAccept(h: byte, se: byte) { HasS(h) == HasE(se) }

  function DropAcknowledged(e: Endpoint, accepted: bool): Endpoint {
    if accepted then e.(currentTx := None) else e
  }

  /** A packet other than a connection request. */
  function HandlePacket(e: Endpoint, pkt: bytes, verdict: word): RxResult
    requires |pkt| >= 1 && CMC in e.chans
  {
    var h := pkt[0];
    var id := ChannelOf(h);
    ChannelInRange(h);
    if IsAck(h) && Crc(e.crcIV, pkt) != ALL_ONES then RxResult(e, ChecksumError)
    else if IsAck(h) && |pkt| != 7 then RxResult(e, Malformed)
    else
      var e1 := if IsAck(h) then e.(remoteFlow := FlowOf(pkt[1], pkt[2])) else e;
      if !e.connected then
        if e.server then RxResult(e1, Ok)
        else if h != 0x5F then RxResult(e1, BadState)
        else RxResult(e1.(connected := true), Ok)
      else if id == 15 then
        RxResult(DropAcknowledged(e1, PeerAccepted(h, e.se)), Ok)
      else if CanAccept(h, e.se) then
        var r := ChannelReceive(e1, pkt, id, verdict);
        if r.code != Ok then r
        else
          var e2 := r.e.(se := ToggleE(r.e.se), remoteFlow := SetFlow(r.e.remoteFlow, id, HasF(h)));
          RxResult(DropAcknowledged(e2, PeerAccepted(h, e.se)), Ok)
      else
        var e2 := e1.(remoteFlow := SetFlow(e1.remoteFlow, id, HasF(h)));
        RxResult(DropAcknowledged(e2, PeerAccepted(h, e.se)), Ok)
  }

  /** A connection request. Accepting one on a live connection would start
      another session. */
  function AcceptSyn(e: Endpoint, pkt: bytes): RxResult
    requires |pkt| >= 1 && CMC in e.chans
  {
    if !e.server then RxResult(e, Malformed)
    else if |pkt| != 7 || pkt[1] != VERSION || pkt[2] as nat != e.mtu then RxResult(e, Malformed)
    else if e.connected then RxResult(e, OutOfSession)
    else
      var e1 := StartSession(e, WordOf(pkt[3..]));
      RxResult(e1, Ok, Some(AckPacket(e1)))
  }

  /** One received packet. */
  function HandleRx(e: Endpoint, pkt: bytes, verdict: word): RxResult
    requires CMC in e.chans
  {
    if |pkt| < 1 then RxResult(e, Malformed)
    else if pkt[0] == SYN then AcceptSyn(e, pkt)
    else HandlePacket(e, pkt, verdict)
  }

  lemma WordRoundTrip(w: word)
    ensures WordOf(LittleEndian(w)) == w
  {
  }

  lemma ByteOfMtu(m: nat)
    requires m < 256
    ensures ((m % 256) as byte) as nat == m
  {
  }

  /** A connection request between endpoints made with the same MTU puts the
      server in the client's session and is answered. */
  lemma Handshake(fdcan: bool, mtu: nat, session: word)
    ensures var c := StartSession(Fresh(false, fdcan, mtu), session);
      var r := HandleRx(Fresh(true, fdcan, mtu), SynPacket(c), 0);
      r == RxResult(StartSession(Fresh(true, fdcan, mtu), session), Ok,
                    Some(AckPacket(StartSession(Fresh(true, fdcan, mtu), session))))
  {
    hide LittleEndian, WordOf, ChannelIv, AckPacket, Not, HandlePacket;
    ByteOfMtu(StoredMtu(fdcan, mtu));
    var c := StartSession(Fresh(false, fdcan, mtu), session);
    WordRoundTrip(session);
    assert SynPacket(c)[3..] == LittleEndian(session);
  }

  /** A reader takes the first item of a channel's queue. */
  function ReadItem(e: Endpoint, id: nat): Endpoint
    requires id in e.chans && e.chans[id].rxq != []
  {
    e.(chans := e.chans[id := e.chans[id].(rxq := e.chans[id].rxq[1..])])
  }
}
