/** A VLLP session: a client and a server endpoint, the packets in flight
    between them, and a ledger of what each end started, accepted, sent and
    delivered. The ledgers and the counts on packets in flight record history;
    no protocol decision reads them. */
module VllpSession {
  import opened Common
  import opened Crc32
  import opened VllpFrames
  import opened VllpEndpoint
  import opened VllpLink

  datatype Ledger = Ledger(
    started: seq<bytes>,            // fragments made outstanding, in order
    accepted: seq<bytes>,           // fragments accepted from the peer, in order
    sent: map<nat, seq<bytes>>,     // messages sent on each channel
    got: map<nat, seq<bytes>>,      // messages reassembled on each channel
    read: map<nat, seq<bytes>>,     // messages taken by each channel's reader
    serial: map<nat, nat>,          // which open made each channel; control is 1
    lost: set<nat>)                 // channels whose acceptance threw data away

  datatype Node = Node(e: Endpoint, log: Ledger)

  /** A packet on the wire, with its sender's two counts. */
  datatype Flight = Flight(wire: bytes, started: nat, accepted: nat)

  datatype System = System(c: Node, s: Node, cs: seq<Flight>, sc: seq<Flight>, broken: bool)

  function At(m: map<nat, seq<bytes>>, id: nat): seq<bytes> { if id in m then m[id] else [] }

  /** A fragment as its sender queued it, without the link's bits. */
  function Norm(p: bytes): (r: bytes)
    requires |p| >= 1
    ensures |r| == |p|
  {
    p[0 := FragBits(p[0])]
  }

  // ---------------------------------------------------------------------
  // Start of a session
  // ---------------------------------------------------------------------

  function FreshLedger(): Ledger {
    Ledger([], [], map[CMC := []], map[CMC := []], map[CMC := []], map[CMC := 1], {})
  }

  /** The server has just accepted the client's request and sent its answer. */
  function Init(fdcan: bool, mtu: nat, session: word): System {
    var c := StartSession(Fresh(false, fdcan, mtu), session);
    var s := StartSession(Fresh(true, fdcan, mtu), session);
    System(Node(c, FreshLedger()), Node(s, FreshLedger()), [], [Flight(AckPacket(s), 0, 0)], false)
  }

  // ---------------------------------------------------------------------
  // Steps of one end
  // ---------------------------------------------------------------------

  /** The packet is a new data packet. */
  predicate Takes(e: Endpoint, pkt: bytes)
    requires |pkt| >= 1
  {
    pkt[0] != SYN && e.connected && ChannelOf(pkt[0]) != 15 && CanAccept(pkt[0], e.se)
  }

  /** The message a taken packet completes, if any. */
  function Completed(e: Endpoint, pkt: bytes): Option<bytes>
    requires |pkt| >= 1
  {
    var id := ChannelOf(pkt[0]);
    if id !in e.chans then None
    else
      match Receive(e.chans[id].rxbuf, e.chans[id].rxIV, pkt)
      case Complete(msg) => Some(msg)
      case _ => None
  }

  /** The server answers an open; an accepted one starts empty streams. */
  function LogOpen(l: Ledger, id: nat, verdict: word): Ledger
    requires id < 16
  {
    var l1 := l.(sent := l.sent[CMC := At(l.sent, CMC) + [ResponseMessage(id, verdict)]]);
    if verdict == 0 then
      l1.(sent := l1.sent[id := []], got := l1.got[id := []], read := l1.read[id := []],
          serial := l1.serial[id := |At(l.got, CMC)| + 1])
    else l1
  }

  function Messages(q: seq<RxItem>): seq<bytes>
    decreases q
  {
    if q == [] then []
    else if q[0].Message? then [q[0].data] + Messages(q[1..])
    else Messages(q[1..])
  }

  predicate Accepted(m: bytes) { |m| == 3 && m[1] == 0 && m[2] == 0 }

  /** An acceptance discards data that overtook it. */
  predicate Discards(ch: Chan) { ch.reconnect && (Messages(ch.rxq) != [] || ch.rxbuf != []) }

  /** The channel that loses data when the client handles a control message. */
  function Loses(e: Endpoint, msg: bytes): set<nat> {
    if !Accepted(msg) then {}
    else
      var id := ChannelOf(msg[0]);
      if id in e.chans && Discards(e.chans[id]) then {id} else {}
  }

  function LogMessage(l: Ledger, e: Endpoint, id: nat, msg: bytes, verdict: word): Ledger {
    var l1 := l.(got := l.got[id := At(l.got, id) + [msg]]);
    if id == CMC && e.server && |msg| >= 1 then
      ChannelInRange(msg[0]);
      LogOpen(l1, ChannelOf(msg[0]), verdict)
    else if id == CMC && !e.server then l1.(lost := l1.lost + Loses(e, msg))
    else l1
  }

  function LogRx(l: Ledger, e: Endpoint, pkt: bytes, verdict: word): Ledger
    requires |pkt| >= 1
  {
    if !Takes(e, pkt) then l
    else
      var l1 := l.(accepted := l.accepted + [Norm(pkt)]);
      match Completed(e, pkt)
      case None => l1
      case Some(msg) => LogMessage(l1, e, ChannelOf(pkt[0]), msg, verdict)
  }

  function RxNode(n: Node, wire: bytes, verdict: word): (Node, Code)
    requires CMC in n.e.chans
  {
    match Unpad(n.e.fdcan, wire)
    case None => (n, Ok)
    case Some(pkt) =>
      if |pkt| < 1 then (n, Ok)
      else
        var r := HandleRx(n.e, pkt, verdict);
        (Node(r.e, LogRx(n.log, n.e, pkt, verdict)), r.code)
  }

  function LogTx(l: Ledger, before: Endpoint, after: Endpoint): Ledger {
    if before.currentTx.None? && after.currentTx.Some? && |after.currentTx.value| >= 1 then
      l.(started := l.started + [Norm(after.currentTx.value)])
    else l
  }

  function TxNode(n: Node, rtxDue: bool, ackDue: bool): (Node, seq<Flight>)
    requires ScanReady(n.e)
  {
    var r := Tx(n.e, rtxDue, ackDue);
    var l := LogTx(n.log, n.e, r.e);
    (Node(r.e, l), if r.out.Some? then [Flight(r.out.value, |l.started|, |l.accepted|)] else [])
  }

  function CreateNode(n: Node, name: bytes, reconnect: bool): Node {
    var (e, id) := CreateChannel(n.e, name, reconnect);
    if id.None? then Node(e, n.log)
    else
      var i := id.value;
      Node(e, n.log.(sent := n.log.sent[i := []], got := n.log.got[i := []], read := n.log.read[i := []]))
  }

  predicate CanOpen(e: Endpoint) {
    e.connected && e.pending != [] && e.pending[0] in e.chans && e.pending[0] < 14 && CMC in e.chans
  }

  function OpenNode(n: Node): Node
    requires CanOpen(n.e)
  {
    var id := n.e.pending[0];
    var opens := At(n.log.sent, CMC);
    Node(OpenPending(n.e),
         n.log.(sent := n.log.sent[CMC := opens + [OpenMessage(id, n.e.chans[id].name)]],
                serial := n.log.serial[id := |opens| + 2]))
  }

  function SendNode(n: Node, id: nat, msg: bytes): Node
    requires id in n.e.chans
  {
    Node(SendMessage(n.e, id, msg), n.log.(sent := n.log.sent[id := At(n.log.sent, id) + [msg]]))
  }

  function ReadNode(n: Node, id: nat): Node
    requires id in n.e.chans && n.e.chans[id].rxq != []
  {
    var item := n.e.chans[id].rxq[0];
    Node(ReadItem(n.e, id),
         if item.Message? then n.log.(read := n.log.read[id := At(n.log.read, id) + [item.data]]) else n.log)
  }

  // ---------------------------------------------------------------------
  // Steps of the system
  // ---------------------------------------------------------------------

  datatype Action =
    | ClientRx | ServerRx(verdict: word)
    | ClientTx(rtxDue: bool, ackDue: bool) | ServerTx(rtxDue: bool, ackDue: bool)
    | ClientCreate(name: bytes, reconnect: bool) | ClientOpen
    | ClientSend(id: nat, msg: bytes) | ServerSend(id: nat, msg: bytes)
    | ClientRead(id: nat) | ServerRead(id: nat)
    | LoseFromClient(at: nat) | LoseFromServer(at: nat)
    | RepeatFromClient(at: nat) | RepeatFromServer(at: nat)

  /** A step whose guard is false leaves the system as it is; so does any step
      after the connection broke. */
  function Step(y: System, a: Action): System {
    if y.broken || !ScanReady(y.c.e) || !ScanReady(y.s.e) then y
    else
      match a
      case ClientRx =>
        if y.sc == [] then y
        else
          var (n, code) := RxNode(y.c, y.sc[0].wire, 0);
          y.(c := n, sc := y.sc[1..], broken := code != Ok && y.c.e.connected)
      case ServerRx(verdict) =>
        if y.cs == [] then y
        else
          var (n, code) := RxNode(y.s, y.cs[0].wire, verdict);
          y.(s := n, cs := y.cs[1..], broken := code != Ok && y.s.e.connected)
      case ClientTx(r, k) => var (n, out) := TxNode(y.c, r, k); y.(c := n, cs := y.cs + out)
      case ServerTx(r, k) => var (n, out) := TxNode(y.s, r, k); y.(s := n, sc := y.sc + out)
      case ClientCreate(name, reconnect) => y.(c := CreateNode(y.c, name, reconnect))
      case ClientOpen => if CanOpen(y.c.e) then y.(c := OpenNode(y.c)) else y
      case ClientSend(id, msg) => if id in y.c.e.chans && id != CMC then y.(c := SendNode(y.c, id, msg)) else y
      case ServerSend(id, msg) => if id in y.s.e.chans && id != CMC then y.(s := SendNode(y.s, id, msg)) else y
      case ClientRead(id) =>
        if id in y.c.e.chans && id != CMC && y.c.e.chans[id].rxq != [] then y.(c := ReadNode(y.c, id)) else y
      case ServerRead(id) =>
        if id in y.s.e.chans && id != CMC && y.s.e.chans[id].rxq != [] then y.(s := ReadNode(y.s, id)) else y
      case LoseFromClient(i) => if i < |y.cs| then y.(cs := Without(y.cs, i)) else y
      case LoseFromServer(i) => if i < |y.sc| then y.(sc := Without(y.sc, i)) else y
      case RepeatFromClient(i) => if i < |y.cs| then y.(cs := Repeated(y.cs, i)) else y
      case RepeatFromServer(i) => if i < |y.sc| then y.(sc := Repeated(y.sc, i)) else y
  }

  function Run(y: System, actions: seq<Action>): System
    decreases actions
  {
    if actions == [] then y else Step(Run(y, actions[..|actions| - 1]), actions[|actions| - 1])
  }

  /** The answer a verdict puts on the wire keeps its low sixteen bits. */
  predicate SaysAccepted(verdict: word) { LowByte(verdict) == 0 && LowByte(DropByte(verdict)) == 0 }
}
