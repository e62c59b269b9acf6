/** The VLLP library's object: one set of tables that its thread updates in
    place under a lock. Each method is the locked part of one C function, and is
    proved to do what the endpoint functions say. */
module VllpHost {
  import opened Common
  import opened Crc32
  import opened VllpFrames
  import opened VllpEndpoint
  import CrcTables
  import E = VllpEndpoint

  /** Announce every waiting channel, first come first. */
  function OpenAll(e: Endpoint): Endpoint
    requires PendingReady(e)
    decreases |e.pending|
  {
    if e.pending == [] then e
    else
      OneFewer(e);
      OpenAll(E.OpenPending(e))
  }

  predicate PendingReady(e: Endpoint) {
    CMC in e.chans && forall i :: i in e.pending ==> i in e.chans && i < 14
  }

  lemma OneFewer(e: Endpoint)
    requires PendingReady(e) && e.pending != []
    ensures var e1 := E.OpenPending(e); PendingReady(e1) && e1.pending == e.pending[1..]
  {
    hide ChannelIv, Not, NextIv, OpenMessage;
    assert forall i :: i in e.pending[1..] ==> i in e.pending;
  }

  class Vllp {
    const server: bool
    const fdcan: bool
    const mtu: nat
    var connected: bool
    var se: byte
    var currentTx: Option<bytes>
    var crcIV: word
    var ivCount: word
    var remoteFlow: bv16
    var localFlow: bv16
    var freeIds: set<nat>
    var pending: seq<nat>
    var active: seq<nat>
    var chans: map<nat, Chan>

    ghost function Value(): Endpoint
      reads this
    {
      Endpoint(server, fdcan, mtu, connected, se, currentTx, crcIV, ivCount, remoteFlow, localFlow,
               freeIds, pending, active, chans)
    }

    constructor (server: bool, fdcan: bool, mtu: nat)
      ensures Value() == Fresh(server, fdcan, mtu)
    {
      this.server, this.fdcan, this.mtu := server, fdcan, StoredMtu(fdcan, mtu);
      connected, se, currentTx := false, HDR_E, None;
      crcIV, ivCount, remoteFlow, localFlow := 0, 0, 0xFFFF, 0xFFFF;
      freeIds, pending, active := if server then {} else USER_IDS, [], [];
      chans := map[CMC := MakeChan(Established, false, [], 0, 0)];
    }

    // -------------------------------------------------------------------
    // Sending
    // -------------------------------------------------------------------

    /** `channel_send_message`. */
    method Send(id: nat, msg: bytes)
      requires id in chans
      modifies this`chans, this`active
      ensures Value() == SendMessage(old(Value()), id, msg)
    {
      chans := chans[id := chans[id].(mtxq := chans[id].mtxq + [msg])];
      if chans[id].state == Established {
        chans := chans[id := chans[id].(state := Active)];
        active := active + [id];
      }
    }

    /** Cuts one sealed message. */
    method Cut(id: nat, data: bytes) returns (frags: seq<bytes>)
      requires mtu >= 2 && id < 15
      ensures frags == Chunks(mtu, id, data)
    {
      frags := [];
      var rest := data;
      while true
        invariant frags + Chunks(mtu, id, rest) == Chunks(mtu, id, data)
        decreases |rest|
      {
        var size := if |rest| + 1 < mtu then |rest| + 1 else mtu;
        var payload := rest[..size - 1];
        var left := rest[size - 1..];
        if left == [] {
          assert payload == rest;
          frags := frags + [[FragHeader(id, true)] + payload];
          return;
        }
        assert Chunks(mtu, id, rest) == [[FragHeader(id, false)] + payload] + Chunks(mtu, id, left);
        frags := frags + [[FragHeader(id, false)] + payload];
        rest := left;
      }
    }

    /** `fragment`: seals and cuts everything queued on a channel. */
    method Fragment(id: nat)
      requires mtu >= 2 && id < 15 && id in chans
      modifies this`chans
      ensures chans == old(chans)[id := FragmentChan(mtu, id, old(chans)[id])]
    {
      hide FragmentChan, Halfway, Chunks, Seal, NextIv, LittleEndian, Not;
      var ch := chans[id];
      ghost var whole := ch;
      ghost var done: seq<bytes> := [];
      HalfwayEnds(mtu, id, whole);
      while ch.mtxq != []
        invariant chans == old(chans) && done + ch.mtxq == whole.mtxq
        invariant ch == Halfway(mtu, id, whole, done, ch.mtxq)
        decreases |ch.mtxq|
      {
        var m, iv := ch.mtxq[0], ch.txIV;
        HalfwayOn(mtu, id, whole, done, ch.mtxq);
        var crc := CrcTables.VllpCrc32(iv, m);
        SealIs(iv, m, crc);
        var frags := Cut(id, m + LittleEndian(Not(crc)));
        ch := ch.(mtxq := ch.mtxq[1..], txIV := NextIv(iv), txq := ch.txq + frags);
        done := done + [m];
      }
      assert done + [] == done;
      chans := chans[id := ch];
    }

    /** `vllp_send_pkt`: the outstanding packet with a fresh header. */
    method SendPacket() returns (wire: bytes)
      requires currentTx.Some? && |currentTx.value| >= 1 && (fdcan ==> |currentTx.value| <= 64)
      modifies this`currentTx
      ensures TxResult(Value(), Some(wire)) == Transmit(old(Value()))
    {
      var p := currentTx.value;
      var id := ChannelOf(p[0]);
      ChannelInRange(p[0]);
      var flow := false;
      if id != 15 {
        flow := FlowBit(localFlow, id);
      }
      p := p[0 := WireHeader(p[0], se, flow)];
      currentTx := Some(p);
      wire := Pad(fdcan, p);
    }

    /** `vllp_send_ack`. */
    method SendAck() returns (wire: bytes)
      ensures wire == AckPacket(Value())
    {
      var head := [AckBits(se), FlowLow(localFlow), FlowHigh(localFlow)];
      var crc := CrcTables.VllpCrc32(crcIV, head);
      SealIs(crcIV, head, crc);
      wire := head + LittleEndian(Not(crc));
    }

    /** The search in `vllp_tx`: fragments the active channels in turn, up to
        the first that the peer lets send. */
    method FindReady() returns (at: nat)
      requires mtu >= 2 && forall i :: i in active ==> i in chans && i < 15
      modifies this`chans
      ensures Pick(chans, at) == Scan(mtu, remoteFlow, active, old(chans), 0)
    {
      hide FragmentChan, FlowBit;
      at := 0;
      while at < |active|
        invariant at <= |active| && chans.Keys == old(chans).Keys
        invariant Scan(mtu, remoteFlow, active, chans, at) == Scan(mtu, remoteFlow, active, old(chans), 0)
      {
        assert active[at] in active;
        Fragment(active[at]);
        if FlowBit(remoteFlow, active[at]) {
          return;
        }
        at := at + 1;
      }
    }

    /** `vllp_tx`: retransmit, or start the first channel that may send, or
        acknowledge. */
    method Transmits(rtxDue: bool, ackDue: bool) returns (out: Option<bytes>)
      requires ScanReady(Value())
      modifies this
      ensures TxResult(Value(), out) == Tx(old(Value()), rtxDue, ackDue)
    {
      hide Transmit, ScanReady, Scan, StartPacket, AckPacket;
      ReadyFacts(Value());
      StartFits(Value());
      out := None;
      if !connected {
        return;
      }
      if currentTx.Some? {
        if rtxDue {
          var wire := SendPacket();
          out := Some(wire);
        }
        return;
      }
      var at := FindReady();
      if at < |active| {
        StartShape(old(Value()));
        Start(at);
        var wire := SendPacket();
        out := Some(wire);
      } else if ackDue {
        var wire := SendAck();
        out := Some(wire);
      }
    }

    /** Takes the fragment at the head of an active channel's queue. */
    method Start(at: nat)
      requires at < |active| && active[at] in chans && active[at] < 16 && chans[active[at]].txq != []
      modifies this`chans, this`active, this`remoteFlow, this`currentTx, this`se
      ensures Value() == StartPacket(old(Value()), Pick(old(chans), at))
    {
      hide SetFlow, ToggleS;
      var id := active[at];
      var ch := chans[id].(txq := chans[id].txq[1..]);
      currentTx := Some(chans[id].txq[0]);
      active := active[..at] + active[at + 1..];
      remoteFlow := SetFlow(remoteFlow, id, false);
      se := ToggleS(se);
      if ch.txq == [] {
        ch := ch.(state := Established);
      } else {
        active := active + [id];
      }
      chans := chans[id := ch];
    }

    // -------------------------------------------------------------------
    // Opening channels
    // -------------------------------------------------------------------

    /** `vllp_gen_channel_crc`. */
    method NextChannelIv() returns (iv: word)
      modifies this`ivCount
      ensures ivCount == NextIv(old(ivCount)) && iv == ChannelIv(crcIV, ivCount)
    {
      ivCount := NextIv(ivCount);
      iv := CrcTables.VllpCrc32(crcIV, LittleEndian(ivCount));
      TableEqualsBitwise(crcIV, LittleEndian(ivCount));
    }

    /** `vllp_channel_create`: the lowest free identifier. */
    method Create(name: bytes, reconnect: bool) returns (id: Option<nat>)
      modifies this`freeIds, this`pending, this`chans
      ensures (Value(), id) == CreateChannel(old(Value()), name, reconnect)
    {
      var i := 0;
      while i < 14 && i !in freeIds
        invariant i <= 14 && LowestFree(freeIds, i) == LowestFree(freeIds, 0)
      {
        i := i + 1;
      }
      if i == 14 {
        return None;
      }
      freeIds := freeIds - {i};
      pending := pending + [i];
      chans := chans[i := MakeChan(PendingOpen, reconnect, name, 0, 0)];
      return Some(i);
    }

    /** `enqueue_channel_open`, for the channel first in line. */
    method OpenFirst()
      requires pending != [] && pending[0] in chans && pending[0] < 14 && CMC in chans
      modifies this`pending, this`chans, this`ivCount, this`active
      ensures Value() == E.OpenPending(old(Value()))
    {
      hide ChannelIv, Not, NextIv, OpenMessage;
      var id := pending[0];
      pending := pending[1..];
      var iv := NextChannelIv();
      chans := chans[id := chans[id].(state := OpenSent, txIV := Not(iv), rxIV := iv)];
      Send(CMC, OpenMessage(id, chans[id].name));
    }

    /** `handle_pending_channels`. */
    method OpenWaiting()
      requires PendingReady(Value())
      modifies this`pending, this`chans, this`ivCount, this`active
      ensures Value() == OpenAll(old(Value()))
    {
      hide E.OpenPending, PendingReady;
      while pending != []
        invariant PendingReady(Value()) && OpenAll(Value()) == OpenAll(old(Value()))
        decreases |pending|
      {
        FirstReady(Value());
        OneFewer(Value());
        OpenFirst();
      }
    }

    /** `cmc_handle_open`. */
    method HandleOpen(id: nat, name: bytes, verdict: word) returns (code: Code)
      requires CMC in chans && id < 16
      modifies this`chans, this`ivCount, this`active
      ensures RxResult(Value(), code) == E.HandleOpen(old(Value()), id, name, verdict)
    {
      hide ChannelIv, Not, NextIv, ResponseMessage;
      if |name| < 1 {
        return Malformed;
      }
      if id in chans {
        return BadState;
      }
      var iv := NextChannelIv();
      if verdict == 0 {
        chans := chans[id := MakeChan(Established, false, name, iv, Not(iv))];
      }
      Send(CMC, ResponseMessage(id, verdict));
      return Ok;
    }

    /** `cmc_handle_open_response`. */
    method HandleOpenResponse(id: nat, data: bytes) returns (code: Code)
      modifies this`chans, this`active, this`freeIds
      ensures RxResult(Value(), code) == E.HandleOpenResponse(old(Value()), id, data)
    {
      if id !in chans || chans[id].state != OpenSent {
        return BadState;
      }
      if |data| != 2 {
        return Malformed;
      }
      var ch := chans[id];
      if data[0] == 0 && data[1] == 0 {
        if ch.reconnect {
          while ch.rxq != []
            invariant ch == chans[id].(rxq := ch.rxq)
            decreases |ch.rxq|
          {
            ch := ch.(rxq := ch.rxq[1..]);
          }
          ch := ch.(rxbuf := []);
        }
        ch := ch.(rxq := ch.rxq + [Ready]);
        if ch.mtxq != [] {
          ch := ch.(state := Active);
          active := active + [id];
        } else {
          ch := ch.(state := Established);
        }
        chans := chans[id := ch];
      } else {
        freeIds := freeIds + {id};
        chans := chans - {id};
      }
      return Ok;
    }

    /** `cmc_rx`, for opens and their answers. */
    method ControlRx(msg: bytes, verdict: word) returns (code: Code)
      requires CMC in chans
      modifies this`chans, this`ivCount, this`active, this`freeIds
      ensures RxResult(Value(), code) == E.ControlRx(old(Value()), msg, verdict)
    {
      hide E.HandleOpen, E.HandleOpenResponse, Opcode, ChannelOf;
      if |msg| < 1 {
        return Malformed;
      }
      var opcode, id := Opcode(msg[0]), ChannelOf(msg[0]);
      ChannelInRange(msg[0]);
      if opcode == 3 {
        return OutOfSession;
      } else if server && opcode == 0 {
        code := HandleOpen(id, msg[1..], verdict);
      } else if !server && opcode == 2 {
        code := HandleOpenResponse(id, msg[1..]);
      } else {
        return Malformed;
      }
    }

    // -------------------------------------------------------------------
    // Receiving
    // -------------------------------------------------------------------

    /** `vllp_channel_receive`. */
    method ChannelReceive(pkt: bytes, id: nat, verdict: word) returns (code: Code)
      requires |pkt| >= 1 && CMC in chans
      modifies this`chans, this`ivCount, this`active, this`freeIds
      ensures RxResult(Value(), code) == E.ChannelReceive(old(Value()), pkt, id, verdict)
    {
      hide E.ControlRx, Crc, HasL, NextIv;
      if id !in chans {
        return Ok;
      }
      ghost var ch := chans[id];
      var buf := chans[id].rxbuf + pkt[1..];
      if !HasL(pkt[0]) {
        chans := chans[id := chans[id].(rxbuf := buf)];
        return Ok;
      }
      var crc := CrcTables.VllpCrc32(chans[id].rxIV, buf);
      TableEqualsBitwise(chans[id].rxIV, buf);
      if crc != ALL_ONES {
        chans := chans[id := chans[id].(rxbuf := [])];
        return ChecksumError;
      }
      if |buf| < 4 {
        return ShortMessage;
      }
      var msg := buf[..|buf| - 4];
      chans := chans[id := chans[id].(rxIV := NextIv(chans[id].rxIV), rxbuf := [])];
      if id == CMC {
        code := ControlRx(msg, verdict);
      } else {
        chans := chans[id := chans[id].(rxq := chans[id].rxq + [Message(msg)])];
        return Ok;
      }
    }

    /** `vllp_accept_syn`, on a server without a session. */
    method AcceptSyn(pkt: bytes) returns (code: Code, out: Option<bytes>)
      requires |pkt| >= 1 && CMC in chans
      modifies this`chans, this`crcIV, this`ivCount, this`connected
      ensures RxResult(Value(), code, out) == E.AcceptSyn(old(Value()), pkt)
    {
      hide ChannelIv, Not, WordOf, AckPacket;
      out := None;
      if !server || |pkt| != 7 || pkt[1] != VERSION || pkt[2] as nat != mtu {
        return Malformed, None;
      }
      if connected {
        return OutOfSession, None;
      }
      crcIV := WordOf(pkt[3..]);
      connected := true;
      ivCount := 0;
      var iv := NextChannelIv();
      assert NextIv(0) == 1;
      chans := chans[CMC := chans[CMC].(txIV := iv, rxIV := Not(iv))];
      var wire := SendAck();
      return Ok, Some(wire);
    }

    /** The part of `vllp_handle_rx` past the checks on acknowledgements. */
    method HandleChecked(pkt: bytes, verdict: word) returns (code: Code)
      requires |pkt| >= 1 && CMC in chans
      modifies this
      ensures RxResult(Value(), code) == Checked(old(Value()), pkt, verdict)
    {
      hide E.ChannelReceive, ChannelOf, SetFlow, HasF, HasS, HasE, ToggleE;
      var h, id := pkt[0], ChannelOf(pkt[0]);
      ChannelInRange(h);
      var peerAccepted := HasE(h) != HasS(se);
      var canAccept := HasS(h) == HasE(se);
      if !connected {
        if !server {
          if h != 0x5F {
            return BadState;
          }
          connected := true;
        }
        return Ok;
      }
      if id != 15 {
        if canAccept {
          code := ChannelReceive(pkt, id, verdict);
          if code != Ok {
            return;
          }
          se := ToggleE(se);
        }
        remoteFlow := SetFlow(remoteFlow, id, HasF(h));
      }
      if peerAccepted {
        currentTx := None;
      }
      return Ok;
    }

    /** `vllp_handle_rx`. */
    method HandleRx(pkt: bytes, verdict: word) returns (code: Code, out: Option<bytes>)
      requires CMC in chans
      modifies this
      ensures RxResult(Value(), code, out) == E.HandleRx(old(Value()), pkt, verdict)
    {
      hide Checked, E.HandlePacket, E.AcceptSyn, Crc, FlowOf, IsAck;
      out := None;
      if |pkt| < 1 {
        return Malformed, None;
      }
      if pkt[0] == SYN {
        code, out := AcceptSyn(pkt);
        return;
      }
      PacketIsChecked(Value(), pkt, verdict);
      if IsAck(pkt[0]) {
        var crc := CrcTables.VllpCrc32(crcIV, pkt);
        TableEqualsBitwise(crcIV, pkt);
        if crc != ALL_ONES {
          return ChecksumError, None;
        }
        if |pkt| != 7 {
          return Malformed, None;
        }
        remoteFlow := FlowOf(pkt[1], pkt[2]);
      }
      code := HandleChecked(pkt, verdict);
    }
  }

  /** What is left of handling a packet once an acknowledgement has passed its
      checks and its flow bits are taken over. */
  function Checked(e: Endpoint, pkt: bytes, verdict: word): RxResult
    requires |pkt| >= 1 && CMC in e.chans
  {
    var h := pkt[0];
    var id := ChannelOf(h);
    ChannelInRange(h);
    if !e.connected then
      if e.server then RxResult(e, Ok)
      else if h != 0x5F then RxResult(e, BadState)
      else RxResult(e.(connected := true), Ok)
    else if id == 15 then
      RxResult(DropAcknowledged(e, PeerAccepted(h, e.se)), Ok)
    else if CanAccept(h, e.se) then
      var r := E.ChannelReceive(e, pkt, id, verdict);
      if r.code != Ok then r
      else
        var e2 := r.e.(se := ToggleE(r.e.se), remoteFlow := SetFlow(r.e.remoteFlow, id, HasF(h)));
        RxResult(DropAcknowledged(e2, PeerAccepted(h, e.se)), Ok)
    else
      var e2 := e.(remoteFlow := SetFlow(e.remoteFlow, id, HasF(h)));
      RxResult(DropAcknowledged(e2, PeerAccepted(h, e.se)), Ok)
  }

  lemma PacketIsChecked(e: Endpoint, pkt: bytes, verdict: word)
    requires |pkt| >= 1 && CMC in e.chans
    ensures E.HandlePacket(e, pkt, verdict) ==
      if IsAck(pkt[0]) && Crc(e.crcIV, pkt) != ALL_ONES then RxResult(e, ChecksumError)
      else if IsAck(pkt[0]) && |pkt| != 7 then RxResult(e, Malformed)
      else Checked(if IsAck(pkt[0]) then e.(remoteFlow := FlowOf(pkt[1], pkt[2])) else e, pkt, verdict)
  {
    hide E.ChannelReceive, ChannelOf, SetFlow, HasF, HasS, HasE, ToggleE, Crc, FlowOf, IsAck;
  }

  // ---------------------------------------------------------------------
  // Facts the methods use
  // ---------------------------------------------------------------------

  lemma NothingCut(mtu: nat, id: nat, iv: word)
    requires mtu >= 2 && id < 15
    ensures FragmentAll(mtu, id, iv, []) == [] && IvAfter(iv, 0) == iv
  {
  }

  /** A channel with some of its messages cut. */
  function Halfway(mtu: nat, id: nat, ch: Chan, done: seq<bytes>, rest: seq<bytes>): Chan
    requires mtu >= 2 && id < 15
  {
    ch.(txq := ch.txq + FragmentAll(mtu, id, ch.txIV, done), mtxq := rest, txIV := IvAfter(ch.txIV, |done|))
  }

  lemma HalfwayEnds(mtu: nat, id: nat, ch: Chan)
    requires mtu >= 2 && id < 15
    ensures Halfway(mtu, id, ch, [], ch.mtxq) == ch && Halfway(mtu, id, ch, ch.mtxq, []) == FragmentChan(mtu, id, ch)
  {
    hide FragmentAll, IvAfter;
    NothingCut(mtu, id, ch.txIV);
    assert ch.txq + [] == ch.txq;
  }

  lemma HalfwayOn(mtu: nat, id: nat, ch: Chan, done: seq<bytes>, rest: seq<bytes>)
    requires mtu >= 2 && id < 15 && rest != []
    ensures var h := Halfway(mtu, id, ch, done, rest);
      Halfway(mtu, id, ch, done + [rest[0]], rest[1..]) ==
        h.(mtxq := rest[1..], txIV := NextIv(h.txIV), txq := h.txq + Chunks(mtu, id, Seal(h.txIV, rest[0])))
  {
    hide FragmentAll, Chunks, Seal, IvAfter, NextIv;
    FragmentSnoc(mtu, id, ch.txIV, done, rest[0]);
    IvSnoc(ch.txIV, |done|);
    var a, b, c := ch.txq, FragmentAll(mtu, id, ch.txIV, done), Chunks(mtu, id, Seal(IvAfter(ch.txIV, |done|), rest[0]));
    assert a + (b + c) == a + b + c;
  }

  lemma IvSnoc(iv: word, n: nat)
    ensures IvAfter(iv, n + 1) == NextIv(IvAfter(iv, n))
  {
  }

  lemma SealIs(iv: word, m: bytes, crc: word)
    requires crc == Zlib(iv, m)
    ensures m + LittleEndian(Not(crc)) == Seal(iv, m)
  {
    hide LittleEndian, Not, Crc, Zlib;
    TableEqualsBitwise(iv, m);
  }

  lemma ReadyFacts(e: Endpoint)
    requires ScanReady(e)
    ensures e.mtu >= 2 && forall i :: i in e.active ==> i in e.chans && i < 15
    ensures e.currentTx.Some? ==> 1 <= |e.currentTx.value| && (e.fdcan ==> |e.currentTx.value| <= 64)
  {
  }

  lemma StartFits(e: Endpoint)
    requires ScanReady(e)
    ensures var pick := Scan(e.mtu, e.remoteFlow, e.active, e.chans, 0);
      pick.pos < |e.active| ==>
        var txq := pick.chans[e.active[pick.pos]].txq;
        txq != [] && 1 <= |txq[0]| && (e.fdcan ==> |txq[0]| <= 64)
  {
    hide Scan;
    ScanFindsPacket(e);
  }

  lemma StartShape(e: Endpoint)
    requires ScanReady(e)
    ensures var pick := Scan(e.mtu, e.remoteFlow, e.active, e.chans, 0);
      pick.pos < |e.active| ==>
        && e.active[pick.pos] in pick.chans && e.active[pick.pos] < 15 && pick.chans[e.active[pick.pos]].txq != []
        && StartPacket(e.(chans := pick.chans), pick) == StartPacket(e, pick)
        && StartPacket(e, pick).currentTx == Some(pick.chans[e.active[pick.pos]].txq[0])
        && StartPacket(e, pick).fdcan == e.fdcan
  {
    hide Scan, SetFlow, ToggleS;
    ScanFindsPacket(e);
  }

  lemma FirstReady(e: Endpoint)
    requires PendingReady(e) && e.pending != []
    ensures e.pending[0] in e.chans && e.pending[0] < 14 && CMC in e.chans
  {
  }
}
