/** The receive ring of the RTL8168 driver: the NIC fills descriptors it owns,
    the driver passes full buffers on, puts fresh ones in their place and gives
    the descriptors back. */
module NicRx {
  import opened NicRing

  /** What the NIC reports: the frame's length with its checksum, and its verdict
      on the protocols' checksums. */
  datatype Status = Status(len: nat, udp: bool, tcp: bool, ipBad: bool, udpBad: bool, tcpBad: bool)

  /** A packet on the interface's queue: its two pool items, its length, whether
      its checksum was found good, and which of the NIC's frames it is. */
  datatype Packet = Packet(pb: nat, buf: nat, len: nat, checked: bool, frame: nat)

  /** `swapped` says the driver has dealt with the descriptor at `next` but not
      yet given it back. `frames` records what the NIC received, and `holds`
      which frame each data item was last filled with; nobody reads either. */
  datatype Rx = Rx(own: seq<bool>, status: seq<Status>, bufs: seq<nat>, next: nat, swapped: bool, nic: nat,
                   pbs: seq<nat>, mems: seq<nat>, queue: seq<Packet>, frames: seq<Status>, holds: map<nat, nat>)

  // ---------------------------------------------------------------------
  // Steps
  // ---------------------------------------------------------------------

  /** A bad UDP or TCP checksum, when the IP header is not in doubt, or a frame
      too short to hold its own checksum. */
  predicate Discarded(s: Status) {
    || (s.udp && !s.ipBad && s.udpBad)
    || (!s.udp && s.tcp && !s.ipBad && s.tcpBad)
    || s.len < 4
  }

  predicate ChecksumGood(s: Status) {
    (s.udp && !s.ipBad && !s.udpBad) || (!s.udp && s.tcp && !s.ipBad && !s.tcpBad)
  }

  predicate CanSwap(r: Rx) { |r.pbs| >= 2 && |r.mems| >= 2 }

  predicate Sized(r: Rx) { |r.own| == SIZE && |r.status| == SIZE && |r.bufs| == SIZE }

  /** A full descriptor: its buffer goes up with a fresh one in its place, or
      stays for the next frame. */
  function Deal(r: Rx): Rx
    requires Sized(r)
  {
    var i := Slot(r.next);
    if r.swapped || r.own[i] then r
    else if Discarded(r.status[i]) || !CanSwap(r) then r.(swapped := true)
    else
      var s := r.status[i];
      r.(queue := r.queue + [Packet(r.pbs[0], r.bufs[i], s.len - 4, ChecksumGood(s), r.next)],
         bufs := r.bufs[i := r.mems[0]], pbs := r.pbs[1..], mems := r.mems[1..], swapped := true)
  }

  /** The descriptor goes back to the NIC. */
  function GiveBack(r: Rx): Rx
    requires Sized(r)
  {
    if !r.swapped then r
    else r.(own := r.own[Slot(r.next) := true], next := r.next + 1, swapped := false)
  }

  /** The NIC fills the descriptor at its place, if it owns it. */
  function Fill(r: Rx, s: Status): Rx
    requires Sized(r)
  {
    var i := Slot(r.nic);
    if !r.own[i] then r
    else
      r.(own := r.own[i := false], status := r.status[i := s], nic := r.nic + 1,
         frames := r.frames + [s], holds := r.holds[r.bufs[i] := r.nic])
  }

  /** The stack has done with the oldest packet. */
  function Consume(r: Rx): Rx {
    if r.queue == [] then r
    else r.(queue := r.queue[1..], pbs := [r.queue[0].pb] + r.pbs, mems := [r.queue[0].buf] + r.mems)
  }

  datatype Action = DealOne | Return | Receive(s: Status) | Done

  function Step(r: Rx, a: Action): Rx
    requires Sized(r)
  {
    match a
    case DealOne => Deal(r)
    case Return => GiveBack(r)
    case Receive(s) => Fill(r, s)
    case Done => Consume(r)
  }

  // ---------------------------------------------------------------------
  // Invariant
  // ---------------------------------------------------------------------

  function QueueBufs(q: seq<Packet>): (r: seq<nat>)
    ensures |r| == |q| && forall i :: 0 <= i < |q| ==> r[i] == q[i].buf
  {
    seq(|q|, i requires 0 <= i < |q| => q[i].buf)
  }

  function QueuePbs(q: seq<Packet>): (r: seq<nat>)
    ensures |r| == |q| && forall i :: 0 <= i < |q| ==> r[i] == q[i].pb
  {
    seq(|q|, i requires 0 <= i < |q| => q[i].pb)
  }

  /** All data items: in descriptors, free, and queued. */
  function Mems(r: Rx): multiset<nat> { multiset(r.bufs) + multiset(r.mems) + multiset(QueueBufs(r.queue)) }

  function Pbs(r: Rx): multiset<nat> { multiset(r.pbs) + multiset(QueuePbs(r.queue)) }

  predicate Once(m: multiset<nat>) { forall x :: x in m ==> m[x] == 1 }

  /** The descriptors from the driver's place to the NIC's are full, and hold
      the NIC's frames in order; all others are the NIC's. */
  predicate SlotOk(r: Rx, p: nat)
    requires Sized(r)
  {
    var i := Slot(p);
    if p < r.nic then
      && !r.own[i] && p < |r.frames| && r.status[i] == r.frames[p]
      && (p > r.next || !r.swapped ==> r.bufs[i] in r.holds && r.holds[r.bufs[i]] == p)
    else r.own[i]
  }

  predicate Ring(r: Rx) {
    && Sized(r) && r.next <= r.nic <= r.next + SIZE && |r.frames| == r.nic
    && (r.swapped ==> r.next < r.nic)
    && forall p: nat :: r.next <= p < r.next + SIZE ==> SlotOk(r, p)
  }

  /** A queued packet is the frame it says, still in its data item. */
  predicate PacketOk(r: Rx, k: Packet) {
    && k.frame < r.next + (if r.swapped then 1 else 0) && k.frame < |r.frames|
    && k.buf in r.holds && r.holds[k.buf] == k.frame
    && !Discarded(r.frames[k.frame]) && k.len == r.frames[k.frame].len - 4
    && k.checked == ChecksumGood(r.frames[k.frame])
  }

  predicate Queue(r: Rx) {
    && (forall i :: 0 <= i < |r.queue| ==> PacketOk(r, r.queue[i]))
    && (forall i, j :: 0 <= i < j < |r.queue| ==> r.queue[i].frame < r.queue[j].frame)
  }

  predicate Inv(r: Rx) { Ring(r) && Queue(r) && Once(Mems(r)) }

  // ---------------------------------------------------------------------
  // Items are conserved
  // ---------------------------------------------------------------------

  lemma QueueSnoc(q: seq<Packet>, k: Packet)
    ensures multiset(QueueBufs(q + [k])) == multiset(QueueBufs(q)) + multiset{k.buf}
    ensures multiset(QueuePbs(q + [k])) == multiset(QueuePbs(q)) + multiset{k.pb}
  {
    assert QueueBufs(q + [k]) == QueueBufs(q) + [k.buf];
    assert QueuePbs(q + [k]) == QueuePbs(q) + [k.pb];
  }

  lemma QueueCons(q: seq<Packet>)
    requires q != []
    ensures multiset(QueueBufs(q)) == multiset{q[0].buf} + multiset(QueueBufs(q[1..]))
    ensures multiset(QueuePbs(q)) == multiset{q[0].pb} + multiset(QueuePbs(q[1..]))
  {
    assert QueueBufs(q) == [q[0].buf] + QueueBufs(q[1..]);
    assert QueuePbs(q) == [q[0].pb] + QueuePbs(q[1..]);
  }

  lemma TakeFirst(s: seq<nat>)
    requires s != []
    ensures multiset(s) == multiset{s[0]} + multiset(s[1..])
  {
    assert s == [s[0]] + s[1..];
  }

  /** An item leaves one place for another. */
  lemma SwapBuf(bufs: seq<nat>, i: nat, x: nat)
    requires i < |bufs|
    ensures multiset(bufs[i := x]) + multiset{bufs[i]} == multiset(bufs) + multiset{x}
  {
  }

  lemma DealConserves(r: Rx)
    requires Sized(r)
    ensures Mems(Deal(r)) == Mems(r) && Pbs(Deal(r)) == Pbs(r)
  {
    hide Slot, QueueBufs, QueuePbs, ChecksumGood;
    var i := Slot(r.next);
    if !r.swapped && !r.own[i] && !Discarded(r.status[i]) && CanSwap(r) {
      QueueSnoc(r.queue, Packet(r.pbs[0], r.bufs[i], r.status[i].len - 4, ChecksumGood(r.status[i]), r.next));
      TakeFirst(r.pbs);
      TakeFirst(r.mems);
      SwapBuf(r.bufs, i, r.mems[0]);
    }
  }

  lemma ConsumeConserves(r: Rx)
    ensures Mems(Consume(r)) == Mems(r) && Pbs(Consume(r)) == Pbs(r)
  {
    hide QueueBufs, QueuePbs;
    if r.queue != [] { QueueCons(r.queue); }
  }

  /** No step loses or duplicates an item of either pool. */
  lemma StepConserves(r: Rx, a: Action)
    requires Sized(r)
    ensures Mems(Step(r, a)) == Mems(r) && Pbs(Step(r, a)) == Pbs(r)
  {
    hide Slot, QueueBufs, QueuePbs, Deal, Consume;
    DealConserves(r);
    ConsumeConserves(r);
  }

  // ---------------------------------------------------------------------
  // Every step keeps the invariant
  // ---------------------------------------------------------------------

  lemma TurnSlot(p: nat)
    ensures Slot(p + SIZE) == Slot(p)
  {
  }

  lemma OnceConserved(r: Rx, a: Action)
    requires Sized(r) && Once(Mems(r))
    ensures Once(Mems(Step(r, a)))
  {
    hide Mems, Pbs, Step, Once;
    StepConserves(r, a);
  }

  /** Two descriptors never hold the same data item, nor does a descriptor hold
      one that is queued. */
  lemma BufsDiffer(r: Rx, i: nat, j: nat)
    requires |r.bufs| == SIZE && Once(Mems(r)) && i < SIZE && j < SIZE && i != j
    ensures r.bufs[i] != r.bufs[j]
  {
    hide QueueBufs;
    SeqTwice(r.bufs, i, j);
    assert Mems(r)[r.bufs[i]] >= multiset(r.bufs)[r.bufs[i]];
    assert r.bufs[i] in Mems(r);
  }

  lemma SeqTwice(s: seq<nat>, i: nat, j: nat)
    requires i < |s| && j < |s| && i != j
    ensures s[i] == s[j] ==> multiset(s)[s[i]] >= 2
  {
    if s[i] == s[j] { TwiceInSeq(s, i, j); }
  }

  lemma TwiceInSeq(s: seq<nat>, i: nat, j: nat)
    requires i < |s| && j < |s| && i != j && s[i] == s[j]
    ensures multiset(s)[s[i]] >= 2
  {
    var a, b := if i < j then i else j, if i < j then j else i;
    assert s == s[..a + 1] + s[a + 1..];
    assert s[..a + 1][a] == s[i] && s[a + 1..][b - a - 1] == s[i];
    assert multiset(s) == multiset(s[..a + 1]) + multiset(s[a + 1..]);
    assert s[i] in multiset(s[..a + 1]) && s[i] in multiset(s[a + 1..]);
  }

  lemma RingNotQueued(r: Rx, i: nat, k: nat)
    requires |r.bufs| == SIZE && Once(Mems(r)) && i < SIZE && k < |r.queue|
    ensures r.bufs[i] != r.queue[k].buf
  {
    var x, y := r.bufs[i], r.queue[k].buf;
    assert QueueBufs(r.queue)[k] == y;
    assert x in multiset(r.bufs) && y in multiset(QueueBufs(r.queue));
    assert x == y ==> Mems(r)[x] >= 2;
    assert x in Mems(r);
  }

  lemma DealKeeps(r: Rx)
    requires Inv(r)
    ensures Ring(Deal(r)) && Queue(Deal(r))
  {
    hide Slot, Mems, Once, ChecksumGood, Discarded;
    var z := Deal(r);
    var i := Slot(r.next);
    assert SlotOk(r, r.next);
    if !r.swapped && !r.own[i] {
      forall p: nat | r.next <= p < r.next + SIZE
        ensures SlotOk(z, p)
      {
        assert SlotOk(r, p);
        if p != r.next { SlotsDiffer(r.next, p, r.next); }
      }
      forall k | 0 <= k < |z.queue|
        ensures PacketOk(z, z.queue[k])
      {
        if k < |r.queue| { assert PacketOk(r, r.queue[k]); } else { DealtOk(r); }
      }
      assert forall k :: 0 <= k < |r.queue| ==> PacketOk(r, r.queue[k]);
    }
  }

  lemma DealtOk(r: Rx)
    requires Sized(r) && SlotOk(r, r.next) && !r.swapped && !r.own[Slot(r.next)] && r.next < r.nic
    requires !Discarded(r.status[Slot(r.next)]) && CanSwap(r)
    ensures PacketOk(Deal(r), Deal(r).queue[|r.queue|])
  {
  }

  lemma ReturnKeeps(r: Rx)
    requires Inv(r)
    ensures Ring(GiveBack(r)) && Queue(GiveBack(r))
  {
    hide Slot, Mems, Once, ChecksumGood, Discarded;
    var z := GiveBack(r);
    if r.swapped {
      assert SlotOk(r, r.next);
      forall p: nat | z.next <= p < z.next + SIZE
        ensures SlotOk(z, p)
      {
        if p < r.next + SIZE {
          assert SlotOk(r, p);
          SlotsDiffer(r.next, p, r.next);
        } else {
          TurnSlot(r.next);
        }
      }
      forall k | 0 <= k < |z.queue|
        ensures PacketOk(z, z.queue[k])
      {
        assert PacketOk(r, r.queue[k]);
      }
    }
  }

  lemma FillKeeps(r: Rx, s: Status)
    requires Inv(r)
    ensures Ring(Fill(r, s)) && Queue(Fill(r, s))
  {
    hide Slot, Mems, Once, ChecksumGood, Discarded;
    var z := Fill(r, s);
    if r.own[Slot(r.nic)] {
      NicInside(r);
      forall p: nat | r.next <= p < r.next + SIZE
        ensures SlotOk(z, p)
      {
        assert SlotOk(r, p);
        if p != r.nic {
          SlotsDiffer(r.next, p, r.nic);
          BufsDiffer(r, Slot(p), Slot(r.nic));
        }
      }
      forall k | 0 <= k < |z.queue|
        ensures PacketOk(z, z.queue[k])
      {
        assert PacketOk(r, r.queue[k]);
        RingNotQueued(r, Slot(r.nic), k);
      }
    }
  }

  lemma NicInside(r: Rx)
    requires Ring(r) && r.own[Slot(r.nic)]
    ensures r.nic < r.next + SIZE
  {
    hide Slot;
    assert SlotOk(r, r.next);
    TurnSlot(r.next);
  }

  lemma ConsumeKeeps(r: Rx)
    requires Inv(r)
    ensures Ring(Consume(r)) && Queue(Consume(r))
  {
    hide Slot, Mems, Once, ChecksumGood, Discarded;
    var z := Consume(r);
    if r.queue == [] {
      return;
    }
    forall p: nat | r.next <= p < r.next + SIZE
      ensures SlotOk(z, p)
    {
      assert SlotOk(r, p);
    }
    forall k | 0 <= k < |z.queue|
      ensures PacketOk(z, z.queue[k])
    {
      assert PacketOk(r, r.queue[k + 1]);
    }
  }

  lemma StepKeeps(r: Rx, a: Action)
    requires Inv(r)
    ensures Inv(Step(r, a))
  {
    hide Ring, Queue, Mems, Once, Deal, GiveBack, Fill, Consume;
    RingSized(r);
    OnceConserved(r, a);
    match a
    case DealOne => DealKeeps(r);
    case Return => ReturnKeeps(r);
    case Receive(s) => FillKeeps(r, s);
    case Done => ConsumeKeeps(r);
  }

  lemma RingSized(r: Rx)
    requires Ring(r)
    ensures Sized(r)
  {
  }

  function Next(r: Rx, a: Action): Rx { if Sized(r) then Step(r, a) else r }

  function Run(r: Rx, actions: seq<Action>): Rx
    decreases actions
  {
    if actions == [] then r else Next(Run(r, actions[..|actions| - 1]), actions[|actions| - 1])
  }

  lemma {:induction false} RunKeeps(r: Rx, actions: seq<Action>)
    requires Inv(r)
    ensures Inv(Run(r, actions)) && Mems(Run(r, actions)) == Mems(r) && Pbs(Run(r, actions)) == Pbs(r)
    decreases actions
  {
    hide Ring, Queue, Mems, Pbs, Once, Step;
    if actions != [] {
      var r1 := Run(r, actions[..|actions| - 1]);
      RunKeeps(r, actions[..|actions| - 1]);
      RingSized(r1);
      StepConserves(r1, actions[|actions| - 1]);
      StepKeeps(r1, actions[|actions| - 1]);
    }
  }

  // ---------------------------------------------------------------------
  // Guarantees
  // ---------------------------------------------------------------------

  /** A ring of 64 descriptors with a data item each, all the NIC's. */
  predicate Fresh(r: Rx) {
    && Sized(r) && r.next == 0 && !r.swapped && r.nic == 0 && r.queue == [] && r.frames == []
    && (forall i :: 0 <= i < SIZE ==> r.own[i])
    && Once(Mems(r))
  }

  lemma FreshInv(r: Rx)
    requires Fresh(r)
    ensures Inv(r)
  {
    hide Mems, Once;
  }

  /** However driver, NIC and stack interleave, every descriptor holds exactly
      one data item, no two the same, none of them free or queued; and no item
      of either pool is lost or duplicated. */
  lemma DescriptorsOwnOneBuffer(r: Rx, actions: seq<Action>, i: nat, j: nat)
    requires Fresh(r) && i < SIZE && j < SIZE
    ensures var z := Run(r, actions);
      && |z.bufs| == SIZE
      && (i != j ==> z.bufs[i] != z.bufs[j])
      && (forall k :: 0 <= k < |z.queue| ==> z.bufs[i] != z.queue[k].buf)
      && Mems(z) == Mems(r) && Pbs(z) == Pbs(r)
  {
    hide Ring, Queue, Mems, Pbs, Once, Run, Fresh;
    FreshInv(r);
    RunKeeps(r, actions);
    var z := Run(r, actions);
    RingSized(z);
    if i != j { BufsDiffer(z, i, j); }
    forall k | 0 <= k < |z.queue|
      ensures z.bufs[i] != z.queue[k].buf
    {
      RingNotQueued(z, i, k);
    }
  }

  /** Every queued packet is a frame the NIC received and did not find bad, in
      the order of arrival, and its data item still holds that frame. */
  lemma QueuedIsReceived(r: Rx, actions: seq<Action>, k: nat)
    requires Fresh(r)
    ensures var z := Run(r, actions);
      && (k < |z.queue| ==> PacketOk(z, z.queue[k]))
      && (k + 1 < |z.queue| ==> z.queue[k].frame < z.queue[k + 1].frame)
  {
    hide Ring, Mems, Pbs, Once, Run, Fresh, PacketOk;
    FreshInv(r);
    RunKeeps(r, actions);
  }

  // ---------------------------------------------------------------------
  // The code
  // ---------------------------------------------------------------------

  /** The driver's descriptors are exactly those before the NIC's place. */
  predicate Front(r: Rx) {
    && Sized(r) && r.next <= r.nic <= r.next + SIZE && !r.swapped
    && forall p: nat :: r.next <= p < r.next + SIZE ==> (r.own[Slot(p)] <==> p >= r.nic)
  }

  lemma TurnFront(r: Rx)
    requires Front(r) && !r.own[Slot(r.next)]
    ensures var z := GiveBack(Deal(r)); Front(z) && z.nic - z.next < r.nic - r.next
  {
    hide Slot, ChecksumGood, Discarded;
    var z := GiveBack(Deal(r));
    forall p: nat | z.next <= p < z.next + SIZE
      ensures z.own[Slot(p)] <==> p >= z.nic
    {
      if p < r.next + SIZE { SlotsDiffer(r.next, p, r.next); } else { TurnSlot(r.next); }
    }
  }

  /** `handle_rx`, the NIC holding still: until a descriptor of the NIC's. */
  function HandleAll(r: Rx): Rx
    requires Front(r)
    decreases r.nic - r.next
  {
    if r.own[Slot(r.next)] then r
    else
      TurnFront(r);
      HandleAll(GiveBack(Deal(r)))
  }

  class Receiver {
    var own: seq<bool>
    var status: seq<Status>
    var bufs: seq<nat>
    var next: nat
    var pbs: seq<nat>
    var mems: seq<nat>
    var queue: seq<Packet>
    ghost var nic: nat
    ghost var frames: seq<Status>
    ghost var holds: map<nat, nat>

    ghost function Value(): Rx
      reads this
    {
      Rx(own, status, bufs, next, false, nic, pbs, mems, queue, frames, holds)
    }

    constructor (bufs: seq<nat>, pbs: seq<nat>, mems: seq<nat>)
      requires |bufs| == SIZE
      ensures Value() == Rx(seq(SIZE, _ => true), seq(SIZE, _ => Status(0, false, false, false, false, false)), bufs,
                            0, false, 0, pbs, mems, [], [], map[])
    {
      own, status := seq(SIZE, _ => true), seq(SIZE, _ => Status(0, false, false, false, false, false));
      this.bufs, this.pbs, this.mems := bufs, pbs, mems;
      next, queue, nic, frames, holds := 0, [], 0, [], map[];
    }

    /** One turn of `handle_rx`. */
    method Turn()
      requires Sized(Value()) && !own[Slot(next)]
      modifies this
      ensures Value() == GiveBack(Deal(old(Value())))
    {
      hide Slot, ChecksumGood;
      var i := Slot(next);
      var s := status[i];
      if !Discarded(s) && |pbs| >= 2 {
        var pb := pbs[0];
        pbs := pbs[1..];
        if |mems| >= 2 {
          queue := queue + [Packet(pb, bufs[i], s.len - 4, ChecksumGood(s), next)];
          bufs := bufs[i := mems[0]];
          mems := mems[1..];
        } else {
          pbs := [pb] + pbs;
        }
      }
      own := own[i := true];
      next := next + 1;
    }

    /** `handle_rx`. */
    method HandleRx()
      requires Front(Value())
      modifies this
      ensures Value() == HandleAll(old(Value()))
    {
      hide Slot, Front;
      FrontSized(Value());
      while !own[Slot(next)]
        invariant Front(Value()) && Sized(Value()) && HandleAll(Value()) == HandleAll(old(Value()))
        decreases nic - next
      {
        TurnFront(Value());
        Turn();
        FrontSized(Value());
      }
    }
  }

  lemma FrontSized(r: Rx)
    requires Front(r)
    ensures Sized(r) && r.next <= r.nic
  {
  }
}
