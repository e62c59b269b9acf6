/** The transmit ring of the RTL8168 driver, shared with a NIC that moves between
    any two of the driver's writes. */
module NicTx {
  import opened NicRing

  /** A fragment: its data item, length, and whether it starts or ends a packet. */
  datatype Frag = Frag(buf: nat, len: nat, sop: bool, eop: bool)

  datatype Desc = Desc(own: bool, fs: bool, ls: bool, eor: bool, buf: nat, len: nat)

  /** Where the driver is inside `eth_output`: fragments of `pkt` whose buffer
      pointer is stored, then whose command word is, then the hand-over. */
  datatype Stage = Outside | Storing(pkt: seq<Frag>, bufs: nat, cmds: nat) | Handed(pkt: seq<Frag>)

  /** `freed` lists the data items given back after sending, in order, and
      `dropped` the fragments of packets refused, whose items go back at once.
      `place` is the descriptor the NIC looks at. `hist` records every fragment
      handed to the NIC, and `nic` counts those it has sent; nobody reads them. */
  datatype Tx = Tx(ring: seq<Desc>, data: seq<nat>, wr: nat, rd: nat, stage: Stage, place: nat, nic: nat,
                   hist: seq<Frag>, sent: seq<Frag>, freed: seq<nat>, dropped: seq<Frag>)

  /** A packet as the stack builds it. */
  predicate WholePacket(pkt: seq<Frag>) {
    pkt != [] && forall i :: 0 <= i < |pkt| ==> (pkt[i].sop <==> i == 0) && (pkt[i].eop <==> i == |pkt| - 1)
  }

  function DescOf(f: Frag, p: nat, own: bool): Desc { Desc(own, f.sop, f.eop, Slot(p) == SIZE - 1, f.buf, f.len) }

  // ---------------------------------------------------------------------
  // Steps
  // ---------------------------------------------------------------------

  datatype Action = Submit(pkt: seq<Frag>) | Drive | Nic | Reclaim

  /** Fragments queued, as the driver counts them. */
  function Queued(t: Tx): int { (t.wr - t.rd) % SIZE }

  /** The next write of the driver, once inside. */
  function DriveStep(t: Tx): Tx
    requires |t.ring| == SIZE && |t.data| == SIZE
  {
    match t.stage
    case Outside => t
    case Handed(pkt) => t.(wr := t.wr + |pkt|, stage := Outside)
    case Storing(pkt, bufs, cmds) =>
      if cmds < bufs <= |pkt| then
        var p, f := t.wr + cmds, pkt[cmds];
        t.(ring := t.ring[Slot(p) := DescOf(f, p, cmds > 0).(buf := t.ring[Slot(p)].buf)],
           stage := Storing(pkt, bufs, cmds + 1))
      else if bufs < |pkt| then
        var p, f := t.wr + bufs, pkt[bufs];
        t.(data := t.data[Slot(p) := f.buf], ring := t.ring[Slot(p) := t.ring[Slot(p)].(buf := f.buf)],
           stage := Storing(pkt, bufs + 1, cmds))
      else
        t.(ring := t.ring[Slot(t.wr) := t.ring[Slot(t.wr)].(own := true)],
           stage := Handed(pkt), hist := t.hist + pkt)
  }

  /** The NIC takes the descriptor at its place, if it owns it, and goes on to the
      next; only the end-of-ring mark takes it back to the start. */
  function NicStep(t: Tx): Tx
    requires |t.ring| == SIZE
  {
    if t.place < SIZE && t.ring[t.place].own then
      var d := t.ring[t.place];
      t.(ring := t.ring[t.place := d.(own := false)], place := if d.eor then 0 else t.place + 1, nic := t.nic + 1,
         sent := t.sent + [Frag(d.buf, d.len, d.fs, d.ls)])
    else t
  }

  /** One turn of the loop in `handle_tx`; interrupts are held off inside
      `eth_output`. */
  function ReclaimStep(t: Tx): Tx
    requires |t.ring| == SIZE && |t.data| == SIZE
  {
    if t.stage == Outside && t.rd != t.wr && !t.ring[Slot(t.rd)].own then
      t.(rd := t.rd + 1, freed := t.freed + [t.data[Slot(t.rd)]])
    else t
  }

  function Step(t: Tx, a: Action): Tx
    requires |t.ring| == SIZE && |t.data| == SIZE
  {
    match a
    case Submit(pkt) =>
      if t.stage == Outside && WholePacket(pkt) then
        if Queued(t) + |pkt| >= SIZE then t.(dropped := t.dropped + pkt) else t.(stage := Storing(pkt, 0, 0))
      else t
    case Drive => DriveStep(t)
    case Nic => NicStep(t)
    case Reclaim => ReclaimStep(t)
  }

  // ---------------------------------------------------------------------
  // Invariant
  // ---------------------------------------------------------------------

  /** How far fragments have been handed over. */
  function End(t: Tx): nat { |t.hist| }

  /** A position's descriptor belongs to the NIC exactly as it should. */
  predicate SlotOk(t: Tx, p: nat)
    requires |t.ring| == SIZE && |t.data| == SIZE
  {
    var d := t.ring[Slot(p)];
    if p < |t.hist| then
      && d == DescOf(t.hist[p], p, p >= t.nic)
      && t.data[Slot(p)] == t.hist[p].buf
    else
      match t.stage
      case Storing(pkt, bufs, cmds) =>
        var k := p - t.wr;
        && (0 <= k < bufs <= |pkt| ==> d.buf == pkt[k].buf && t.data[Slot(p)] == pkt[k].buf)
        && (0 <= k < cmds <= |pkt| ==> d == DescOf(pkt[k], p, k > 0).(buf := d.buf))
        && (k >= cmds ==> !d.own)
      case _ => !d.own
  }

  predicate StageOk(t: Tx) {
    match t.stage
    case Outside => |t.hist| == t.wr
    case Storing(pkt, bufs, cmds) =>
      && |t.hist| == t.wr && WholePacket(pkt) && cmds <= bufs <= |pkt| && bufs <= cmds + 1
      && t.wr + |pkt| < t.rd + SIZE
    case Handed(pkt) =>
      && |t.hist| == t.wr + |pkt| && pkt != [] && t.wr + |pkt| < t.rd + SIZE
  }

  predicate Shaped(t: Tx) {
    && |t.ring| == SIZE && |t.data| == SIZE
    && t.place == Slot(t.nic)
    && t.rd <= t.nic <= |t.hist| && t.rd <= t.wr <= |t.hist| < t.rd + SIZE
  }

  /** What was handed over is whole packets. */
  predicate EndsWhole(hist: seq<Frag>) { hist != [] ==> hist[|hist| - 1].eop }

  predicate Bufs(fs: seq<Frag>, bufs: seq<nat>) {
    |fs| == |bufs| && forall i :: 0 <= i < |fs| ==> bufs[i] == fs[i].buf
  }

  predicate Inv(t: Tx) {
    && Shaped(t) && StageOk(t) && EndsWhole(t.hist)
    && (forall p: nat :: t.rd <= p < t.rd + SIZE ==> SlotOk(t, p))
    && t.sent == t.hist[..t.nic]
    && Bufs(t.hist[..t.rd], t.freed)
  }

  function Idle(): Tx {
    Tx(seq(SIZE, _ => Desc(false, false, false, false, 0, 0)), seq(SIZE, _ => 0), 0, 0, Outside, 0, 0, [], [], [], [])
  }

  lemma IdleInv()
    ensures Inv(Idle())
  {
  }

  // ---------------------------------------------------------------------
  // Every step keeps it
  // ---------------------------------------------------------------------

  lemma QueuedIs(t: Tx)
    requires t.rd <= t.wr < t.rd + SIZE
    ensures Queued(t) == t.wr - t.rd
  {
  }

  lemma SubmitKeeps(t: Tx, pkt: seq<Frag>)
    requires Inv(t)
    ensures Inv(Step(t, Submit(pkt)))
  {
    hide Slot, EndsWhole, Bufs, Queued;
    QueuedIs(t);
    var z := Step(t, Submit(pkt));
    forall p: nat | t.rd <= p < t.rd + SIZE
      ensures SlotOk(z, p)
    {
      assert SlotOk(t, p);
    }
  }

  lemma StoreBufKeeps(t: Tx)
    requires Inv(t) && t.stage.Storing? && t.stage.cmds == t.stage.bufs < |t.stage.pkt|
    ensures Inv(DriveStep(t))
  {
    hide Slot, EndsWhole, Bufs, WholePacket;
    var z := DriveStep(t);
    var at := t.wr + t.stage.bufs;
    forall p: nat | t.rd <= p < t.rd + SIZE
      ensures SlotOk(z, p)
    {
      assert SlotOk(t, p);
      if p != at { SlotsDiffer(t.rd, p, at); }
    }
  }

  lemma StoreCmdKeeps(t: Tx)
    requires Inv(t) && t.stage.Storing? && t.stage.cmds < t.stage.bufs
    ensures Inv(DriveStep(t))
  {
    hide Slot, EndsWhole, Bufs, WholePacket;
    var z := DriveStep(t);
    var at := t.wr + t.stage.cmds;
    forall p: nat | t.rd <= p < t.rd + SIZE
      ensures SlotOk(z, p)
    {
      assert SlotOk(t, p);
      if p != at { SlotsDiffer(t.rd, p, at); }
    }
  }

  lemma HandOverSlot(t: Tx, p: nat)
    requires Shaped(t) && StageOk(t) && t.stage.Storing? && t.stage.cmds == t.stage.bufs == |t.stage.pkt|
    requires t.rd <= p < t.rd + SIZE && SlotOk(t, p)
    ensures SlotOk(DriveStep(t), p)
  {
    hide Slot;
    var pkt := t.stage.pkt;
    if p != t.wr { SlotsDiffer(t.rd, p, t.wr); }
    if t.wr <= p < t.wr + |pkt| {
      assert DriveStep(t).hist[p] == pkt[p - t.wr];
    }
  }

  lemma HandOverShape(t: Tx)
    requires Shaped(t) && StageOk(t) && t.stage.Storing? && t.stage.cmds == t.stage.bufs == |t.stage.pkt|
    ensures var z := DriveStep(t);
      && Shaped(z) && StageOk(z) && EndsWhole(z.hist)
      && z.hist[..t.nic] == t.hist[..t.nic] && z.hist[..t.rd] == t.hist[..t.rd]
  {
    hide Slot;
    var pkt := t.stage.pkt;
    assert pkt[|pkt| - 1].eop;
  }

  /** The hand-over: one write gives the NIC the whole packet. */
  lemma HandOverKeeps(t: Tx)
    requires Inv(t) && t.stage.Storing? && t.stage.cmds == t.stage.bufs == |t.stage.pkt|
    ensures Inv(DriveStep(t))
  {
    hide Slot, Bufs, SlotOk, StageOk, EndsWhole;
    HandOverShape(t);
    forall p: nat | t.rd <= p < t.rd + SIZE
      ensures SlotOk(DriveStep(t), p)
    {
      HandOverSlot(t, p);
    }
  }

  lemma PublishKeeps(t: Tx)
    requires Inv(t) && t.stage.Handed?
    ensures Inv(DriveStep(t))
  {
    hide Slot, EndsWhole, Bufs;
    var z := DriveStep(t);
    forall p: nat | t.rd <= p < t.rd + SIZE
      ensures SlotOk(z, p)
    {
      assert SlotOk(t, p);
    }
  }

  lemma NicKeeps(t: Tx)
    requires Inv(t)
    ensures Inv(NicStep(t))
  {
    hide Slot, EndsWhole, Bufs, WholePacket;
    var z := NicStep(t);
    assert SlotOk(t, t.nic);
    if t.ring[t.place].own {
      NicInside(t);
      NextSlot(t.nic);
      assert t.hist[..t.nic + 1] == t.hist[..t.nic] + [t.hist[t.nic]];
      forall p: nat | t.rd <= p < t.rd + SIZE
        ensures SlotOk(z, p)
      {
        assert SlotOk(t, p);
        if p != t.nic { SlotsDiffer(t.rd, p, t.nic); }
      }
    }
  }

  lemma NextSlot(p: nat)
    ensures Slot(p + 1) == if Slot(p) == SIZE - 1 then 0 else Slot(p) + 1
  {
  }

  /** What the NIC owns at its place has been handed over. */
  lemma NicInside(t: Tx)
    requires Inv(t) && t.ring[t.place].own
    ensures t.nic < |t.hist|
  {
    hide Slot, EndsWhole, Bufs, WholePacket;
    assert SlotOk(t, t.nic);
  }

  lemma ReclaimKeeps(t: Tx)
    requires Inv(t)
    ensures Inv(ReclaimStep(t))
  {
    hide Slot, EndsWhole, WholePacket;
    var z := ReclaimStep(t);
    if t.stage == Outside && t.rd != t.wr && !t.ring[Slot(t.rd)].own {
      assert SlotOk(t, t.rd);
      assert t.hist[..t.rd + 1] == t.hist[..t.rd] + [t.hist[t.rd]];
      forall p: nat | z.rd <= p < z.rd + SIZE
        ensures SlotOk(z, p)
      {
        if p < t.rd + SIZE {
          assert SlotOk(t, p);
        } else {
          TurnSlot(t.rd);
        }
      }
    }
  }

  lemma TurnSlot(p: nat)
    ensures Slot(p + SIZE) == Slot(p)
  {
  }

  lemma StepKeeps(t: Tx, a: Action)
    requires Inv(t)
    ensures Inv(Step(t, a))
  {
    hide Inv, DriveStep, NicStep, ReclaimStep;
    InvParts(t);
    match a
    case Submit(pkt) => SubmitKeeps(t, pkt);
    case Nic => NicKeeps(t);
    case Reclaim => ReclaimKeeps(t);
    case Drive =>
      match t.stage
      case Outside => OutsideStays(t);
      case Handed(_) => PublishKeeps(t);
      case Storing(pkt, bufs, cmds) =>
        if cmds < bufs {
          StoreCmdKeeps(t);
        } else if bufs < |pkt| {
          StoreBufKeeps(t);
        } else {
          HandOverKeeps(t);
        }
  }

  lemma InvParts(t: Tx)
    requires Inv(t)
    ensures Shaped(t) && StageOk(t)
  {
  }

  lemma OutsideStays(t: Tx)
    requires |t.ring| == SIZE && |t.data| == SIZE && t.stage == Outside
    ensures DriveStep(t) == t
  {
  }

  function Next(t: Tx, a: Action): Tx { if |t.ring| == SIZE && |t.data| == SIZE then Step(t, a) else t }

  function Run(t: Tx, actions: seq<Action>): Tx
    decreases actions
  {
    if actions == [] then t else Next(Run(t, actions[..|actions| - 1]), actions[|actions| - 1])
  }

  lemma {:induction false} RunKeeps(t: Tx, actions: seq<Action>)
    requires Inv(t)
    ensures Inv(Run(t, actions))
    decreases actions
  {
    hide Inv, Step;
    if actions != [] {
      RunKeeps(t, actions[..|actions| - 1]);
      var t1 := Run(t, actions[..|actions| - 1]);
      InvParts(t1);
      StepKeeps(t1, actions[|actions| - 1]);
    }
  }

  // ---------------------------------------------------------------------
  // Guarantees
  // ---------------------------------------------------------------------

  /** However driver and NIC interleave: if the NIC owns the descriptor at its
      place, it also owns every one from there to the end of a packet, with
      buffer, length and marks in place; it never meets a gap inside one. */
  lemma NeverHalfAPacket(actions: seq<Action>, p: nat)
    ensures var t := Run(Idle(), actions);
      && |t.ring| == SIZE && t.place < SIZE && t.place == Slot(t.nic)
      && (t.ring[t.place].own ==>
            && t.nic < |t.hist| && t.hist[|t.hist| - 1].eop
            && (t.nic <= p < |t.hist| ==> t.ring[Slot(p)] == DescOf(t.hist[p], p, true)))
  {
    hide Slot, Bufs, Run;
    IdleInv();
    RunKeeps(Idle(), actions);
    var t := Run(Idle(), actions);
    if t.ring[t.place].own {
      NicInside(t);
      if t.nic <= p < |t.hist| {
        assert SlotOk(t, p);
      }
    }
  }

  /** The NIC sends exactly the fragments handed over, in order; their data items
      go back once each, in order, and only after they were sent. */
  lemma SentThenFreedOnce(actions: seq<Action>)
    ensures var t := Run(Idle(), actions);
      t.sent <= t.hist && |t.freed| <= |t.sent| && Bufs(t.sent[..|t.freed|], t.freed)
  {
    hide Slot, SlotOk, Run, EndsWhole;
    IdleInv();
    RunKeeps(Idle(), actions);
    var t := Run(Idle(), actions);
    assert t.sent[..t.rd] == t.hist[..t.rd];
  }

  /** No write of the driver touches the slot of a fragment not yet reclaimed. */
  lemma NoOverwrite(t: Tx, a: Action, p: nat)
    requires Inv(t) && t.rd <= p < |t.hist| && (a.Drive? || a.Submit?)
    ensures var z := Step(t, a); |z.ring| == SIZE && |z.data| == SIZE
    ensures var z := Step(t, a);
      z.data[Slot(p)] == t.hist[p].buf && z.ring[Slot(p)] == t.ring[Slot(p)]
  {
    hide Slot, EndsWhole, Bufs;
    assert SlotOk(t, p);
    if a.Drive? && t.stage.Storing? {
      var pkt, bufs, cmds := t.stage.pkt, t.stage.bufs, t.stage.cmds;
      if cmds < bufs {
        SlotsDiffer(t.rd, p, t.wr + cmds);
      } else if bufs < |pkt| {
        SlotsDiffer(t.rd, p, t.wr + bufs);
      } else {
        SlotsDiffer(t.rd, p, t.wr);
      }
    }
  }

  /** A packet is refused, and nothing else changes, exactly when its fragments
      would not leave a slot free. */
  lemma RefusedIff(t: Tx, pkt: seq<Frag>)
    requires Inv(t) && t.stage == Outside && WholePacket(pkt)
    ensures var z := Step(t, Submit(pkt));
      && (t.wr - t.rd + |pkt| >= SIZE ==> z == t.(dropped := t.dropped + pkt))
      && (t.wr - t.rd + |pkt| < SIZE ==> z == t.(stage := Storing(pkt, 0, 0)))
  {
    hide SlotOk, Bufs, EndsWhole, WholePacket;
    QueuedIs(t);
  }

  // ---------------------------------------------------------------------
  // The code
  // ---------------------------------------------------------------------

  /** The driver's writes to the end of `eth_output`, the NIC holding still. */
  function DriveAll(t: Tx): Tx
    requires |t.ring| == SIZE && |t.data| == SIZE && StageOk(t)
    decreases Left(t)
  {
    if t.stage == Outside then t
    else
      DriveOn(t);
      DriveAll(DriveStep(t))
  }

  function Left(t: Tx): nat {
    match t.stage
    case Outside => 0
    case Handed(_) => 1
    case Storing(pkt, bufs, cmds) =>
      2 + (if bufs <= |pkt| then |pkt| - bufs else 0) + (if cmds <= |pkt| then |pkt| - cmds else 0)
  }

  lemma DriveOn(t: Tx)
    requires |t.ring| == SIZE && |t.data| == SIZE && StageOk(t) && t.stage != Outside
    ensures var z := DriveStep(t); |z.ring| == SIZE && |z.data| == SIZE && StageOk(z) && Left(z) < Left(t)
  {
    hide Slot, WholePacket;
    if t.stage.Storing? && t.stage.cmds == t.stage.bufs == |t.stage.pkt| {
      NotNothing(t.stage.pkt);
    }
  }

  lemma NotNothing(pkt: seq<Frag>)
    requires WholePacket(pkt)
    ensures pkt != []
  {
  }

  /** The turns of `handle_tx` until it stops. */
  function ReclaimAll(t: Tx): Tx
    requires |t.ring| == SIZE && |t.data| == SIZE && t.rd <= t.wr
    decreases t.wr - t.rd
  {
    if t.stage == Outside && t.rd != t.wr && !t.ring[Slot(t.rd)].own then ReclaimAll(ReclaimStep(t)) else t
  }

  class Driver {
    var ring: seq<Desc>
    var data: seq<nat>
    var wr: nat
    var rd: nat
    var freed: seq<nat>
    var dropped: seq<Frag>
    ghost var stage: Stage
    ghost var place: nat
    ghost var nic: nat
    ghost var hist: seq<Frag>
    ghost var sent: seq<Frag>

    ghost function Value(): Tx
      reads this
    {
      Tx(ring, data, wr, rd, stage, place, nic, hist, sent, freed, dropped)
    }

    constructor ()
      ensures Value() == Idle()
    {
      ring, data := seq(SIZE, _ => Desc(false, false, false, false, 0, 0)), seq(SIZE, _ => 0);
      wr, rd, freed, dropped := 0, 0, [], [];
      stage, place, nic, hist, sent := Outside, 0, 0, [], [];
    }

    /** The buffer pointer of one fragment. */
    method PutBuf(p: nat, f: Frag)
      requires |ring| == SIZE && |data| == SIZE
      modifies this`ring, this`data
      ensures data == old(data)[Slot(p) := f.buf]
      ensures ring == old(ring)[Slot(p) := old(ring)[Slot(p)].(buf := f.buf)]
    {
      data := data[Slot(p) := f.buf];
      ring := ring[Slot(p) := ring[Slot(p)].(buf := f.buf)];
    }

    /** The command word of one fragment; all but the first go to the NIC. */
    method PutCmd(p: nat, f: Frag, first: bool)
      requires |ring| == SIZE
      modifies this`ring
      ensures ring == old(ring)[Slot(p) := DescOf(f, p, !first).(buf := old(ring)[Slot(p)].buf)]
    {
      ring := ring[Slot(p) := Desc(!first, f.sop, f.eop, Slot(p) == SIZE - 1, ring[Slot(p)].buf, f.len)];
    }

    /** The loop that fills the packet's descriptors. */
    method StoreAll(pkt: seq<Frag>)
      requires stage == Storing(pkt, 0, 0) && |ring| == SIZE && |data| == SIZE && StageOk(Value())
      modifies this`ring, this`data, this`stage
      ensures stage == Storing(pkt, |pkt|, |pkt|) && |ring| == SIZE && |data| == SIZE && StageOk(Value())
      ensures DriveAll(Value()) == DriveAll(old(Value()))
    {
      hide Slot, WholePacket, DriveAll;
      var k := 0;
      while k < |pkt|
        invariant k <= |pkt| && stage == Storing(pkt, k, k) && |ring| == SIZE && |data| == SIZE && StageOk(Value())
        invariant DriveAll(Value()) == DriveAll(old(Value()))
      {
        DriveTwice(Value(), k);
        PutBuf(wr + k, pkt[k]);
        PutCmd(wr + k, pkt[k], k == 0);
        k := k + 1;
        stage := Storing(pkt, k, k);
      }
    }

    /** `rtl8168_eth_output`. */
    method Output(pkt: seq<Frag>) returns (full: bool)
      requires Inv(Value()) && stage == Outside && WholePacket(pkt)
      modifies this
      ensures full == (old(wr) - old(rd) + |pkt| >= SIZE)
      ensures full ==> Value() == old(Value()).(dropped := old(dropped) + pkt)
      ensures !full ==> old(wr + |pkt| < rd + SIZE && |ring| == SIZE && |data| == SIZE)
                        && Value() == DriveAll(old(Value()).(stage := Storing(pkt, 0, 0)))
    {
      hide Slot, SlotOk, Bufs, EndsWhole, WholePacket, DriveAll;
      QueuedIs(Value());
      var queued := (wr - rd) % SIZE;
      if queued + |pkt| >= SIZE {
        dropped := dropped + pkt;
        return true;
      }
      stage := Storing(pkt, 0, 0);
      StoreAll(pkt);
      DriveLast(Value());
      ring := ring[Slot(wr) := ring[Slot(wr)].(own := true)];
      hist := hist + pkt;
      wr := wr + |pkt|;
      stage := Outside;
      return false;
    }

    /** `handle_tx`. */
    method HandleTx()
      requires |ring| == SIZE && |data| == SIZE && rd <= wr && stage == Outside
      modifies this`rd, this`freed
      ensures Value() == ReclaimAll(old(Value()))
    {
      hide Slot;
      while rd != wr && !ring[Slot(rd)].own
        invariant rd <= wr && ReclaimAll(Value()) == ReclaimAll(old(Value()))
        decreases wr - rd
      {
        freed := freed + [data[Slot(rd)]];
        rd := rd + 1;
      }
    }
  }

  /** One fragment is two driver writes. */
  lemma DriveTwice(t: Tx, k: nat)
    requires |t.ring| == SIZE && |t.data| == SIZE && StageOk(t) && t.stage.Storing?
    requires t.stage.bufs == t.stage.cmds == k < |t.stage.pkt|
    ensures var p, f := t.wr + k, t.stage.pkt[k];
      var ring := t.ring[Slot(p) := t.ring[Slot(p)].(buf := f.buf)];
      var z := t.(data := t.data[Slot(p) := f.buf],
                  ring := ring[Slot(p) := DescOf(f, p, k > 0).(buf := ring[Slot(p)].buf)],
                  stage := Storing(t.stage.pkt, k + 1, k + 1));
      |z.ring| == SIZE && |z.data| == SIZE && StageOk(z) && DriveAll(t) == DriveAll(z)
  {
    hide Slot, WholePacket;
    DriveOn(t);
    DriveOn(DriveStep(t));
  }

  /** The hand-over and the new write pointer. */
  lemma DriveLast(t: Tx)
    requires |t.ring| == SIZE && |t.data| == SIZE && StageOk(t) && t.stage.Storing?
    requires t.stage.bufs == t.stage.cmds == |t.stage.pkt|
    ensures DriveAll(t) ==
      t.(ring := t.ring[Slot(t.wr) := t.ring[Slot(t.wr)].(own := true)], hist := t.hist + t.stage.pkt,
         wr := t.wr + |t.stage.pkt|, stage := Outside)
  {
    hide Slot, WholePacket;
    DriveOn(t);
    var t1 := DriveStep(t);
    DriveOn(t1);
    var t2 := DriveStep(t1);
    assert DriveAll(t2) == t2;
    assert DriveAll(t1) == DriveAll(t2);
  }
}
