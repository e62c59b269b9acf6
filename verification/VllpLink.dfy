/** The stop-and-wait link under VLLP: one S and one E bit per header, in both
    directions at once, over FIFO links that lose and repeat packets. Fragments
    are abstract here; the histories of fragments started and accepted by each
    end, and the counts a packet was sent with, exist only to state the invariant. */
module VllpLink {
  import opened Common

  /** A packet in flight: its S and E bits and the fragment it carries, if any,
      with the sender's two counts when it was sent. */
  datatype Seen = Seen(s: bool, e: bool, frag: Option<bytes>, started: nat, accepted: nat)

  /** One end: its bits, its outstanding fragment, and its histories. */
  datatype End = End(s: bool, e: bool, out: Option<bytes>, started: seq<bytes>, accepted: seq<bytes>)

  predicate Odd(n: nat) { n % 2 == 1 }

  // ---------------------------------------------------------------------
  // Steps
  // ---------------------------------------------------------------------

  function Announce(x: End, frag: Option<bytes>): Seen {
    Seen(x.s, x.e, frag, |x.started|, |x.accepted|)
  }

  function Start(x: End, frag: bytes): End {
    x.(s := !x.s, out := Some(frag), started := x.started + [frag])
  }

  predicate Accepts(y: End, m: Seen) { m.frag.Some? && m.s == y.e }

  predicate Confirms(y: End, m: Seen) { m.e != y.s }

  function Deliver(y: End, m: Seen): End {
    var y1 := if Accepts(y, m) then y.(e := !y.e, accepted := y.accepted + [m.frag.value]) else y;
    if Confirms(y, m) then y1.(out := None) else y1
  }

  function Without<T>(s: seq<T>, i: nat): seq<T>
    requires i < |s|
  {
    s[..i] + s[i + 1..]
  }

  function Repeated<T>(s: seq<T>, i: nat): seq<T>
    requires i < |s|
  {
    s[..i + 1] + s[i..]
  }

  // ---------------------------------------------------------------------
  // Invariant
  // ---------------------------------------------------------------------

  /** A packet from x, as seen from the data direction x to y. */
  predicate DataOk(m: Seen, started: seq<bytes>, accepted: nat) {
    && accepted <= m.started <= |started|
    && m.s == Odd(m.started)
    && (m.frag.Some? ==> m.started >= 1 && m.frag.value == started[m.started - 1])
  }

  /** A packet from y, as an acknowledgement of x's data. */
  predicate AckOk(m: Seen, low: int, accepted: nat) {
    && low <= m.accepted <= accepted
    && m.e == !Odd(m.accepted)
  }

  predicate DataOrdered(ms: seq<Seen>) {
    forall i, j :: 0 <= i < j < |ms| ==> ms[i].started <= ms[j].started
  }

  predicate AckOrdered(ms: seq<Seen>) {
    forall i, j :: 0 <= i < j < |ms| ==> ms[i].accepted <= ms[j].accepted
  }

  /** Lowest count an acknowledgement still in flight to x may carry. */
  function AckLow(x: End): int {
    if x.out.Some? then |x.started| - 1 else |x.started|
  }

  /** The data direction from x to y: packets `xy` travel with the data, packets
      `yx` carry the acknowledgements back. */
  predicate Half(x: End, y: End, xy: seq<Seen>, yx: seq<Seen>) {
    && x.s == Odd(|x.started|)
    && y.e == !Odd(|y.accepted|)
    && y.accepted <= x.started
    && |x.started| <= |y.accepted| + 1
    && (x.out.Some? ==> |x.started| >= 1 && x.out.value == x.started[|x.started| - 1])
    && (x.out.None? ==> |x.started| == |y.accepted|)
    && (forall i :: 0 <= i < |xy| ==> DataOk(xy[i], x.started, |y.accepted|))
    && (forall i :: 0 <= i < |yx| ==> AckOk(yx[i], AckLow(x), |y.accepted|))
    && DataOrdered(xy)
    && AckOrdered(yx)
  }

  predicate LinkInv(x: End, y: End, xy: seq<Seen>, yx: seq<Seen>) {
    Half(x, y, xy, yx) && Half(y, x, yx, xy)
  }

  lemma InitialLink()
    ensures LinkInv(End(false, true, None, [], []), End(false, true, None, [], []), [], [])
  {
  }

  // ---------------------------------------------------------------------
  // Every step keeps it
  // ---------------------------------------------------------------------

  lemma SendKeepsData(x: End, y: End, xy: seq<Seen>, yx: seq<Seen>, frag: Option<bytes>)
    requires Half(x, y, xy, yx)
    requires frag.Some? ==> x.out == frag
    ensures Half(x, y, xy + [Announce(x, frag)], yx)
  {
  }

  lemma SendKeepsAcks(x: End, y: End, xy: seq<Seen>, yx: seq<Seen>, frag: Option<bytes>)
    requires Half(y, x, yx, xy)
    ensures Half(y, x, yx, xy + [Announce(x, frag)])
  {
  }

  lemma SendKeepsLink(x: End, y: End, xy: seq<Seen>, yx: seq<Seen>, frag: Option<bytes>)
    requires LinkInv(x, y, xy, yx)
    requires frag.Some? ==> x.out == frag
    ensures LinkInv(x, y, xy + [Announce(x, frag)], yx)
  {
    SendKeepsData(x, y, xy, yx, frag);
    SendKeepsAcks(x, y, xy, yx, frag);
  }

  lemma StartKeepsLink(x: End, y: End, xy: seq<Seen>, yx: seq<Seen>, frag: bytes)
    requires LinkInv(x, y, xy, yx)
    requires x.out.None?
    ensures LinkInv(Start(x, frag), y, xy, yx)
  {
    var x1 := Start(x, frag);
    assert Odd(|x1.started|) == !Odd(|x.started|);
    assert Half(x1, y, xy, yx);
    assert Half(y, x1, yx, xy);
  }

  /** When y takes the first packet of `xy`, what it accepts is exactly x's next
      fragment. */
  lemma DeliverData(x: End, y: End, xy: seq<Seen>, yx: seq<Seen>)
    requires Half(x, y, xy, yx) && xy != []
    ensures Half(x, Deliver(y, xy[0]), xy[1..], yx)
    ensures Accepts(y, xy[0]) ==>
      |y.accepted| < |x.started| && xy[0].frag.value == x.started[|y.accepted|]
  {
    var m := xy[0];
    assert DataOk(m, x.started, |y.accepted|);
    var y1 := Deliver(y, m);
    if Accepts(y, m) {
      assert m.started == |y.accepted| + 1;
      assert |y1.accepted| == |y.accepted| + 1;
      assert y1.accepted == x.started[..|y1.accepted|];
    }
    forall i | 0 <= i < |xy[1..]|
      ensures DataOk(xy[1..][i], x.started, |y1.accepted|)
    {
      assert xy[1..][i] == xy[i + 1];
      assert DataOk(xy[i + 1], x.started, |y.accepted|);
    }
  }

  /** When x takes the first packet of `yx`, it drops its copy only if y has
      accepted it. */
  lemma DeliverAck(x: End, y: End, xy: seq<Seen>, yx: seq<Seen>)
    requires Half(x, y, xy, yx) && yx != []
    ensures Half(x.(out := if Confirms(x, yx[0]) then None else x.out), y, xy, yx[1..])
    ensures Confirms(x, yx[0]) ==> |y.accepted| == |x.started|
  {
    var m := yx[0];
    assert AckOk(m, AckLow(x), |y.accepted|);
    var x1 := x.(out := if Confirms(x, m) then None else x.out);
    if Confirms(x, m) {
      assert m.accepted == |x.started|;
    }
    forall i | 0 <= i < |yx[1..]|
      ensures AckOk(yx[1..][i], AckLow(x1), |y.accepted|)
    {
      assert yx[1..][i] == yx[i + 1];
      assert AckOk(yx[i + 1], AckLow(x), |y.accepted|);
    }
  }

  lemma HalfIgnoresReceiver(x: End, y: End, x1: End, xy: seq<Seen>, yx: seq<Seen>)
    requires Half(x, y, xy, yx)
    requires x1.s == x.s && x1.out == x.out && x1.started == x.started
    ensures Half(x1, y, xy, yx)
  {
  }

  lemma DeliverKeepsLink(x: End, y: End, xy: seq<Seen>, yx: seq<Seen>)
    requires LinkInv(x, y, xy, yx) && xy != []
    ensures LinkInv(x, Deliver(y, xy[0]), xy[1..], yx)
    ensures Accepts(y, xy[0]) ==>
      |y.accepted| < |x.started| && xy[0].frag.value == x.started[|y.accepted|]
    ensures y.out.Some? && Deliver(y, xy[0]).out.None? ==> x.accepted == y.started
  {
    hide Half;
    var m := xy[0];
    var y1 := Deliver(y, m);
    DeliverData(x, y, xy, yx);
    DeliverAck(y, x, yx, xy);
    var y2 := y.(out := if Confirms(y, m) then None else y.out);
    HalfIgnoresReceiver(y2, x, y1, yx, xy[1..]);
    if Confirms(y, m) {
      AcceptedIsPrefix(y, x, yx, xy);
    }
  }

  lemma AcceptedIsPrefix(x: End, y: End, xy: seq<Seen>, yx: seq<Seen>)
    requires Half(x, y, xy, yx)
    ensures y.accepted <= x.started
    ensures |x.started| - 1 <= |y.accepted|
  {
  }

  lemma LoseKeepsHalf(x: End, y: End, xy: seq<Seen>, yx: seq<Seen>, i: nat)
    requires Half(x, y, xy, yx)
    ensures i < |xy| ==> Half(x, y, Without(xy, i), yx)
    ensures i < |yx| ==> Half(x, y, xy, Without(yx, i))
  {
  }

  lemma RepeatKeepsHalf(x: End, y: End, xy: seq<Seen>, yx: seq<Seen>, i: nat)
    requires Half(x, y, xy, yx)
    ensures i < |xy| ==> Half(x, y, Repeated(xy, i), yx)
    ensures i < |yx| ==> Half(x, y, xy, Repeated(yx, i))
  {
    if i < |xy| {
      forall k | 0 <= k < |Repeated(xy, i)|
        ensures Repeated(xy, i)[k] == xy[if k <= i then k else k - 1]
      {
      }
    }
    if i < |yx| {
      forall k | 0 <= k < |Repeated(yx, i)|
        ensures Repeated(yx, i)[k] == yx[if k <= i then k else k - 1]
      {
      }
    }
  }
}
