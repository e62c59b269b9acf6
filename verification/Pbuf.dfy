/** Packet buffers: a packet is a chain of buffers, each an item of one pool
    holding an item of another. The operations move bytes between and out of
    buffers; on the payload they act as list operations, and no item of either
    pool is lost or duplicated. */
module Pbuf {
  import opened Common

  /** Size of a data item; platforms choose it, and nothing depends on which. */
  const DATA_SIZE: nat

  /** `pb` and `mem` name the two pool items; `data` is what the second holds. */
  datatype Buf = Buf(pb: nat, mem: nat, data: text, offset: nat, len: nat, pktlen: nat, sop: bool, eop: bool, credits: nat)

  /** The empty chain is the null pointer. */
  type Chain = seq<Buf>

  datatype Pools = Pools(pbs: seq<nat>, mems: seq<nat>)

  // ---------------------------------------------------------------------
  // What a chain stands for
  // ---------------------------------------------------------------------

  predicate BufOk(b: Buf) { |b.data| == DATA_SIZE && b.offset + b.len <= DATA_SIZE }

  function Bytes(b: Buf): (r: text)
    requires BufOk(b)
    ensures |r| == b.len
  {
    b.data[b.offset..b.offset + b.len]
  }

  predicate BufsOk(c: Chain) { forall i :: 0 <= i < |c| ==> BufOk(c[i]) }

  function Payload(c: Chain): text
    requires BufsOk(c)
    decreases c
  {
    if c == [] then [] else Bytes(c[0]) + Payload(c[1..])
  }

  /** The last buffer, and no other, ends the packet. */
  predicate EndsOnce(c: Chain) { forall i :: 0 <= i < |c| ==> (c[i].eop <==> i == |c| - 1) }

  /** The first buffer's length is the packet's. */
  predicate Packet(c: Chain) {
    BufsOk(c) && EndsOnce(c) && (c != [] ==> c[0].pktlen == |Payload(c)|)
  }

  function Items(c: Chain): multiset<nat>
    decreases c
  {
    if c == [] then multiset{} else multiset{c[0].pb} + Items(c[1..])
  }

  function Mems(c: Chain): multiset<nat>
    decreases c
  {
    if c == [] then multiset{} else multiset{c[0].mem} + Mems(c[1..])
  }

  /** Free and held items together are the same. */
  predicate Conserved(p: Pools, c: Chain, q: Pools, d: Chain) {
    && multiset(p.pbs) + Items(c) == multiset(q.pbs) + Items(d)
    && multiset(p.mems) + Mems(c) == multiset(q.mems) + Mems(d)
  }

  // ---------------------------------------------------------------------
  // Pools
  // ---------------------------------------------------------------------

  function Put(p: Pools, b: Buf): Pools { Pools([b.pb] + p.pbs, [b.mem] + p.mems) }

  function Free(p: Pools, c: Chain): Pools
    decreases c
  {
    if c == [] then p else Free(Put(p, c[0]), c[1..])
  }

  /** Allocation without waiting leaves an item for those who wait. */
  predicate CanGet(p: Pools) { |p.pbs| >= 2 && |p.mems| >= 2 }

  function Got(p: Pools): Pools
    requires CanGet(p)
  {
    Pools(p.pbs[1..], p.mems[1..])
  }

  lemma PutConserves(p: Pools, b: Buf, c: Chain)
    requires c != [] && b.pb == c[0].pb && b.mem == c[0].mem
    ensures Conserved(p, c, Put(p, b), c[1..])
  {
  }

  lemma GotConserves(p: Pools, b: Buf, c: Chain)
    requires CanGet(p) && b.pb == p.pbs[0] && b.mem == p.mems[0]
    ensures Conserved(p, c, Got(p), [b] + c)
  {
    assert p.pbs == [p.pbs[0]] + p.pbs[1..] && p.mems == [p.mems[0]] + p.mems[1..];
    assert ([b] + c)[1..] == c;
  }

  lemma {:induction false} FreeConserves(p: Pools, c: Chain)
    ensures Conserved(p, c, Free(p, c), [])
    decreases c
  {
    if c != [] {
      PutConserves(p, c[0], c);
      FreeConserves(Put(p, c[0]), c[1..]);
    }
  }

  /** Changing what a chain's first buffer says, not which items it is. */
  lemma SameItems(b: Buf, c: Chain)
    requires c != [] && b.pb == c[0].pb && b.mem == c[0].mem
    ensures Items([b] + c[1..]) == Items(c) && Mems([b] + c[1..]) == Mems(c)
  {
    assert ([b] + c[1..])[1..] == c[1..];
  }

  // ---------------------------------------------------------------------
  // Removing from the head
  // ---------------------------------------------------------------------

  function Min(a: nat, b: nat): nat { if a < b then a else b }

  function Shrink(b: Buf, k: nat): Buf
    requires k <= b.len && k <= b.pktlen
  {
    b.(offset := b.offset + k, len := b.len - k, pktlen := b.pktlen - k)
  }

  /** The next buffer takes over the packet's length and start mark. */
  function Inherit(n: Buf, b: Buf): Buf { n.(pktlen := b.pktlen, sop := n.sop || b.sop) }

  /** `pbuf_drop`, of no more than the packet holds. */
  function Drop(p: Pools, c: Chain, n: nat, freeWhenEmpty: bool): (Pools, Chain)
    requires Packet(c) && (c != [] ==> n <= c[0].pktlen)
    decreases |c|
  {
    if c == [] then (p, c)
    else
      HeadFits(c);
      var k := Min(n, c[0].len);
      var b := Shrink(c[0], k);
      if b.len > 0 then (p, [b] + c[1..])
      else if |c| == 1 then
        if freeWhenEmpty then (Put(p, b), []) else (p, [b])
      else
        NextPacket(c, k);
        Drop(Put(p, b), [Inherit(c[1], b)] + c[2..], n - k, freeWhenEmpty)
  }

  lemma PayloadCons(c: Chain)
    requires BufsOk(c) && c != []
    ensures BufOk(c[0]) && BufsOk(c[1..]) && Payload(c) == Bytes(c[0]) + Payload(c[1..])
  {
  }

  lemma PayloadHead(b: Buf, c: Chain)
    requires BufsOk(c) && BufOk(b)
    ensures BufsOk([b] + c) && Payload([b] + c) == Bytes(b) + Payload(c)
  {
    assert ([b] + c)[1..] == c;
  }

  lemma HeadFits(c: Chain)
    requires BufsOk(c) && c != [] && c[0].pktlen == |Payload(c)|
    ensures c[0].len <= c[0].pktlen
  {
    PayloadCons(c);
  }

  lemma ShrinkBytes(b: Buf, k: nat)
    requires BufOk(b) && k <= b.len && k <= b.pktlen
    ensures BufOk(Shrink(b, k)) && Bytes(Shrink(b, k)) == Bytes(b)[k..]
  {
  }

  /** Replacing the first buffer by one that ends the packet alike. */
  lemma PutHead(b: Buf, c: Chain)
    requires BufsOk(c) && EndsOnce(c) && c != [] && BufOk(b) && b.eop == c[0].eop
    ensures BufsOk(c[1..]) && BufsOk([b] + c[1..]) && EndsOnce([b] + c[1..])
    ensures Payload([b] + c[1..]) == Bytes(b) + Payload(c[1..])
  {
    hide Payload, Bytes, BufOk;
    var d := [b] + c[1..];
    assert forall i :: 1 <= i < |d| ==> d[i] == c[i];
    PayloadHead(b, c[1..]);
  }

  lemma TailEnds(c: Chain)
    requires BufsOk(c) && EndsOnce(c) && |c| >= 2
    ensures BufsOk(c[1..]) && EndsOnce(c[1..]) && c[1..][0] == c[1] && c[1..][1..] == c[2..]
  {
  }

  lemma InheritBytes(n: Buf, b: Buf)
    requires BufOk(n)
    ensures BufOk(Inherit(n, b)) && Bytes(Inherit(n, b)) == Bytes(n) && Inherit(n, b).eop == n.eop
  {
  }

  /** With the first buffer used up, the rest is the packet. */
  lemma NextPacket(c: Chain, k: nat)
    requires Packet(c) && |c| >= 2 && k == c[0].len && k <= c[0].pktlen
    ensures var d := [Inherit(c[1], Shrink(c[0], k))] + c[2..];
      Packet(d) && Payload(d) == Payload(c)[k..] && d[0].pktlen == c[0].pktlen - k
  {
    hide Payload, Bytes, BufOk, EndsOnce, BufsOk;
    PayloadCons(c);
    TailEnds(c);
    PayloadCons(c[1..]);
    InheritBytes(c[1], Shrink(c[0], k));
    PutHead(Inherit(c[1], Shrink(c[0], k)), c[1..]);
  }

  /** Dropping n bytes leaves the payload from n on, as a packet, and returns
      what it empties. */
  lemma {:induction false} DropIsSuffix(p: Pools, c: Chain, n: nat, freeWhenEmpty: bool)
    requires Packet(c) && (c != [] ==> n <= c[0].pktlen)
    ensures var (q, d) := Drop(p, c, n, freeWhenEmpty);
      && Packet(d)
      && (c != [] ==> n <= |Payload(c)| && Payload(d) == Payload(c)[n..])
      && Conserved(p, c, q, d)
      && (d == [] <==> c == [] || (freeWhenEmpty && n == |Payload(c)|))
      && (d != [] && c != [] && c[0].sop ==> d[0].sop)
    decreases |c|
  {
    hide Conserved, Payload, Bytes, BufOk, EndsOnce, BufsOk, Put, Items, Mems;
    if c == [] {
      NothingPacket();
      SelfConserved(p, c);
    } else {
      HeadFits(c);
      var k := Min(n, c[0].len);
      var b := Shrink(c[0], k);
      if b.len > 0 || |c| == 1 {
        DropHere(p, c, n, freeWhenEmpty);
      } else {
        NextPacket(c, k);
        var e := [Inherit(c[1], b)] + c[2..];
        DropIsSuffix(Put(p, b), e, n - k, freeWhenEmpty);
        assert Payload(c)[k..][n - k..] == Payload(c)[n..];
        PutConserves(p, b, c);
        SameItems(e[0], c[1..]);
        assert c[1..][1..] == c[2..];
        var (q, d) := Drop(Put(p, b), e, n - k, freeWhenEmpty);
        JoinConserved(p, c, Put(p, b), c[1..], e, q, d);
      }
    }
  }

  lemma NothingPacket()
    ensures Packet([]) && BufsOk([]) && Payload([]) == []
  {
  }

  lemma SelfConserved(p: Pools, c: Chain)
    ensures Conserved(p, c, p, c)
  {
  }

  lemma JoinConserved(p: Pools, c: Chain, q: Pools, d: Chain, e: Chain, r: Pools, f: Chain)
    requires Conserved(p, c, q, d) && Items(d) == Items(e) && Mems(d) == Mems(e) && Conserved(q, e, r, f)
    ensures Conserved(p, c, r, f)
  {
  }

  lemma SameConserved(p: Pools, c: Chain, d: Chain)
    requires Items(d) == Items(c) && Mems(d) == Mems(c)
    ensures Conserved(p, c, p, d)
  {
  }

  lemma DropHere(p: Pools, c: Chain, n: nat, freeWhenEmpty: bool)
    requires Packet(c) && c != [] && n <= c[0].pktlen && c[0].len <= c[0].pktlen
    requires c[0].len > Min(n, c[0].len) || |c| == 1
    ensures var (q, d) := Drop(p, c, n, freeWhenEmpty);
      && Packet(d) && n <= |Payload(c)| && Payload(d) == Payload(c)[n..] && Conserved(p, c, q, d)
      && (d == [] <==> freeWhenEmpty && n == |Payload(c)|)
      && (d != [] && c[0].sop ==> d[0].sop)
  {
    hide Conserved, Payload, Bytes, BufOk, EndsOnce, BufsOk, Put, Items, Mems;
    var k := Min(n, c[0].len);
    var b := Shrink(c[0], k);
    NothingPacket();
    PayloadCons(c);
    ShrinkBytes(c[0], k);
    PutHead(b, c);
    SameItems(b, c);
    SameConserved(p, c, [b] + c[1..]);
    assert (Bytes(c[0]) + Payload(c[1..]))[k..] == Bytes(c[0])[k..] + Payload(c[1..]);
    if |c| == 1 {
      assert c[1..] == [] && [b] + c[1..] == [b];
      PutConserves(p, b, c);
    }
  }

  // ---------------------------------------------------------------------
  // Reading out
  // ---------------------------------------------------------------------

  /** `pbuf_read`; the start mark is not handed on. */
  function Read(p: Pools, c: Chain, n: nat): (Pools, Chain, text)
    requires Packet(c) && n <= |Payload(c)|
    decreases |c|
  {
    if n == 0 then (p, c, [])
    else
      SomeLeft(c, n);
      HeadFits(c);
      PayloadCons(c);
      var k := Min(n, c[0].len);
      var b := Shrink(c[0], k);
      var out := Bytes(c[0])[..k];
      if b.len > 0 then (p, [b] + c[1..], out)
      else if |c| == 1 then (Put(p, b), [], out)
      else
        NextRead(c, k);
        var (q, d, rest) := Read(Put(p, b), [c[1].(pktlen := b.pktlen)] + c[2..], n - k);
        (q, d, out + rest)
  }

  lemma SomeLeft(c: Chain, n: nat)
    requires BufsOk(c) && 0 < n <= |Payload(c)|
    ensures c != []
  {
  }

  lemma NextRead(c: Chain, k: nat)
    requires Packet(c) && |c| >= 2 && k == c[0].len && k <= c[0].pktlen
    ensures var d := [c[1].(pktlen := c[0].pktlen - k)] + c[2..];
      Packet(d) && Payload(d) == Payload(c)[k..] && |Payload(d)| == |Payload(c)| - k
  {
    hide Payload, Bytes, BufOk, EndsOnce, BufsOk;
    PayloadCons(c);
    TailEnds(c);
    PayloadCons(c[1..]);
    var b := c[1].(pktlen := c[0].pktlen - k);
    RelengthBytes(c[1], c[0].pktlen - k);
    PutHead(b, c[1..]);
  }

  lemma RelengthBytes(b: Buf, n: nat)
    requires BufOk(b)
    ensures BufOk(b.(pktlen := n)) && Bytes(b.(pktlen := n)) == Bytes(b)
  {
  }

  /** Reading n bytes gives the first n of the payload and leaves the rest. */
  lemma {:induction false} ReadSplits(p: Pools, c: Chain, n: nat)
    requires Packet(c) && n <= |Payload(c)|
    ensures var (q, d, out) := Read(p, c, n);
      Packet(d) && out == Payload(c)[..n] && Payload(d) == Payload(c)[n..] && Conserved(p, c, q, d)
    decreases |c|
  {
    hide Conserved, Payload, Bytes, BufOk, EndsOnce, BufsOk, Put, Items, Mems;
    if n == 0 {
      SelfConserved(p, c);
    } else {
      SomeLeft(c, n);
      HeadFits(c);
      PayloadCons(c);
      var k := Min(n, c[0].len);
      var b := Shrink(c[0], k);
      if b.len > 0 || |c| == 1 {
        ReadHere(p, c, n);
      } else {
        NextRead(c, k);
        var e := [c[1].(pktlen := b.pktlen)] + c[2..];
        ReadSplits(Put(p, b), e, n - k);
        assert Payload(c)[k..][n - k..] == Payload(c)[n..];
        assert Payload(c)[..n] == Payload(c)[..k] + Payload(c)[k..][..n - k];
        assert Payload(c)[..k] == Bytes(c[0])[..k];
        PutConserves(p, b, c);
        SameItems(e[0], c[1..]);
        assert c[1..][1..] == c[2..];
        var (q, d, rest) := Read(Put(p, b), e, n - k);
        JoinConserved(p, c, Put(p, b), c[1..], e, q, d);
      }
    }
  }

  lemma ReadHere(p: Pools, c: Chain, n: nat)
    requires Packet(c) && c != [] && 0 < n <= |Payload(c)| && c[0].len <= c[0].pktlen
    requires c[0].len > Min(n, c[0].len) || |c| == 1
    ensures var (q, d, out) := Read(p, c, n);
      Packet(d) && out == Payload(c)[..n] && Payload(d) == Payload(c)[n..] && Conserved(p, c, q, d)
  {
    hide Conserved, Payload, Bytes, BufOk, EndsOnce, BufsOk, Put, Items, Mems;
    var k := Min(n, c[0].len);
    var b := Shrink(c[0], k);
    NothingPacket();
    PayloadCons(c);
    ShrinkBytes(c[0], k);
    PutHead(b, c);
    SameItems(b, c);
    SameConserved(p, c, [b] + c[1..]);
    if |c| == 1 {
      assert c[1..] == [] && [b] + c[1..] == [b];
      PutConserves(p, b, c);
    }
    assert (Bytes(c[0]) + Payload(c[1..]))[k..] == Bytes(c[0])[k..] + Payload(c[1..]);
  }

  /** Only the first buffer starts a packet. */
  predicate StartsOnce(c: Chain) { forall i :: 0 <= i < |c| ==> (c[i].sop <==> i == 0) }

  /** After a read the head still carries the start mark exactly when the read
      stayed inside the first buffer; after a drop it always does. */
  lemma {:induction false} ReadStartIff(p: Pools, c: Chain, n: nat)
    requires Packet(c) && 0 < n <= |Payload(c)| && StartsOnce(c)
    ensures c != []
    ensures var d := Read(p, c, n).1; d != [] ==> (d[0].sop <==> n < c[0].len)
  {
    hide Payload, Bytes, BufOk, EndsOnce, BufsOk, Put;
    SomeLeft(c, n);
    HeadFits(c);
    PayloadCons(c);
    var k := Min(n, c[0].len);
    if k == c[0].len && |c| > 1 {
      NextRead(c, k);
      var e := [c[1].(pktlen := c[0].pktlen - k)] + c[2..];
      assert forall i :: 0 <= i < |e| ==> !e[i].sop;
      ReadUnmarked(Put(p, Shrink(c[0], k)), e, n - k);
    }
  }

  lemma {:induction false} ReadUnmarked(p: Pools, c: Chain, n: nat)
    requires Packet(c) && n <= |Payload(c)| && forall i :: 0 <= i < |c| ==> !c[i].sop
    ensures var d := Read(p, c, n).1; d != [] ==> !d[0].sop
    decreases |c|
  {
    hide Payload, Bytes, BufOk, EndsOnce, BufsOk, Put;
    if n > 0 {
      SomeLeft(c, n);
      HeadFits(c);
      PayloadCons(c);
      var k := Min(n, c[0].len);
      if k == c[0].len && |c| > 1 {
        NextRead(c, k);
        var e := [c[1].(pktlen := c[0].pktlen - k)] + c[2..];
        assert forall i :: 0 <= i < |e| ==> !e[i].sop;
        ReadUnmarked(Put(p, Shrink(c[0], k)), e, n - k);
      }
    }
  }

  // ---------------------------------------------------------------------
  // Removing from the tail
  // ---------------------------------------------------------------------

  /** The chain with its last buffer shortened and the packet's length adjusted. */
  function Shortened(c: Chain, k: nat): Chain
    requires c != [] && k <= c[|c| - 1].len && k <= c[0].pktlen
  {
    var last := |c| - 1;
    var d := c[last := c[last].(len := c[last].len - k)];
    d[0 := d[0].(pktlen := d[0].pktlen - k)]
  }

  /** The last buffer goes, and the one before it ends the packet. */
  function Unlinked(c: Chain): Chain
    requires |c| >= 2
  {
    var n := |c| - 2;
    c[..n] + [c[n].(eop := c[n].eop || c[n + 1].eop)]
  }

  /** One turn of the loop in `pbuf_trim`. */
  function TrimOnce(p: Pools, c: Chain, n: nat): (Pools, Chain, nat)
    requires Packet(c) && c != []
  {
    LastFits(c);
    var k := Min(c[|c| - 1].len, n);
    var d := Shortened(c, k);
    if d[|d| - 1].len == 0 && |d| >= 2 then (Put(p, d[|d| - 1]), Unlinked(d), n - k)
    else (p, d, n - k)
  }

  lemma {:induction false} PayloadSnoc(c: Chain)
    requires BufsOk(c) && c != []
    ensures BufsOk(c[..|c| - 1]) && Payload(c) == Payload(c[..|c| - 1]) + Bytes(c[|c| - 1])
    decreases |c|
  {
    hide Bytes, BufOk;
    var m := |c| - 1;
    if m == 0 {
      assert c[..0] == [] && c[1..] == [];
    } else {
      PayloadSnoc(c[1..]);
      assert c[1..][..m - 1] == c[1..m];
      assert c[..m][1..] == c[1..m];
    }
  }

  lemma LastFits(c: Chain)
    requires Packet(c) && c != []
    ensures c[|c| - 1].len <= c[0].pktlen
  {
    hide Bytes;
    PayloadSnoc(c);
  }

  lemma {:induction false} PayloadSame(c: Chain, d: Chain)
    requires BufsOk(c) && BufsOk(d) && |c| == |d|
    requires forall i :: 0 <= i < |c| ==> Bytes(c[i]) == Bytes(d[i])
    ensures Payload(c) == Payload(d)
    decreases |c|
  {
    hide Bytes, BufOk;
    if c != [] { PayloadSame(c[1..], d[1..]); }
  }

  lemma CutBytes(b: Buf, k: nat)
    requires BufOk(b) && k <= b.len
    ensures BufOk(b.(len := b.len - k)) && Bytes(b.(len := b.len - k)) == Bytes(b)[..b.len - k]
  {
    var e := b.offset + b.len;
    assert b.data[b.offset..e - k] == b.data[b.offset..e][..b.len - k];
  }

  lemma ShortenedPacket(c: Chain, k: nat)
    requires Packet(c) && c != [] && k <= c[|c| - 1].len && k <= c[0].pktlen
    ensures var d := Shortened(c, k);
      Packet(d) && |Payload(c)| >= k && Payload(d) == Payload(c)[..|Payload(c)| - k] && |d| == |c|
  {
    hide Payload, Bytes, BufOk;
    var m := |c| - 1;
    var d := Shortened(c, k);
    PayloadSnoc(c);
    CutBytes(c[m], k);
    RelengthBytes(c[0], c[0].pktlen - k);
    RelengthBytes(c[m].(len := c[m].len - k), c[0].pktlen - k);
    assert BufsOk(d);
    PayloadSnoc(d);
    ShortenedFront(c, k);
    assert (Payload(c[..m]) + Bytes(c[m]))[..|Payload(c)| - k] == Payload(c[..m]) + Bytes(c[m])[..c[m].len - k];
  }

  lemma ShortenedFront(c: Chain, k: nat)
    requires BufsOk(c) && c != [] && k <= c[|c| - 1].len && k <= c[0].pktlen
    ensures var d := Shortened(c, k);
      BufsOk(c[..|c| - 1]) && BufsOk(d[..|d| - 1]) && Payload(d[..|d| - 1]) == Payload(c[..|c| - 1])
  {
    hide Payload, Bytes, BufOk;
    var a, b := c[..|c| - 1], Shortened(c, k)[..|c| - 1];
    forall i | 0 <= i < |a|
      ensures BufOk(a[i]) && BufOk(b[i]) && Bytes(a[i]) == Bytes(b[i])
    {
      assert BufOk(c[i]);
      RelengthBytes(c[i], c[0].pktlen - k);
    }
    PayloadSame(a, b);
    var d := Shortened(c, k);
    assert |d| == |c| && d[..|d| - 1] == b;
  }

  lemma UnlinkedPacket(c: Chain)
    requires Packet(c) && |c| >= 2 && c[|c| - 1].len == 0
    ensures var d := Unlinked(c); Packet(d) && d != [] && Payload(d) == Payload(c) && |d| == |c| - 1
  {
    hide Payload, Bytes, BufOk;
    var m := |c| - 1;
    var d := Unlinked(c);
    PayloadSnoc(c);
    EmptyBytes(c[m]);
    assert Payload(c[..m]) + [] == Payload(c[..m]);
    MarkBytes(c[m - 1], c[m - 1].eop || c[m].eop);
    assert BufsOk(d);
    PayloadSame(c[..m], d);
  }

  lemma EmptyBytes(b: Buf)
    requires BufOk(b) && b.len == 0
    ensures Bytes(b) == []
  {
  }

  lemma MarkBytes(b: Buf, e: bool)
    requires BufOk(b)
    ensures BufOk(b.(eop := e)) && Bytes(b.(eop := e)) == Bytes(b)
  {
  }

  /** Each turn takes bytes off the end and off the count alike, so the loop can
      reach zero only if the packet held that many. */
  lemma TrimOnceIs(p: Pools, c: Chain, n: nat)
    requires Packet(c) && c != []
    ensures var (q, d, m) := TrimOnce(p, c, n);
      && Packet(d) && d != [] && m <= n
      && n - m <= |Payload(c)| && Payload(d) == Payload(c)[..|Payload(c)| - (n - m)]
      && n - |Payload(c)| == m - |Payload(d)|
      && Conserved(p, c, q, d)
      && (n > 0 && n <= |Payload(c)| ==> |d| + m < |c| + n)
  {
    hide Payload, Bytes, BufOk, EndsOnce, BufsOk, Conserved, Put, Items, Mems, Shortened, Unlinked;
    LastFits(c);
    PayloadSnoc(c);
    var k := Min(c[|c| - 1].len, n);
    var d := Shortened(c, k);
    ShortenedPacket(c, k);
    ShortenedItems(c, k);
    SameConserved(p, c, d);
    if d[|d| - 1].len == 0 && |d| >= 2 {
      UnlinkedPacket(d);
      UnlinkedConserves(p, d);
      JoinConserved(p, c, p, d, d, Put(p, d[|d| - 1]), Unlinked(d));
    } else if k == 0 && n > 0 && n <= |Payload(c)| {
      OneEmpty(c);
    }
  }

  lemma OneEmpty(c: Chain)
    requires BufsOk(c) && |c| == 1 && c[0].len == 0
    ensures Payload(c) == []
  {
    assert c[1..] == [];
  }

  lemma {:induction false} ItemsSame(c: Chain, d: Chain)
    requires |c| == |d| && forall i :: 0 <= i < |c| ==> c[i].pb == d[i].pb && c[i].mem == d[i].mem
    ensures Items(c) == Items(d) && Mems(c) == Mems(d)
    decreases |c|
  {
    if c != [] { ItemsSame(c[1..], d[1..]); }
  }

  lemma ShortenedItems(c: Chain, k: nat)
    requires c != [] && k <= c[|c| - 1].len && k <= c[0].pktlen
    ensures Items(Shortened(c, k)) == Items(c) && Mems(Shortened(c, k)) == Mems(c)
    ensures |Shortened(c, k)| == |c| && Shortened(c, k)[|c| - 1].len == c[|c| - 1].len - k
  {
    hide Items, Mems;
    ItemsSame(c, Shortened(c, k));
  }

  lemma {:induction false} ItemsSnoc(c: Chain)
    requires c != []
    ensures Items(c) == Items(c[..|c| - 1]) + multiset{c[|c| - 1].pb}
    ensures Mems(c) == Mems(c[..|c| - 1]) + multiset{c[|c| - 1].mem}
    decreases |c|
  {
    hide Items, Mems;
    var m := |c| - 1;
    ItemsCons(c);
    if m == 0 {
      assert c[..0] == [] && c[1..] == [];
      NoItems();
    } else {
      ItemsSnoc(c[1..]);
      assert c[1..][..m - 1] == c[1..m];
      assert c[..m][1..] == c[1..m];
      ItemsCons(c[..m]);
    }
  }

  lemma ItemsCons(c: Chain)
    requires c != []
    ensures Items(c) == multiset{c[0].pb} + Items(c[1..]) && Mems(c) == multiset{c[0].mem} + Mems(c[1..])
  {
  }

  lemma NoItems()
    ensures Items([]) == multiset{} && Mems([]) == multiset{}
  {
  }

  lemma UnlinkedConserves(p: Pools, c: Chain)
    requires |c| >= 2
    ensures Conserved(p, c, Put(p, c[|c| - 1]), Unlinked(c))
  {
    hide Items, Mems;
    ItemsSnoc(c);
    ItemsSame(c[..|c| - 1], Unlinked(c));
    PutFields(p, c[|c| - 1]);
  }

  lemma PutFields(p: Pools, b: Buf)
    ensures multiset(Put(p, b).pbs) == multiset(p.pbs) + multiset{b.pb}
    ensures multiset(Put(p, b).mems) == multiset(p.mems) + multiset{b.mem}
  {
  }

  /** `pbuf_trim`, of no more than the packet holds. */
  function Trim(p: Pools, c: Chain, n: nat): (Pools, Chain)
    requires Packet(c) && c != [] && n <= |Payload(c)|
    decreases |c| + n
  {
    if n == 0 then (p, c)
    else
      TrimOnceIs(p, c, n);
      var (q, d, m) := TrimOnce(p, c, n);
      Trim(q, d, m)
  }

  /** Trimming n bytes leaves the payload without its last n. */
  lemma {:induction false} TrimIsPrefix(p: Pools, c: Chain, n: nat)
    requires Packet(c) && c != [] && n <= |Payload(c)|
    ensures var (q, d) := Trim(p, c, n);
      Packet(d) && d != [] && Payload(d) == Payload(c)[..|Payload(c)| - n] && Conserved(p, c, q, d)
    decreases |c| + n
  {
    hide Payload, Packet, BufsOk, Conserved, TrimOnce;
    PacketBufs(c);
    if n == 0 {
      assert Payload(c)[..|Payload(c)|] == Payload(c);
      SelfConserved(p, c);
    } else {
      TrimOnceIs(p, c, n);
      var (q, d, m) := TrimOnce(p, c, n);
      PacketBufs(d);
      TrimIsPrefix(q, d, m);
      var (r, e) := Trim(q, d, m);
      JoinConserved(p, c, q, d, d, r, e);
    }
  }

  /** At most k turns of the loop of `pbuf_trim`, which ends at a count of zero. */
  function Turns(p: Pools, c: Chain, n: nat, k: nat): (Pools, Chain, nat)
    requires Packet(c) && c != []
    decreases k
  {
    if k == 0 || n == 0 then (p, c, n)
    else
      TrimOnceIs(p, c, n);
      var (q, d, m) := TrimOnce(p, c, n);
      Turns(q, d, m, k - 1)
  }

  /** Count and payload stay as far apart as they were. */
  lemma {:induction false} TurnsGap(p: Pools, c: Chain, n: nat, k: nat)
    requires Packet(c) && c != []
    ensures var (q, d, m) := Turns(p, c, n, k); Packet(d) && n - |Payload(c)| == m - |Payload(d)|
    decreases k
  {
    hide Payload, Packet, TrimOnce;
    if k > 0 && n > 0 {
      TrimOnceIs(p, c, n);
      var (q, d, m) := TrimOnce(p, c, n);
      TurnsGap(q, d, m, k - 1);
    }
  }

  lemma {:induction false} TurnsEnd(p: Pools, c: Chain, n: nat)
    requires Packet(c) && c != [] && n <= |Payload(c)|
    ensures Turns(p, c, n, |c| + n).2 == 0
    ensures var (q, d, _) := Turns(p, c, n, |c| + n); (q, d) == Trim(p, c, n)
    decreases |c| + n
  {
    hide Payload, Packet, TrimOnce;
    if n > 0 {
      TrimOnceIs(p, c, n);
      var (q, d, m) := TrimOnce(p, c, n);
      TurnsEnd(q, d, m);
      TurnsMore(q, d, m, |d| + m, |c| + n - 1);
    }
  }

  /** Once ended, more turns change nothing. */
  lemma {:induction false} TurnsMore(p: Pools, c: Chain, n: nat, j: nat, k: nat)
    requires Packet(c) && c != [] && j <= k && Turns(p, c, n, j).2 == 0
    ensures Turns(p, c, n, k) == Turns(p, c, n, j)
    decreases k
  {
    hide Payload, Packet, TrimOnce;
    if j > 0 && n > 0 {
      TrimOnceIs(p, c, n);
      var (q, d, m) := TrimOnce(p, c, n);
      TurnsMore(q, d, m, j - 1, k - 1);
    }
  }

  /** The loop ends if and only if the packet holds as many bytes. */
  lemma TrimEndsIff(p: Pools, c: Chain, n: nat)
    requires Packet(c) && c != []
    ensures (exists k: nat :: Turns(p, c, n, k).2 == 0) <==> n <= |Payload(c)|
  {
    hide Payload, Packet, TrimOnce, Turns;
    PacketBufs(c);
    forall k: nat
      ensures Turns(p, c, n, k).2 == 0 ==> n <= |Payload(c)|
    {
      TurnsGap(p, c, n, k);
    }
    if n <= |Payload(c)| { TurnsEnd(p, c, n); }
  }

  lemma TrimOnceShrinks(p: Pools, c: Chain, n: nat)
    requires Packet(c) && c != [] && n > 0 && !(|c| == 1 && c[0].len == 0)
    ensures var (q, d, m) := TrimOnce(p, c, n); |d| + m < |c| + n
  {
  }

  /** Asked for more than the packet holds, the loop comes to a lone empty buffer,
      with the excess still to go, and stays there for good. */
  lemma {:induction false} TrimSpins(p: Pools, c: Chain, n: nat) returns (j: nat)
    requires Packet(c) && c != [] && n > |Payload(c)|
    ensures var (q, d, m) := Turns(p, c, n, j);
      && |d| == 1 && d[0].len == 0 && m == n - |Payload(c)|
      && forall k: nat :: k >= j ==> Turns(p, c, n, k) == (q, d, m)
    decreases |c| + n
  {
    hide Payload, Packet, TrimOnce;
    if |c| == 1 && c[0].len == 0 {
      j := 0;
      PacketBufs(c);
      OneEmpty(c);
      forall k: nat
        ensures Turns(p, c, n, k) == (p, c, n)
      {
        StaysStuck(p, c, n, k);
      }
    } else {
      TrimOnceIs(p, c, n);
      TrimOnceShrinks(p, c, n);
      var (q, d, m) := TrimOnce(p, c, n);
      var i := TrimSpins(q, d, m);
      j := i + 1;
      forall k: nat | k >= j
        ensures Turns(p, c, n, k) == Turns(p, c, n, j)
      {
        assert Turns(q, d, m, k - 1) == Turns(q, d, m, i);
      }
    }
  }

  lemma {:induction false} StaysStuck(p: Pools, c: Chain, n: nat, k: nat)
    requires Packet(c) && |c| == 1 && c[0].len == 0 && n > 0
    ensures Turns(p, c, n, k) == (p, c, n)
    decreases k
  {
    hide Payload, Packet, TrimOnce;
    if k > 0 {
      TrimStuck(p, c, n);
      StaysStuck(p, c, n, k - 1);
    }
  }

  lemma PacketBufs(c: Chain)
    requires Packet(c)
    ensures BufsOk(c)
  {
  }

  /** A lone empty buffer cannot be trimmed further: the loop stays where it is. */
  lemma TrimStuck(p: Pools, c: Chain, n: nat)
    requires Packet(c) && |c| == 1 && c[0].len == 0 && n > 0
    ensures TrimOnce(p, c, n) == (p, c, n)
  {
    OneEmpty(c);
    assert Shortened(c, 0)[0] == c[0];
    assert Shortened(c, 0) == c;
  }

  // ---------------------------------------------------------------------
  // Adding at the head
  // ---------------------------------------------------------------------

  /** A new buffer takes the first free items; `memory` is what the data item
      last held. */
  function Made(p: Pools, memory: text, offset: nat): Buf
    requires CanGet(p)
  {
    Buf(p.pbs[0], p.mems[0], memory, offset, 0, 0, true, true, 0)
  }

  /** `pbuf_prepend`: room before the data if there is enough, else a buffer of
      its own; without one the packet is freed. */
  function Prepend(p: Pools, c: Chain, n: nat, extra: nat, memory: text): (Pools, Chain)
    requires c != []
  {
    if n + extra <= c[0].offset then
      (p, [c[0].(offset := c[0].offset - n, len := c[0].len + n, pktlen := c[0].pktlen + n)] + c[1..])
    else if !CanGet(p) then (Free(p, c), [])
    else
      var pre := Made(p, memory, extra).(sop := true, eop := false, pktlen := c[0].pktlen + n, len := n);
      (Got(p), [pre] + ([c[0].(sop := false, pktlen := 0)] + c[1..]))
  }

  lemma GrownBytes(b: Buf, n: nat)
    requires BufOk(b) && n <= b.offset
    ensures var g := b.(offset := b.offset - n, len := b.len + n, pktlen := b.pktlen + n);
      BufOk(g) && Bytes(g)[n..] == Bytes(b)
  {
  }

  lemma DemotedBytes(b: Buf)
    requires BufOk(b)
    ensures BufOk(b.(sop := false, pktlen := 0)) && Bytes(b.(sop := false, pktlen := 0)) == Bytes(b)
  {
  }

  /** Prepending adds n bytes before the payload, or frees the packet when it
      needs a buffer and cannot have one. */
  lemma PrependAdds(p: Pools, c: Chain, n: nat, extra: nat, memory: text)
    requires Packet(c) && c != [] && n + extra <= DATA_SIZE && |memory| == DATA_SIZE
    ensures var (q, d) := Prepend(p, c, n, extra, memory);
      && Packet(d) && Conserved(p, c, q, d)
      && (d == [] <==> n + extra > c[0].offset && !CanGet(p))
      && (d != [] ==> |Payload(d)| == n + |Payload(c)| && Payload(d)[n..] == Payload(c) && (c[0].sop ==> d[0].sop))
  {
    hide Payload, Bytes, BufOk, EndsOnce, BufsOk, Conserved, Items, Mems, Free;
    PayloadCons(c);
    NothingPacket();
    if n + extra <= c[0].offset {
      var g := c[0].(offset := c[0].offset - n, len := c[0].len + n, pktlen := c[0].pktlen + n);
      GrownBytes(c[0], n);
      PutHead(g, c);
      SameItems(g, c);
      SameConserved(p, c, [g] + c[1..]);
      assert (Bytes(g) + Payload(c[1..]))[n..] == Bytes(g)[n..] + Payload(c[1..]);
    } else if !CanGet(p) {
      FreeConserves(p, c);
    } else {
      PrependBuffer(p, c, n, extra, memory);
    }
  }

  lemma PrependBuffer(p: Pools, c: Chain, n: nat, extra: nat, memory: text)
    requires Packet(c) && c != [] && n + extra <= DATA_SIZE && |memory| == DATA_SIZE && CanGet(p) && n + extra > c[0].offset
    ensures var (q, d) := Prepend(p, c, n, extra, memory);
      && Packet(d) && Conserved(p, c, q, d) && d != [] && d[0].sop
      && |Payload(d)| == n + |Payload(c)| && Payload(d)[n..] == Payload(c)
  {
    hide Payload, Bytes, Conserved, Items, Mems;
    var pre := Made(p, memory, extra).(sop := true, eop := false, pktlen := c[0].pktlen + n, len := n);
    var h := c[0].(sop := false, pktlen := 0);
    var e := [h] + c[1..];
    PayloadCons(c);
    DemotedBytes(c[0]);
    PutHead(h, c);
    PayloadHead(pre, e);
    EndsCons(pre, e);
    SameItems(h, c);
    GotConserves(p, pre, e);
    SameConserved(p, c, e);
    var d := [pre] + e;
    JoinConserved(p, c, p, e, e, Got(p), d);
  }

  lemma EndsCons(b: Buf, c: Chain)
    requires EndsOnce(c) && c != [] && !b.eop
    ensures EndsOnce([b] + c)
  {
  }

  // ---------------------------------------------------------------------
  // Gathering into the first buffer
  // ---------------------------------------------------------------------

  /** The data moved to the start of its item. */
  function Rebased(b: Buf): Buf
    requires BufOk(b)
  {
    b.(data := Bytes(b) + b.data[b.len..], offset := 0)
  }

  /** k bytes of the next buffer copied behind the first one's data. */
  function Joined(h: Buf, n: Buf, k: nat): Buf
    requires BufOk(h) && BufOk(n) && k <= n.len && h.offset + h.len + k <= DATA_SIZE
  {
    var at := h.offset + h.len;
    h.(data := h.data[..at] + Bytes(n)[..k] + h.data[at + k..], len := h.len + k)
  }

  function Rest(n: Buf, k: nat): Buf
    requires k <= n.len
  {
    n.(len := n.len - k, offset := n.offset + k)
  }

  function Absorbed(h: Buf, n: Buf): Buf { h.(eop := h.eop || n.eop, credits := (h.credits + n.credits) % 256) }

  /** The loop of `pbuf_pullup`; the count is what is still missing. */
  function Gather(p: Pools, c: Chain, need: nat): (Pools, Chain, nat)
    requires Packet(c) && c != [] && c[0].offset + c[0].len + need <= DATA_SIZE
    decreases |c|
  {
    if need == 0 || |c| == 1 then (p, c, need)
    else
      var k := Min(need, c[1].len);
      var h, n := Joined(c[0], c[1], k), Rest(c[1], k);
      if n.len > 0 then (p, [h, n] + c[2..], need - k)
      else
        GatherPacket(c, k);
        Gather(Put(p, n), [Absorbed(h, n)] + c[2..], need - k)
  }

  function Pullup(p: Pools, c: Chain, n: nat): (Pools, Chain, nat)
    requires Packet(c) && c != [] && n <= DATA_SIZE
  {
    if c[0].len >= n then (p, c, 0)
    else
      var h := if n + c[0].offset > DATA_SIZE then Rebased(c[0]) else c[0];
      RebasedPacket(c);
      assert [c[0]] + c[1..] == c;
      Gather(p, [h] + c[1..], n - h.len)
  }

  lemma RebasedBytes(b: Buf)
    requires BufOk(b)
    ensures BufOk(Rebased(b)) && Bytes(Rebased(b)) == Bytes(b)
  {
  }

  lemma RebasedPacket(c: Chain)
    requires Packet(c) && c != []
    ensures Packet([Rebased(c[0])] + c[1..]) && Payload([Rebased(c[0])] + c[1..]) == Payload(c)
  {
    hide Payload, Bytes, EndsOnce;
    PayloadCons(c);
    RebasedBytes(c[0]);
    PutHead(Rebased(c[0]), c);
  }

  lemma JoinedBytes(h: Buf, n: Buf, k: nat)
    requires BufOk(h) && BufOk(n) && k <= n.len && h.offset + h.len + k <= DATA_SIZE
    ensures BufOk(Joined(h, n, k)) && Bytes(Joined(h, n, k)) == Bytes(h) + Bytes(n)[..k]
    ensures BufOk(Rest(n, k)) && Bytes(Rest(n, k)) == Bytes(n)[k..]
  {
  }

  lemma AbsorbedBytes(h: Buf, n: Buf)
    requires BufOk(h)
    ensures BufOk(Absorbed(h, n)) && Bytes(Absorbed(h, n)) == Bytes(h)
  {
  }

  lemma Regroup(a: text, b: text, c: text, k: nat)
    requires k <= |b|
    ensures (a + b[..k]) + (b[k..] + c) == a + (b + c)
  {
    assert b == b[..k] + b[k..];
  }

  /** The payload with k bytes moved from the second buffer to the first. */
  lemma MovedPayload(c: Chain, h: Buf, n: Buf, k: nat)
    requires BufsOk(c) && |c| >= 2 && k <= c[1].len && BufOk(h) && BufOk(n)
    requires Bytes(h) == Bytes(c[0]) + Bytes(c[1])[..k] && Bytes(n) == Bytes(c[1])[k..]
    ensures BufsOk(c[2..]) && Payload(c) == Bytes(h) + (Bytes(n) + Payload(c[2..]))
  {
    hide Payload, Bytes;
    PayloadCons(c);
    PayloadCons(c[1..]);
    assert c[1..][1..] == c[2..];
    Regroup(Bytes(c[0]), Bytes(c[1]), Payload(c[2..]), k);
  }

  /** A next buffer used up is unlinked, and its end mark taken over. */
  lemma GatherPacket(c: Chain, k: nat)
    requires Packet(c) && |c| >= 2 && k == c[1].len && c[0].offset + c[0].len + k <= DATA_SIZE
    ensures BufOk(c[0]) && BufOk(c[1])
    ensures var d := [Absorbed(Joined(c[0], c[1], k), Rest(c[1], k))] + c[2..];
      Packet(d) && Payload(d) == Payload(c)
  {
    hide Payload, Bytes, EndsOnce, BufOk, Joined, Rest, Absorbed;
    assert BufOk(c[0]) && BufOk(c[1]);
    var h, n := Joined(c[0], c[1], k), Rest(c[1], k);
    var a := Absorbed(h, n);
    JoinedBytes(c[0], c[1], k);
    RestFields(c[0], c[1], k);
    AbsorbedBytes(h, n);
    MovedPayload(c, h, n, k);
    EmptyBytes(n);
    assert [] + Payload(c[2..]) == Payload(c[2..]);
    PayloadHead(a, c[2..]);
    MergedMarks(c, k);
    EndsMerged(c, [a] + c[2..]);
  }

  lemma MergedMarks(c: Chain, k: nat)
    requires |c| >= 2 && BufOk(c[0]) && BufOk(c[1]) && k <= c[1].len && c[0].offset + c[0].len + k <= DATA_SIZE
    ensures Absorbed(Joined(c[0], c[1], k), Rest(c[1], k)).eop == (c[0].eop || c[1].eop)
    ensures Absorbed(Joined(c[0], c[1], k), Rest(c[1], k)).pktlen == c[0].pktlen
  {
  }

  lemma EndsMerged(c: Chain, d: Chain)
    requires EndsOnce(c) && |c| >= 2 && |d| == |c| - 1 && d[1..] == c[2..] && d[0].eop == (c[0].eop || c[1].eop)
    ensures EndsOnce(d)
  {
    assert forall i :: 1 <= i < |d| ==> d[i] == c[i + 1];
  }

  lemma GatherHere(c: Chain, k: nat)
    requires Packet(c) && |c| >= 2 && k < c[1].len && c[0].offset + c[0].len + k <= DATA_SIZE
    ensures BufOk(c[0]) && BufOk(c[1])
    ensures var d := [Joined(c[0], c[1], k), Rest(c[1], k)] + c[2..];
      Packet(d) && Payload(d) == Payload(c) && Items(d) == Items(c) && Mems(d) == Mems(c)
  {
    hide Payload, Bytes, Items, Mems, EndsOnce, BufOk, Joined, Rest, BufsOk;
    FirstTwo(c);
    var h, n := Joined(c[0], c[1], k), Rest(c[1], k);
    JoinedBytes(c[0], c[1], k);
    MovedPayload(c, h, n, k);
    var d := [h, n] + c[2..];
    assert d == [h] + ([n] + c[2..]);
    PayloadHead(n, c[2..]);
    PayloadHead(h, [n] + c[2..]);
    MovedMarks(c, k);
    EndsSame(c, d);
    ItemsSame(c, d);
  }

  lemma FirstTwo(c: Chain)
    requires BufsOk(c) && |c| >= 2
    ensures BufOk(c[0]) && BufOk(c[1])
  {
  }

  lemma MovedMarks(c: Chain, k: nat)
    requires |c| >= 2 && BufOk(c[0]) && BufOk(c[1]) && k <= c[1].len && c[0].offset + c[0].len + k <= DATA_SIZE
    ensures var h, n := Joined(c[0], c[1], k), Rest(c[1], k);
      && h.eop == c[0].eop && n.eop == c[1].eop && h.pktlen == c[0].pktlen
      && h.pb == c[0].pb && h.mem == c[0].mem && n.pb == c[1].pb && n.mem == c[1].mem
  {
  }

  lemma EndsSame(c: Chain, d: Chain)
    requires EndsOnce(c) && |d| == |c| && |c| >= 2 && d[0].eop == c[0].eop && d[1].eop == c[1].eop && d[2..] == c[2..]
    ensures EndsOnce(d)
  {
    assert forall i :: 2 <= i < |d| ==> d[i] == c[i];
  }

  lemma {:induction false} GatherKeeps(p: Pools, c: Chain, need: nat)
    requires Packet(c) && c != [] && c[0].offset + c[0].len + need <= DATA_SIZE
    ensures var (q, d, missing) := Gather(p, c, need);
      && Packet(d) && d != [] && Payload(d) == Payload(c) && Conserved(p, c, q, d)
      && missing == (if c[0].len + need > |Payload(c)| then c[0].len + need - |Payload(c)| else 0)
      && d[0].len == c[0].len + need - missing
    decreases |c|
  {
    hide Payload, Bytes, EndsOnce, Conserved, Items, Mems, Joined, Rest, Absorbed, Put;
    if need == 0 {
      SelfConserved(p, c);
      HeadFits(c);
    } else if |c| == 1 {
      SelfConserved(p, c);
      LonePayload(c);
    } else {
      var k := Min(need, c[1].len);
      var h, n := Joined(c[0], c[1], k), Rest(c[1], k);
      RestFields(c[0], c[1], k);
      if k < c[1].len {
        GatherHere(c, k);
        SameConserved(p, c, [h, n] + c[2..]);
        TwoFit(c);
      } else {
        GatherPacket(c, k);
        var e := [Absorbed(h, n)] + c[2..];
        AbsorbFields(h, n);
        GatherKeeps(Put(p, n), e, need - k);
        SecondConserves(p, c, n, e);
        var (q, d, missing) := Gather(Put(p, n), e, need - k);
        JoinConserved(p, c, Put(p, n), e, e, q, d);
      }
    }
  }

  lemma LonePayload(c: Chain)
    requires BufsOk(c) && |c| == 1
    ensures |Payload(c)| == c[0].len
  {
    assert c[1..] == [];
  }

  lemma TwoFit(c: Chain)
    requires BufsOk(c) && |c| >= 2
    ensures c[0].len + c[1].len <= |Payload(c)|
  {
    PayloadCons(c);
    PayloadCons(c[1..]);
  }

  lemma RestFields(h: Buf, n: Buf, k: nat)
    requires BufOk(h) && BufOk(n) && k <= n.len && h.offset + h.len + k <= DATA_SIZE
    ensures Rest(n, k).len == n.len - k && Rest(n, k).pb == n.pb && Rest(n, k).mem == n.mem
    ensures var j := Joined(h, n, k); j.len == h.len + k && j.offset == h.offset && j.pb == h.pb && j.mem == h.mem
  {
  }

  lemma AbsorbFields(h: Buf, n: Buf)
    ensures var a := Absorbed(h, n); a.len == h.len && a.offset == h.offset && a.pb == h.pb && a.mem == h.mem
  {
  }

  lemma SecondConserves(p: Pools, c: Chain, n: Buf, e: Chain)
    requires |c| >= 2 && n.pb == c[1].pb && n.mem == c[1].mem
    requires e != [] && e[0].pb == c[0].pb && e[0].mem == c[0].mem && e[1..] == c[2..]
    ensures Conserved(p, c, Put(p, n), e)
  {
    hide Items, Mems, Put;
    ItemsCons(c);
    ItemsCons(c[1..]);
    assert c[1..][1..] == c[2..];
    ItemsCons(e);
    PutFields(p, n);
  }

  /** Pulling up n bytes keeps the packet and puts its first n bytes, or all it
      has, in the first buffer; it reports exactly how many are missing. */
  lemma PullupGathers(p: Pools, c: Chain, n: nat)
    requires Packet(c) && c != [] && n <= DATA_SIZE
    ensures var (q, d, missing) := Pullup(p, c, n);
      && Packet(d) && d != [] && Payload(d) == Payload(c) && Conserved(p, c, q, d)
      && missing == (if n > |Payload(c)| then n - |Payload(c)| else 0)
      && d[0].len >= n - missing
  {
    hide Payload, Bytes, EndsOnce, Conserved, Items, Mems, Gather, Rebased;
    if c[0].len >= n {
      SelfConserved(p, c);
      HeadFits(c);
    } else {
      var h := if n + c[0].offset > DATA_SIZE then Rebased(c[0]) else c[0];
      RebasedPacket(c);
      RebasedFields(c[0]);
      assert [c[0]] + c[1..] == c;
      var e := [h] + c[1..];
      SameItems(h, c);
      GatherKeeps(p, e, n - h.len);
      SameConserved(p, c, e);
      var (q, d, missing) := Gather(p, e, n - h.len);
      JoinConserved(p, c, p, e, e, q, d);
    }
  }

  lemma RebasedFields(b: Buf)
    requires BufOk(b)
    ensures var r := Rebased(b); r.offset == 0 && r.len == b.len && r.pb == b.pb && r.mem == b.mem
  {
  }

  // ---------------------------------------------------------------------
  // Copying and splicing
  // ---------------------------------------------------------------------

  /** Credits are not copied: an item comes with those it was put back with. */
  type Stale = map<nat, nat>

  function Left(stale: Stale, pb: nat): nat { if pb in stale then stale[pb] else 0 }

  /** A buffer's contents in fresh items. */
  function Copied(p: Pools, stale: Stale, b: Buf): Buf
    requires CanGet(p)
  {
    b.(pb := p.pbs[0], mem := p.mems[0], credits := Left(stale, p.pbs[0]))
  }

  /** `pbuf_copy_pkt`, from the buffers copied so far. It stops at the next
      packet's start, and undoes itself when items run out. */
  function CopyFrom(p: Pools, stale: Stale, done: Chain, src: Chain): (Pools, Chain)
    decreases src
  {
    if src == [] then (p, done)
    else if !CanGet(p) then (Free(p, done), [])
    else
      var done1 := done + [Copied(p, stale, src[0])];
      if |src| == 1 || src[1].sop then (Got(p), done1) else CopyFrom(Got(p), stale, done1, src[1..])
  }

  /** The buffers up to the next packet's start. */
  function FirstPacket(c: Chain): (r: Chain)
    ensures r <= c && (c != [] ==> r != [])
    decreases c
  {
    if c == [] then [] else if |c| == 1 || c[1].sop then [c[0]] else [c[0]] + FirstPacket(c[1..])
  }

  /** The same packet in other items. */
  predicate SamePacket(a: Chain, b: Chain) {
    |a| == |b| && forall i :: 0 <= i < |a| ==> b[i] == a[i].(pb := b[i].pb, mem := b[i].mem, credits := b[i].credits)
  }

  lemma ItemsJoin(c: Chain, b: Buf)
    ensures Items(c + [b]) == Items(c) + multiset{b.pb} && Mems(c + [b]) == Mems(c) + multiset{b.mem}
  {
    ItemsSnoc(c + [b]);
    assert (c + [b])[..|c + [b]| - 1] == c;
  }

  lemma GotFields(p: Pools)
    requires CanGet(p)
    ensures multiset(p.pbs) == multiset(Got(p).pbs) + multiset{p.pbs[0]}
    ensures multiset(p.mems) == multiset(Got(p).mems) + multiset{p.mems[0]}
  {
    assert p.pbs == [p.pbs[0]] + p.pbs[1..] && p.mems == [p.mems[0]] + p.mems[1..];
  }

  lemma CopyStep(p: Pools, stale: Stale, done: Chain, b: Buf)
    requires CanGet(p)
    ensures Conserved(p, done, Got(p), done + [Copied(p, stale, b)])
  {
    hide Items, Mems, Got;
    GotFields(p);
    ItemsJoin(done, Copied(p, stale, b));
  }

  lemma {:induction false} CopyFromIs(p: Pools, stale: Stale, whole: Chain, done: Chain, src: Chain)
    requires src != [] && |done| <= |whole| && whole == whole[..|done|] + FirstPacket(src) && SamePacket(whole[..|done|], done)
    ensures var (q, d) := CopyFrom(p, stale, done, src);
      Conserved(p, done, q, d) && (d != [] ==> SamePacket(whole, d))
    decreases src
  {
    hide Conserved, Free, Got, Copied, FirstPacket, SamePacket;
    if !CanGet(p) {
      FreeConserves(p, done);
    } else {
      CopyStep(p, stale, done, src[0]);
      var done1 := done + [Copied(p, stale, src[0])];
      CopyGrows(p, stale, whole, done, src);
      if |src| > 1 && !src[1].sop {
        CopyFromIs(Got(p), stale, whole, done1, src[1..]);
        var (q, d) := CopyFrom(Got(p), stale, done1, src[1..]);
        JoinConserved(p, done, Got(p), done1, done1, q, d);
      }
    }
  }

  lemma CopyGrows(p: Pools, stale: Stale, whole: Chain, done: Chain, src: Chain)
    requires src != [] && |done| <= |whole| && whole == whole[..|done|] + FirstPacket(src) && SamePacket(whole[..|done|], done) && CanGet(p)
    ensures var done1 := done + [Copied(p, stale, src[0])];
      && |done1| <= |whole| && SamePacket(whole[..|done1|], done1)
      && (if |src| > 1 && !src[1].sop then whole == whole[..|done1|] + FirstPacket(src[1..]) else whole[..|done1|] == whole)
  {
    hide FirstPacket, SamePacket;
    FirstPacketSplit(src);
    var rest := if |src| > 1 && !src[1].sop then FirstPacket(src[1..]) else [];
    SplitMore(whole, |done|, src[0], rest);
    SameMore(whole[..|done|], done, src[0], Copied(p, stale, src[0]));
  }

  lemma SplitMore(whole: Chain, n: nat, b: Buf, rest: Chain)
    requires n <= |whole| && whole == whole[..n] + ([b] + rest)
    ensures n < |whole| && whole[..n + 1] == whole[..n] + [b] && whole == whole[..n + 1] + rest
  {
    assert whole[n] == b;
    assert whole[..n] + ([b] + rest) == whole[..n] + [b] + rest;
  }

  lemma SameMore(a: Chain, b: Chain, x: Buf, y: Buf)
    requires SamePacket(a, b) && y == x.(pb := y.pb, mem := y.mem, credits := y.credits)
    ensures SamePacket(a + [x], b + [y])
  {
  }

  lemma FirstPacketSplit(src: Chain)
    requires src != []
    ensures FirstPacket(src) == [src[0]] + if |src| > 1 && !src[1].sop then FirstPacket(src[1..]) else []
  {
  }

  /** Both pools have the items for n buffers, and one to spare. */
  predicate Enough(p: Pools, n: nat) { |p.pbs| > n && |p.mems| > n }

  lemma {:induction false} CopySucceedsIff(p: Pools, stale: Stale, done: Chain, src: Chain)
    requires src != []
    ensures CopyFrom(p, stale, done, src).1 != [] <==> Enough(p, |FirstPacket(src)|)
    decreases src
  {
    hide Copied, Free;
    if CanGet(p) && |src| > 1 && !src[1].sop {
      CopySucceedsIff(Got(p), stale, done + [Copied(p, stale, src[0])], src[1..]);
    }
  }

  /** A copy is made exactly when both pools have items enough. It holds the same
      packet, and payload, in items of its own; without it nothing has been taken
      from the pools. */
  lemma CopyIsSame(p: Pools, stale: Stale, src: Chain)
    requires src != [] && BufsOk(src)
    ensures var (q, d) := CopyFrom(p, stale, [], src);
      && (d != [] <==> Enough(p, |FirstPacket(src)|))
      && Conserved(p, [], q, d)
      && BufsOk(FirstPacket(src)) && (d != [] ==> SamePacket(FirstPacket(src), d) && BufsOk(d) && Payload(d) == Payload(FirstPacket(src)))
  {
    hide CopyFrom, Conserved, FirstPacket, Payload, BufOk, SamePacket;
    var whole := FirstPacket(src);
    assert forall i :: 0 <= i < |whole| ==> whole[i] == src[i];
    NothingSame();
    assert whole[..0] == [] && whole == [] + whole;
    CopyFromIs(p, stale, whole, [], src);
    CopySucceedsIff(p, stale, [], src);
    var (q, d) := CopyFrom(p, stale, [], src);
    if d != [] { SamePayload(whole, d); }
  }

  lemma NothingSame()
    ensures SamePacket([], [])
  {
  }

  lemma {:induction false} SamePayload(a: Chain, b: Chain)
    requires BufsOk(a) && SamePacket(a, b)
    ensures BufsOk(b) && Payload(b) == Payload(a)
    decreases |a|
  {
    hide Payload;
    assert forall i :: 0 <= i < |a| ==> BufOk(a[i]) && BufOk(b[i]);
    assert forall i :: 0 <= i < |a| ==> Bytes(b[i]) == Bytes(a[i]);
    PayloadSame(a, b);
  }

  /** The first buffer that ends a packet, or the end of the queue. */
  function EndAt(q: Chain): (k: nat)
    ensures k <= |q| && (forall i :: 0 <= i < k ==> !q[i].eop) && (k < |q| ==> q[k].eop)
    decreases q
  {
    if q == [] || q[0].eop then 0 else 1 + EndAt(q[1..])
  }

  /** `pbuf_splice`: the first packet of a queue. A queue that holds no end of a
      packet is returned without being taken off. */
  function Splice(q: Chain): (Chain, Chain) {
    if EndAt(q) < |q| then (q[..EndAt(q) + 1], q[EndAt(q) + 1..]) else (q, q)
  }

  /** What is spliced off is one whole packet and the rest stays queued, exactly
      when the queue holds the end of a packet. */
  lemma SpliceTakesPacket(q: Chain)
    requires q != []
    ensures var (d, rest) := Splice(q);
      d + rest == q && d != [] && EndsOnce(d) <==> exists i :: 0 <= i < |q| && q[i].eop
  {
    var k := EndAt(q);
    var (d, rest) := Splice(q);
    if k < |q| {
      assert q[k].eop;
      assert d + rest == q;
    } else {
      assert d + rest != q;
    }
  }
}
