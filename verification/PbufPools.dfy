/** The packet-buffer code over its two pools. A chain is passed and returned as
    the list of its buffers; the pools are changed in place. */
module PbufPools {
  import opened Common
  import opened Pbuf

  class Net {
    var pbs: seq<nat>
    var mems: seq<nat>

    ghost function Value(): Pools
      reads this
    {
      Pools(pbs, mems)
    }

    constructor ()
      ensures Value() == Pools([], [])
    {
      pbs, mems := [], [];
    }

    /** `pbuf_data_put` and `pbuf_put`. */
    method PutBack(b: Buf)
      modifies this
      ensures Value() == Put(old(Value()), b)
    {
      mems := [b.mem] + mems;
      pbs := [b.pb] + pbs;
    }

    /** `pbuf_free_irq_blocked`. */
    method FreeChain(c: Chain)
      modifies this
      ensures Value() == Free(old(Value()), c)
    {
      hide Put;
      var i := 0;
      while i < |c|
        invariant i <= |c| && Free(Value(), c[i..]) == Free(old(Value()), c)
      {
        assert c[i..][1..] == c[i + 1..];
        PutBack(c[i]);
        i := i + 1;
      }
    }

    /** `pbuf_make`, not waiting. */
    method Make(offset: nat, memory: text) returns (b: seq<Buf>)
      modifies this
      ensures CanGet(old(Value())) ==> Value() == Got(old(Value())) && b == [Made(old(Value()), memory, offset)]
      ensures !CanGet(old(Value())) ==> Value() == old(Value()) && b == []
    {
      if |pbs| < 2 {
        return [];
      }
      var pb := pbs[0];
      pbs := pbs[1..];
      if |mems| < 2 {
        pbs := [pb] + pbs;
        return [];
      }
      b := [Buf(pb, mems[0], memory, offset, 0, 0, true, true, 0)];
      mems := mems[1..];
    }

    /** `pbuf_drop`; more than the packet holds is a panic. */
    method DropBytes(c: Chain, bytes: nat, freeWhenEmpty: bool) returns (panic: bool, d: Chain)
      requires Packet(c)
      modifies this
      ensures panic <==> c != [] && bytes > c[0].pktlen
      ensures !panic ==> (Value(), d) == Drop(old(Value()), c, bytes, freeWhenEmpty)
    {
      hide Payload, Bytes, BufOk, EndsOnce, BufsOk, Put;
      d := c;
      if d == [] {
        return false, [];
      }
      var n: nat := bytes;
      if n > d[0].pktlen {
        return true, d;
      }
      while true
        invariant Packet(d) && d != [] && n <= d[0].pktlen
        invariant Drop(Value(), d, n, freeWhenEmpty) == Drop(old(Value()), c, bytes, freeWhenEmpty)
        decreases |d|
      {
        HeadFits(d);
        var chunk := Min(n, d[0].len);
        var pb := d[0].(offset := d[0].offset + chunk, len := d[0].len - chunk, pktlen := d[0].pktlen - chunk);
        if pb.len != 0 {
          return false, [pb] + d[1..];
        }
        if |d| == 1 {
          if !freeWhenEmpty {
            return false, [pb];
          }
          PutBack(pb);
          return false, [];
        }
        NextPacket(d, chunk);
        PutBack(pb);
        d := [d[1].(pktlen := pb.pktlen, sop := d[1].sop || pb.sop)] + d[2..];
        n := n - chunk;
      }
    }

    /** `pbuf_read`. */
    method ReadBytes(c: Chain, len: nat) returns (d: Chain, out: text)
      requires Packet(c) && len <= |Payload(c)|
      modifies this
      ensures (Value(), d, out) == Read(old(Value()), c, len)
    {
      hide Payload, Bytes, BufOk, EndsOnce, BufsOk, Put, Read;
      d, out := c, [];
      var n: nat := len;
      assert [] + Read(Value(), c, len).2 == Read(Value(), c, len).2;
      while n != 0
        invariant Packet(d) && n <= |Payload(d)|
        invariant Read(old(Value()), c, len).0 == Read(Value(), d, n).0 && Read(old(Value()), c, len).1 == Read(Value(), d, n).1
        invariant Read(old(Value()), c, len).2 == out + Read(Value(), d, n).2
        decreases |d|, n
      {
        ReadTurn(Value(), d, n);
        ghost var rest := Read(Value(), d, n).2;
        var k := Min(n, d[0].len);
        var chunk := CopyOut(d[0], k);
        var pb := d[0].(offset := d[0].offset + k, len := d[0].len - k, pktlen := d[0].pktlen - k);
        if pb.len != 0 {
          d := [pb] + d[1..];
        } else {
          PutBack(pb);
          d := if |d| == 1 then [] else [d[1].(pktlen := pb.pktlen)] + d[2..];
        }
        n := n - k;
        assert out + (chunk + Read(Value(), d, n).2) == (out + chunk) + Read(Value(), d, n).2;
        out := out + chunk;
      }
      ReadNothing(Value(), d);
      assert out + [] == out;
    }

    /** The first bytes of a buffer. */
    method CopyOut(b: Buf, k: nat) returns (r: text)
      requires BufOk(b) && k <= b.len
      ensures r == Bytes(b)[..k]
    {
      r := b.data[b.offset..b.offset + k];
    }

    /** `pbuf_trim`, followed for a number of turns: the loop need not end. */
    method TrimBytes(c: Chain, bytes: nat, turns: nat) returns (d: Chain, n: nat)
      requires Packet(c) && c != []
      modifies this
      ensures (Value(), d, n) == Turns(old(Value()), c, bytes, turns)
    {
      hide Payload, Packet, BufsOk, TrimOnce, Put;
      d, n := c, bytes;
      var k: nat := turns;
      while n != 0 && k != 0
        invariant Packet(d) && d != []
        invariant Turns(Value(), d, n, k) == Turns(old(Value()), c, bytes, turns)
        decreases k
      {
        TrimOnceIs(Value(), d, n);
        d, n := TrimTurn(d, n);
        k := k - 1;
      }
    }

    /** One turn of that loop: to the tail, then shorten or unlink it. */
    method TrimTurn(c: Chain, bytes: nat) returns (d: Chain, n: nat)
      requires Packet(c) && c != []
      modifies this
      ensures (Value(), d, n) == TrimOnce(old(Value()), c, bytes)
    {
      hide Payload, Bytes, EndsOnce, BufsOk, Put;
      LastFits(c);
      var tail := 0;
      while tail + 1 < |c|
        invariant tail < |c|
      {
        tail := tail + 1;
      }
      var k := Min(c[tail].len, bytes);
      d := c[tail := c[tail].(len := c[tail].len - k)];
      d := d[0 := d[0].(pktlen := d[0].pktlen - k)];
      n := bytes - k;
      if d[tail].len == 0 && tail > 0 {
        PutBack(d[tail]);
        d := d[..tail - 1] + [d[tail - 1].(eop := d[tail - 1].eop || d[tail].eop)];
      }
    }

    /** The loop of `pbuf_pullup`. */
    method GatherBytes(c: Chain, need: nat) returns (d: Chain, missing: nat)
      requires Packet(c) && c != [] && c[0].offset + c[0].len + need <= DATA_SIZE
      modifies this
      ensures (Value(), d, missing) == Gather(old(Value()), c, need)
    {
      hide Payload, Bytes, BufOk, EndsOnce, Joined, Rest, Absorbed, Put;
      d, missing := c, need;
      while missing != 0
        invariant Packet(d) && d != [] && d[0].offset + d[0].len + missing <= DATA_SIZE
        invariant Gather(Value(), d, missing) == Gather(old(Value()), c, need)
        decreases |d|, missing
      {
        if |d| == 1 {
          return;
        }
        assert BufOk(d[0]) && BufOk(d[1]);
        var k := Min(missing, d[1].len);
        var h, n := Joined(d[0], d[1], k), Rest(d[1], k);
        RestFields(d[0], d[1], k);
        missing := missing - k;
        if n.len == 0 {
          GatherPacket(d, k);
          AbsorbFields(h, n);
          PutBack(n);
          d := [Absorbed(h, n)] + d[2..];
        } else {
          GatherHere(d, k);
          d := [h, n] + d[2..];
        }
      }
    }

    /** `pbuf_pullup`. */
    method PullupBytes(c: Chain, bytes: nat) returns (d: Chain, missing: nat)
      requires Packet(c) && c != [] && bytes <= DATA_SIZE
      modifies this
      ensures (Value(), d, missing) == Pullup(old(Value()), c, bytes)
    {
      hide Payload, Bytes, EndsOnce, Gather;
      d := c;
      if d[0].len >= bytes {
        return d, 0;
      }
      RebasedPacket(c);
      assert [c[0]] + c[1..] == c;
      if bytes + d[0].offset > DATA_SIZE {
        d := [Rebased(d[0])] + d[1..];
      }
      d, missing := GatherBytes(d, bytes - d[0].len);
    }

    /** `pbuf_copy_pkt`, not waiting. */
    method CopyPacket(src: Chain, stale: Stale) returns (r: Chain)
      modifies this
      ensures (Value(), r) == CopyFrom(old(Value()), stale, [], src)
    {
      hide Free;
      r := [];
      var i := 0;
      assert src[0..] == src;
      while i < |src|
        invariant i <= |src| && CopyFrom(Value(), stale, r, src[i..]) == CopyFrom(old(Value()), stale, [], src)
      {
        if |pbs| < 2 || |mems| < 2 {
          FreeChain(r);
          return [];
        }
        var dst := src[i].(pb := pbs[0], mem := mems[0], credits := Left(stale, pbs[0]));
        pbs, mems := pbs[1..], mems[1..];
        r := r + [dst];
        assert src[i..][1..] == src[i + 1..];
        i := i + 1;
        if i == |src| || src[i].sop {
          return;
        }
      }
    }
  }

  /** One turn of reading. */
  lemma ReadTurn(p: Pools, c: Chain, n: nat)
    requires Packet(c) && 0 < n <= |Payload(c)|
    ensures c != [] && c[0].len <= c[0].pktlen && BufOk(c[0])
    ensures var k := Min(n, c[0].len);
      var b := Shrink(c[0], k);
      var q := if b.len > 0 then p else Put(p, b);
      var d := if b.len > 0 then [b] + c[1..] else if |c| == 1 then [] else [c[1].(pktlen := b.pktlen)] + c[2..];
      && Packet(d) && n - k <= |Payload(d)|
      && Read(p, c, n).0 == Read(q, d, n - k).0 && Read(p, c, n).1 == Read(q, d, n - k).1
      && Read(p, c, n).2 == Bytes(c[0])[..k] + Read(q, d, n - k).2
      && (|d| < |c| || (|d| == |c| && n - k < n))
  {
    hide Payload, Bytes, BufOk, EndsOnce, BufsOk, Put;
    SomeLeft(c, n);
    HeadFits(c);
    PayloadCons(c);
    NothingPacket();
    var k := Min(n, c[0].len);
    var b := Shrink(c[0], k);
    if b.len > 0 {
      ShrinkBytes(c[0], k);
      PutHead(b, c);
      assert Bytes(c[0])[..k] + [] == Bytes(c[0])[..k];
    } else if |c| == 1 {
      LonePayload(c);
      assert Bytes(c[0])[..k] + [] == Bytes(c[0])[..k];
    } else {
      NextRead(c, k);
    }
  }

  lemma ReadNothing(p: Pools, c: Chain)
    requires Packet(c)
    ensures Read(p, c, 0) == (p, c, [])
  {
  }
}
