/** One channel's traffic in one direction: how what a sender has queued and
    started, and what a receiver has accepted, relate to the messages sent. */
module VllpStreams {
  import opened Common
  import opened Crc32
  import opened VllpFrames

  /** The fragments of one channel, in order. */
  function Of(frags: seq<bytes>, id: nat): (r: seq<bytes>)
    ensures forall f :: f in r ==> f in frags && |f| >= 1
    decreases frags
  {
    if frags == [] then []
    else
      var f := frags[|frags| - 1];
      var rest := Of(frags[..|frags| - 1], id);
      if |f| >= 1 && ChannelOf(f[0]) == id then rest + [f] else rest
  }

  lemma OfSnoc(frags: seq<bytes>, f: bytes, id: nat)
    ensures Of(frags + [f], id) == if |f| >= 1 && ChannelOf(f[0]) == id then Of(frags, id) + [f] else Of(frags, id)
  {
    assert (frags + [f])[..|frags + [f]| - 1] == frags;
  }

  lemma {:induction false} OfPrefix(a: seq<bytes>, b: seq<bytes>, id: nat)
    requires a <= b
    ensures Of(a, id) <= Of(b, id)
    decreases |b| - |a|
  {
    if |a| == |b| {
      assert a == b;
    } else {
      var a1 := b[..|a| + 1];
      assert a1 == a + [b[|a|]];
      OfSnoc(a, b[|a|], id);
      OfPrefix(a1, b, id);
    }
  }

  /** Everything queued or started on a channel is the fragment stream of the
      messages already cut; the rest of the messages wait uncut. */
  ghost predicate TxOk(mtu: nat, id: nat, base: word, txq: seq<bytes>, mtxq: seq<bytes>, txIV: word,
                 sent: seq<bytes>, started: seq<bytes>)
    requires mtu >= 2 && id < 15
  {
    && |mtxq| <= |sent|
    && var d := |sent| - |mtxq|;
    && sent[d..] == mtxq
    && txIV == IvAfter(base, d)
    && Of(started, id) + txq == FragmentAll(mtu, id, base, sent[..d])
  }

  /** What a channel has reassembled from what was accepted. */
  ghost predicate RxOk(id: nat, base: word, rxbuf: bytes, rxIV: word, got: seq<bytes>, accepted: seq<bytes>) {
    AbsorbAll(Reader([], base, []), Of(accepted, id)) == Some(Reader(rxbuf, rxIV, got))
  }

  lemma TxStart(mtu: nat, id: nat, base: word, mtxq: seq<bytes>, started: seq<bytes>)
    requires mtu >= 2 && id < 15 && Of(started, id) == []
    ensures TxOk(mtu, id, base, [], mtxq, base, mtxq, started)
  {
    assert mtxq[0..] == mtxq && mtxq[..0] == [];
  }

  lemma RxStart(id: nat, base: word, accepted: seq<bytes>)
    requires Of(accepted, id) == []
    ensures RxOk(id, base, [], base, [], accepted)
  {
  }

  /** A channel that has cut nothing has started nothing. */
  lemma TxUncut(mtu: nat, id: nat, base: word, txq: seq<bytes>, mtxq: seq<bytes>, txIV: word, sent: seq<bytes>, started: seq<bytes>)
    requires mtu >= 2 && id < 15
    requires TxOk(mtu, id, base, txq, mtxq, txIV, sent, started)
    requires mtxq == sent
    ensures Of(started, id) == []
  {
    assert sent[..0] == [];
  }

  lemma TxSend(mtu: nat, id: nat, base: word, txq: seq<bytes>, mtxq: seq<bytes>, txIV: word, sent: seq<bytes>, started: seq<bytes>, m: bytes)
    requires mtu >= 2 && id < 15
    requires TxOk(mtu, id, base, txq, mtxq, txIV, sent, started)
    ensures TxOk(mtu, id, base, txq, mtxq + [m], txIV, sent + [m], started)
  {
    hide FragmentAll, IvAfter, Of;
    var d := |sent| - |mtxq|;
    assert (sent + [m])[d..] == mtxq + [m];
    assert (sent + [m])[..d] == sent[..d];
  }

  lemma {:induction false} IvConcat(iv: word, a: nat, b: nat)
    ensures IvAfter(IvAfter(iv, a), b) == IvAfter(iv, a + b)
    decreases b
  {
    hide NextIv;
    if b > 0 {
      IvConcat(iv, a, b - 1);
    }
  }

  lemma {:induction false} FragmentConcat(mtu: nat, id: nat, iv: word, a: seq<bytes>, b: seq<bytes>)
    requires mtu >= 2 && id < 15
    ensures FragmentAll(mtu, id, iv, a + b) == FragmentAll(mtu, id, iv, a) + FragmentAll(mtu, id, IvAfter(iv, |a|), b)
    decreases |b|
  {
    hide Seal, Chunks, NextIv, IvAfter;
    if b == [] {
      assert a + b == a;
    } else {
      var k := |b| - 1;
      FragmentConcat(mtu, id, iv, a, b[..k]);
      IvConcat(iv, |a|, k);
      assert (a + b)[..|a + b| - 1] == a + b[..k];
      assert (a + b)[|a + b| - 1] == b[k];
    }
  }

  lemma TxFragment(mtu: nat, id: nat, base: word, txq: seq<bytes>, mtxq: seq<bytes>, txIV: word, sent: seq<bytes>, started: seq<bytes>)
    requires mtu >= 2 && id < 15
    requires TxOk(mtu, id, base, txq, mtxq, txIV, sent, started)
    ensures TxOk(mtu, id, base, txq + FragmentAll(mtu, id, txIV, mtxq), [], IvAfter(txIV, |mtxq|), sent, started)
  {
    hide FragmentAll, IvAfter, Of;
    var d := |sent| - |mtxq|;
    FragmentConcat(mtu, id, base, sent[..d], mtxq);
    IvConcat(base, d, |mtxq|);
    assert sent[..d] + mtxq == sent == sent[..|sent|];
    assert Of(started, id) + (txq + FragmentAll(mtu, id, txIV, mtxq))
        == (Of(started, id) + txq) + FragmentAll(mtu, id, txIV, mtxq);
  }

  lemma TxStarted(mtu: nat, id: nat, base: word, txq: seq<bytes>, mtxq: seq<bytes>, txIV: word, sent: seq<bytes>, started: seq<bytes>)
    requires mtu >= 2 && id < 15
    requires TxOk(mtu, id, base, txq, mtxq, txIV, sent, started)
    requires txq != [] && |txq[0]| >= 1 && ChannelOf(txq[0][0]) == id
    ensures TxOk(mtu, id, base, txq[1..], mtxq, txIV, sent, started + [txq[0]])
  {
    hide FragmentAll, IvAfter, Of, ChannelOf;
    OfSnoc(started, txq[0], id);
    assert Of(started, id) + [txq[0]] + txq[1..] == Of(started, id) + txq;
  }

  lemma TxOther(mtu: nat, id: nat, base: word, txq: seq<bytes>, mtxq: seq<bytes>, txIV: word, sent: seq<bytes>, started: seq<bytes>, f: bytes)
    requires mtu >= 2 && id < 15
    requires TxOk(mtu, id, base, txq, mtxq, txIV, sent, started)
    requires |f| >= 1 && ChannelOf(f[0]) != id
    ensures TxOk(mtu, id, base, txq, mtxq, txIV, sent, started + [f])
  {
    hide FragmentAll, IvAfter;
    OfSnoc(started, f, id);
  }

  lemma RxOther(id: nat, base: word, rxbuf: bytes, rxIV: word, got: seq<bytes>, accepted: seq<bytes>, f: bytes)
    requires RxOk(id, base, rxbuf, rxIV, got, accepted)
    requires |f| >= 1 && ChannelOf(f[0]) != id
    ensures RxOk(id, base, rxbuf, rxIV, got, accepted + [f])
  {
    hide AbsorbAll;
    OfSnoc(accepted, f, id);
  }

  /** Accepting the peer's next fragment of a channel: the reader absorbs it,
      and what it has then is a prefix of what the peer sent. */
  lemma RxTake(mtu: nat, id: nat, base: word, rxbuf: bytes, rxIV: word, got: seq<bytes>, accepted: seq<bytes>, f: bytes,
               txq: seq<bytes>, mtxq: seq<bytes>, txIV: word, sent: seq<bytes>, started: seq<bytes>)
    requires mtu >= 2 && id < 15
    requires RxOk(id, base, rxbuf, rxIV, got, accepted)
    requires TxOk(mtu, id, base, txq, mtxq, txIV, sent, started)
    requires accepted + [f] <= started
    requires |f| >= 1 && ChannelOf(f[0]) == id
    ensures Absorb(Reader(rxbuf, rxIV, got), f).Some?
    ensures var r := Absorb(Reader(rxbuf, rxIV, got), f).value;
      r.got <= sent && RxOk(id, base, r.buf, r.iv, r.got, accepted + [f])
  {
    hide Absorb, AbsorbAll, FragmentAll, IvAfter, Of, ChannelOf;
    OfSnoc(accepted, f, id);
    var d := |sent| - |mtxq|;
    OfPrefix(accepted + [f], started, id);
    var frags := Of(accepted + [f], id);
    assert frags == FragmentAll(mtu, id, base, sent[..d])[..|frags|];
    PrefixReassembles(mtu, id, base, sent[..d], |frags|);
    AbsorbConcat(Reader([], base, []), Of(accepted, id), [f]);
    AbsorbOne(Reader(rxbuf, rxIV, got), f);
  }

  /** At any time the messages reassembled are a prefix of the messages sent. */
  lemma GotIsPrefix(mtu: nat, id: nat, base: word, rxbuf: bytes, rxIV: word, got: seq<bytes>, accepted: seq<bytes>,
                    txq: seq<bytes>, mtxq: seq<bytes>, txIV: word, sent: seq<bytes>, started: seq<bytes>)
    requires mtu >= 2 && id < 15
    requires RxOk(id, base, rxbuf, rxIV, got, accepted)
    requires TxOk(mtu, id, base, txq, mtxq, txIV, sent, started)
    requires accepted <= started
    ensures got <= sent
  {
    hide AbsorbAll, FragmentAll, IvAfter;
    var d := |sent| - |mtxq|;
    OfPrefix(accepted, started, id);
    var frags := Of(accepted, id);
    assert frags == FragmentAll(mtu, id, base, sent[..d])[..|frags|];
    PrefixReassembles(mtu, id, base, sent[..d], |frags|);
  }

  // ---------------------------------------------------------------------
  // A channel that has lost data
  // ---------------------------------------------------------------------

  /** How many fragments end a message. */
  function Lasts(frags: seq<bytes>): nat
    decreases frags
  {
    if frags == [] then 0
    else
      var f := frags[|frags| - 1];
      Lasts(frags[..|frags| - 1]) + if |f| >= 1 && HasL(f[0]) then 1 else 0
  }

  lemma LastsSnoc(frags: seq<bytes>, f: bytes)
    ensures Lasts(frags + [f]) == Lasts(frags) + if |f| >= 1 && HasL(f[0]) then 1 else 0
  {
    hide HasL;
    assert (frags + [f])[..|frags + [f]| - 1] == frags;
  }

  lemma {:induction false} LastsConcat(a: seq<bytes>, b: seq<bytes>)
    ensures Lasts(a + b) == Lasts(a) + Lasts(b)
    decreases b
  {
    hide HasL;
    if b == [] {
      assert a + b == a;
    } else {
      var k := |b| - 1;
      assert a + b == (a + b[..k]) + [b[k]];
      LastsSnoc(a + b[..k], b[k]);
      LastsConcat(a, b[..k]);
    }
  }

  lemma LastsOne(id: nat, last: bool, data: bytes)
    requires id < 15
    ensures Lasts([[FragHeader(id, last)] + data]) == if last then 1 else 0
  {
    hide HasL, FragHeader;
    FragHeaderBits(id, last);
    var f := [FragHeader(id, last)] + data;
    LastsSnoc([], f);
    assert [] + [f] == [f];
  }

  lemma {:induction false} LastsOfChunks(mtu: nat, id: nat, data: bytes)
    requires mtu >= 2 && id < 15
    ensures Lasts(Chunks(mtu, id, data)) == 1
    decreases |data|
  {
    hide HasL, FragHeader, Lasts;
    if |data| < mtu {
      LastsOne(id, true, data);
    } else {
      LastsOfChunks(mtu, id, data[mtu - 1..]);
      LastsOne(id, false, data[..mtu - 1]);
      LastsConcat([[FragHeader(id, false)] + data[..mtu - 1]], Chunks(mtu, id, data[mtu - 1..]));
    }
  }

  lemma {:induction false} LastsOfStream(mtu: nat, id: nat, iv: word, msgs: seq<bytes>)
    requires mtu >= 2 && id < 15
    ensures Lasts(FragmentAll(mtu, id, iv, msgs)) == |msgs|
    decreases |msgs|
  {
    hide Lasts, Chunks, Seal, IvAfter;
    if msgs == [] {
      assert Lasts([]) == 0 by { NoLasts(); }
    } else {
      var k := |msgs| - 1;
      LastsOfStream(mtu, id, iv, msgs[..k]);
      LastsOfChunks(mtu, id, Seal(IvAfter(iv, k), msgs[k]));
      LastsConcat(FragmentAll(mtu, id, iv, msgs[..k]), Chunks(mtu, id, Seal(IvAfter(iv, k), msgs[k])));
    }
  }

  lemma NoLasts()
    ensures Lasts([]) == 0
  {
  }

  /** Whatever a channel has thrown away, one message counts for every fragment
      accepted that ends one. */
  ghost predicate RxCounts(id: nat, base: word, rxIV: word, got: seq<bytes>, accepted: seq<bytes>) {
    |got| == Lasts(Of(accepted, id)) && rxIV == IvAfter(base, |got|)
  }

  lemma {:induction false} AbsorbCounts(base: word, frags: seq<bytes>)
    requires (forall f :: f in frags ==> |f| >= 1) && AbsorbAll(Reader([], base, []), frags).Some?
    ensures var r := AbsorbAll(Reader([], base, []), frags).value;
      |r.got| == Lasts(frags) && r.iv == IvAfter(base, |r.got|)
    decreases frags
  {
    hide HasL, Crc, NextIv;
    if frags != [] {
      AbsorbCounts(base, frags[..|frags| - 1]);
    }
  }

  lemma RxOkCounts(id: nat, base: word, rxbuf: bytes, rxIV: word, got: seq<bytes>, accepted: seq<bytes>)
    requires RxOk(id, base, rxbuf, rxIV, got, accepted)
    ensures RxCounts(id, base, rxIV, got, accepted)
  {
    hide AbsorbAll, Of, Lasts, IvAfter;
    AbsorbCounts(base, Of(accepted, id));
  }

  /** One more fragment, as long as it is not refused. */
  lemma CountsTake(id: nat, base: word, rxbuf: bytes, rxIV: word, got: seq<bytes>, accepted: seq<bytes>, f: bytes)
    requires RxCounts(id, base, rxIV, got, accepted) && |f| >= 1 && ChannelOf(f[0]) == id
    ensures match Receive(rxbuf, rxIV, f)
      case Partial(buf) => RxCounts(id, base, rxIV, got, accepted + [f])
      case Complete(msg) => RxCounts(id, base, NextIv(rxIV), got + [msg], accepted + [f])
      case _ => true
  {
    hide Of, Lasts, HasL, Crc, NextIv, ChannelOf;
    OfSnoc(accepted, f, id);
    LastsSnoc(Of(accepted, id), f);
  }

  lemma CountsOther(id: nat, base: word, rxIV: word, got: seq<bytes>, accepted: seq<bytes>, f: bytes)
    requires RxCounts(id, base, rxIV, got, accepted) && |f| >= 1 && ChannelOf(f[0]) != id
    ensures RxCounts(id, base, rxIV, got, accepted + [f])
  {
    hide Lasts, IvAfter, ChannelOf, Of;
    OfSnoc(accepted, f, id);
  }

  /** No more messages are counted than the peer has cut. */
  lemma CountedWereCut(mtu: nat, id: nat, base: word, rxIV: word, got: seq<bytes>, accepted: seq<bytes>,
                       txq: seq<bytes>, mtxq: seq<bytes>, txIV: word, sent: seq<bytes>, started: seq<bytes>)
    requires mtu >= 2 && id < 15
    requires RxCounts(id, base, rxIV, got, accepted) && TxOk(mtu, id, base, txq, mtxq, txIV, sent, started)
    requires accepted <= started
    ensures |got| <= |sent| - |mtxq|
  {
    hide Lasts, IvAfter, Of, FragmentAll;
    OfPrefix(accepted, started, id);
    var a, b := Of(accepted, id), Of(started, id);
    var d := |sent| - |mtxq|;
    LastsOfStream(mtu, id, base, sent[..d]);
    LastsConcat(b, txq);
    assert b == a + b[|a|..];
    LastsConcat(a, b[|a|..]);
  }
}
