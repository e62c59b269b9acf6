/** The event log's code over its ring: each method changes the bytes, pointers
    and followers in place, and thereby does to the list of records what
    `EventLog` says. */
module EventLogFifo {
  import opened Common
  import opened EventLog
  import opened EventLogRing
  import opened EventLogWire

  /** A follower as the kernel keeps it. */
  datatype Tap = Tap(ptr: nat, drops: nat)

  datatype Ring = Ring(data: text, head: nat, tail: nat, tsTail: int, tsHead: int, seqTail: nat, taps: seq<Tap>)

  // ---------------------------------------------------------------------
  // The ring stands for the log
  // ---------------------------------------------------------------------

  /** The record being written: its length so far, then its text. */
  predicate Drafted(data: text, at: nat, draft: Option<text>)
    requires |data| > 0
  {
    draft.Some? ==>
      && 2 + |draft.value| <= |data|
      && data[Slot(|data|, at)] == 2 + |draft.value|
      && Window(data, at + 2, |draft.value|) == draft.value
  }

  predicate Holds(data: text, pos: nat, l: Log) {
    && Valid(l) && |data| == l.size && |data| > 0
    && Parses(Window(data, pos, Total(l.records)), l.records)
    && Drafted(data, pos + Total(l.records), l.draft)
  }

  predicate Points(r: Ring, pos: nat, l: Log) {
    && r.tail == Short(pos) && r.head == Short(pos + Total(l.records))
    && r.tsTail == l.tsTail && r.tsHead == l.tsHead && r.seqTail == l.first % 0x1_0000_0000
  }

  predicate TapOk(t: Tap, f: Follower, pos: nat, rs: seq<Record>) {
    f.at <= |rs| && t.ptr == Short(pos + Total(rs[..f.at])) && t.drops == f.drops % 65536
  }

  predicate TapsOk(taps: seq<Tap>, pos: nat, l: Log) {
    && |taps| == |l.followers|
    && forall i :: 0 <= i < |taps| ==> TapOk(taps[i], l.followers[i], pos, l.records)
  }

  /** `pos` is the tail's position, counted without wrap-around. */
  predicate StandsFor(r: Ring, pos: nat, l: Log) {
    Holds(r.data, pos, l) && Points(r, pos, l) && TapsOk(r.taps, pos, l)
  }

  lemma RingSize(r: Ring, pos: nat, l: Log)
    requires StandsFor(r, pos, l)
    ensures SizeOk(|r.data|) && Total(l.records) + DraftSize(l) <= |r.data| == l.size <= 32768
    ensures DraftSize(l) <= MaxEntry(l.size) && MaxEntry(l.size) + 8 <= l.size && MaxEntry(l.size) <= 192
    ensures r.head == r.tail <==> l.records == []
    ensures Short(r.head - r.tail) == Total(l.records)
  {
    hide Parses, Drafted, RecordsOk, FollowersOk, TapsOk;
    EntryFits(l.size);
    SizesUp(l.records);
    ShortApart(pos, pos + Total(l.records));
  }

  lemma SizesUp(rs: seq<Record>)
    ensures rs == [] <==> Total(rs) == 0
  {
  }

  /** The bytes of the record k. */
  lemma RecordBytes(r: Ring, pos: nat, l: Log, k: nat)
    requires StandsFor(r, pos, l) && k < |l.records|
    ensures Reads(Window(r.data, pos + Total(l.records[..k]), Size(l.records[k])), l.records[k])
    ensures Total(l.records[..k]) + Size(l.records[k]) <= Total(l.records)
  {
    hide Reads, Size, Valid, Drafted, TapsOk, Points, Parses;
    var n, m := Total(l.records[..k]), Size(l.records[k]);
    var b := Window(r.data, pos, Total(l.records));
    ParsesAt(b, l.records, k);
    WindowJoin(r.data, pos, n, m);
    WindowJoin(r.data, pos, n + m, Total(l.records) - n - m);
    assert b[n..n + m] == Window(r.data, pos + n, m);
  }

  // ---------------------------------------------------------------------
  // Losing the oldest record
  // ---------------------------------------------------------------------

  function PushTap(t: Tap, tail: nat, len: nat): Tap {
    if t.ptr == tail then Tap(Short(t.ptr + len), (t.drops + 1) % 65536) else t
  }

  function PushTaps(ts: seq<Tap>, tail: nat, len: nat): (r: seq<Tap>)
    ensures |r| == |ts| && forall i :: 0 <= i < |ts| ==> r[i] == PushTap(ts[i], tail, len)
  {
    seq(|ts|, i requires 0 <= i < |ts| => PushTap(ts[i], tail, len))
  }

  lemma PushTapOk(t: Tap, f: Follower, pos: nat, rs: seq<Record>)
    requires TapOk(t, f, pos, rs) && rs != [] && Total(rs) <= 32768
    ensures TapOk(PushTap(t, Short(pos), Size(rs[0])), Pushed(f), pos + Size(rs[0]), rs[1..])
  {
    hide Size, Total;
    TotalPrefix(rs, f.at);
    ShortApart(pos, pos + Total(rs[..f.at]));
    NoRecords();
    if f.at == 0 {
      assert rs[..0] == [] && rs[1..][..0] == [];
      ShortPlus(pos, Size(rs[0]));
    } else {
      TotalCons(rs, f.at);
    }
  }

  lemma NoRecords()
    ensures Total([]) == 0
  {
  }

  function Erased(r: Ring, len: nat, delta: nat): Ring {
    r.(tail := Short(r.tail + len), tsTail := r.tsTail + delta, seqTail := (r.seqTail + 1) % 0x1_0000_0000,
       taps := PushTaps(r.taps, r.tail, len))
  }

  lemma EraseHolds(data: text, pos: nat, l: Log)
    requires Holds(data, pos, l) && l.records != []
    ensures Holds(data, pos + Size(l.records[0]), Evict(l))
  {
    hide Reads, Size, Drafted, Valid;
    EvictValid(l);
    var n := Size(l.records[0]);
    WindowJoin(data, pos, n, Total(l.records[1..]));
    assert Window(data, pos, Total(l.records))[n..] == Window(data, pos + n, Total(l.records[1..]));
  }

  lemma EraseTaps(taps: seq<Tap>, pos: nat, l: Log)
    requires TapsOk(taps, pos, l) && l.records != [] && Total(l.records) <= 32768
    ensures TapsOk(PushTaps(taps, Short(pos), Size(l.records[0])), pos + Size(l.records[0]), Evict(l))
  {
    hide Size, PushTap, TapOk, Pushed, Short, Total;
    forall i | 0 <= i < |taps|
      ensures TapOk(PushTaps(taps, Short(pos), Size(l.records[0]))[i], Evict(l).followers[i], pos + Size(l.records[0]), l.records[1..])
    {
      PushTapOk(taps[i], l.followers[i], pos, l.records);
    }
  }

  lemma ErasePoints(r: Ring, pos: nat, l: Log)
    requires Points(r, pos, l) && l.records != []
    ensures Points(Erased(r, Size(l.records[0]), l.records[0].delta), pos + Size(l.records[0]), Evict(l))
  {
    hide Size, Short, PushTaps, AllPushed;
    ShortPlus(pos, Size(l.records[0]));
    Counts(l.first);
  }

  lemma Counts(n: nat)
    ensures (n % 0x1_0000_0000 + 1) % 0x1_0000_0000 == (n + 1) % 0x1_0000_0000
  {
  }

  lemma EraseStandsFor(r: Ring, pos: nat, l: Log)
    requires StandsFor(r, pos, l) && l.records != []
    ensures StandsFor(Erased(r, Size(l.records[0]), l.records[0].delta), pos + Size(l.records[0]), Evict(l))
  {
    hide Size, Holds, PushTaps, TapsOk, Evict, Short, Total;
    EraseHolds(r.data, pos, l);
    RingSize(r, pos, l);
    ErasePoints(r, pos, l);
    EraseTaps(r.taps, pos, l);
  }

  // ---------------------------------------------------------------------
  // Writing the new record
  // ---------------------------------------------------------------------

  /** Bytes written past the records leave them alone. */
  lemma PutPast(data: text, pos: nat, l: Log, at: nat, v: octet, draft: Option<text>)
    requires Holds(data, pos, l) && pos + Total(l.records) <= at < pos + |data|
    requires Valid(l.(draft := draft)) && Drafted(data[Slot(|data|, at) := v], pos + Total(l.records), draft)
    ensures Holds(data[Slot(|data|, at) := v], pos, l.(draft := draft))
  {
    hide Parses, Drafted, Valid, Slot;
    WindowPast(data, pos, Total(l.records), at, v);
  }

  lemma TapsSame(taps: seq<Tap>, pos: nat, l: Log, l1: Log)
    requires TapsOk(taps, pos, l) && l1.records == l.records && l1.followers == l.followers
    ensures TapsOk(taps, pos, l1)
  {
    hide TapOk;
  }

  lemma BeginStandsFor(r: Ring, pos: nat, l: Log, l1: Log, data: text)
    requires StandsFor(r, pos, l) && Total(l.records) < |r.data|
    requires data == r.data[Slot(|r.data|, pos + Total(l.records)) := 2]
    requires Valid(l1) && l1 == l.(draft := Some([]), tsTail := l1.tsTail, tsHead := l1.tsHead)
    ensures StandsFor(r.(data := data, tsTail := l1.tsTail, tsHead := l1.tsHead), pos, l1)
  {
    hide Parses, Valid, Slot, TapOk;
    ValidSizes(l1);
    var at := pos + Total(l.records);
    WindowPast(r.data, pos, Total(l.records), at, 2);
    TapsSame(r.taps, pos, l, l1);
  }

  lemma ValidSizes(l: Log)
    requires Valid(l)
    ensures 16 <= l.size && Total(l.records) + DraftSize(l) <= l.size
  {
    hide Total, RecordsOk, FollowersOk;
  }

  /** The draft's text grows by one byte, its length byte still to be told. */
  lemma TextGrows(data: text, pos: nat, l: Log, k: nat, written: text, b: octet)
    requires Holds(data, pos, l) && l.draft.Some? && |written| == k
    requires Window(data, pos + Total(l.records) + 2, |l.draft.value| + k) == l.draft.value + written
    requires Total(l.records) + DraftSize(l) + k < l.size
    ensures var at := pos + Total(l.records) + DraftSize(l) + k;
      && Holds(data[Slot(|data|, at) := b], pos, l)
      && Window(data[Slot(|data|, at) := b], pos + Total(l.records) + 2, |l.draft.value| + k + 1) == l.draft.value + (written + [b])
  {
    hide Parses, Valid, Slot, Total;
    var at := pos + Total(l.records) + DraftSize(l) + k;
    var text0 := pos + Total(l.records) + 2;
    WindowGrow(data, text0, |l.draft.value| + k, b);
    WindowPast(data, text0, |l.draft.value|, at, b);
    SlotApart(|data|, pos + Total(l.records), at);
    PutPast(data, pos, l, at, b, l.draft);
    assert l.draft.value + written + [b] == l.draft.value + (written + [b]);
  }

  /** The length byte is brought up to date. */
  lemma TextTold(r: Ring, pos: nat, l: Log, s: text, v: octet)
    requires StandsFor(r, pos, l) && l.draft.Some? && v == DraftSize(l) + |s|
    requires Window(r.data, pos + Total(l.records) + 2, |l.draft.value| + |s|) == l.draft.value + s
    requires Valid(l.(draft := Some(l.draft.value + s)))
    ensures StandsFor(r.(data := r.data[Slot(|r.data|, pos + Total(l.records)) := v]), pos, l.(draft := Some(l.draft.value + s)))
  {
    hide Parses, Valid, Slot, TapOk;
    var l1 := l.(draft := Some(l.draft.value + s));
    ValidSizes(l1);
    var at := pos + Total(l.records);
    WindowBefore(r.data, at + 2, |l1.draft.value|, at, v);
    WindowPast(r.data, pos, Total(l.records), at, v);
    TapsSame(r.taps, pos, l, l1);
  }

  // ---------------------------------------------------------------------
  // Committing
  // ---------------------------------------------------------------------

  lemma DeltaGrows(data: text, pos: nat, l: Log, k: nat, written: text, b: octet)
    requires Holds(data, pos, l) && l.draft.Some? && |written| == k
    requires Window(data, pos + Total(l.records) + DraftSize(l), k) == written
    requires Total(l.records) + DraftSize(l) + k < l.size
    ensures var at := pos + Total(l.records) + DraftSize(l) + k;
      && Holds(data[Slot(|data|, at) := b], pos, l)
      && Window(data[Slot(|data|, at) := b], pos + Total(l.records) + DraftSize(l), k + 1) == written + [b]
  {
    hide Parses, Valid, Slot, Total;
    var at := pos + Total(l.records) + DraftSize(l) + k;
    WindowGrow(data, pos + Total(l.records) + DraftSize(l), k, b);
    WindowPast(data, pos + Total(l.records) + 2, |l.draft.value|, at, b);
    SlotApart(|data|, pos + Total(l.records), at);
    PutPast(data, pos, l, at, b, l.draft);
  }

  /** With both header bytes in place the bytes are the finished entry. */
  lemma EntryInPlace(data: text, at: nat, level: octet, message: text, delta: nat)
    requires level < 8 && |LeBytes(delta)| <= 8 && |message| <= 192
    requires 2 + |message| + |LeBytes(delta)| <= |data|
    requires Window(data, at + 2, |message|) == message
    requires Window(data, at + 2 + |message|, |LeBytes(delta)|) == LeBytes(delta)
    ensures var n := 2 + |message| + |LeBytes(delta)|;
      var d1 := data[Slot(|data|, at) := n];
      var d2 := d1[Slot(|data|, at + 1) := level + 8 * |LeBytes(delta)|];
      Window(d2, at, n) == Entry(level, message, delta)
  {
    hide LeBytes, Slot;
    var tl := LeBytes(delta);
    var n := 2 + |message| + |tl|;
    var d1 := data[Slot(|data|, at) := n];
    var d2 := d1[Slot(|data|, at + 1) := level + 8 * |tl|];
    WindowJoin(data, at + 2, |message|, |tl|);
    WindowBefore(data, at + 2, n - 2, at, n);
    WindowBefore(d1, at + 2, n - 2, at + 1, level + 8 * |tl|);
    WindowJoin(d2, at, 2, n - 2);
    SlotApart(|data|, at, at + 1);
    assert Window(d2, at, 2) == [n, level + 8 * |tl|];
    assert Entry(level, message, delta) == [n, level + 8 * |tl|] + (message + tl);
  }

  lemma CommitHolds(data: text, pos: nat, l: Log, b: text, rec: Record, l1: Log)
    requires |data| == l.size && |data| > 0 && Parses(Window(data, pos, Total(l.records)), l.records)
    requires Reads(b, rec) && Window(data, pos + Total(l.records), |b|) == b
    requires Valid(l1) && l1.size == l.size && l1.draft.None? && l1.records == l.records + [rec]
    ensures Holds(data, pos, l1) && Total(l1.records) == Total(l.records) + |b|
  {
    hide Valid, Reads, Size;
    ReadsSize(b, rec);
    TotalSnoc(l.records, rec);
    WindowJoin(data, pos, Total(l.records), |b|);
    ParsesSnoc(Window(data, pos, Total(l.records)), l.records, b, rec);
  }

  lemma TapsMore(taps: seq<Tap>, pos: nat, l: Log, l1: Log, rec: Record)
    requires TapsOk(taps, pos, l) && l1.records == l.records + [rec] && l1.followers == l.followers
    ensures TapsOk(taps, pos, l1)
  {
    hide Total;
    forall i | 0 <= i < |taps|
      ensures TapOk(taps[i], l1.followers[i], pos, l1.records)
    {
      assert l1.records[..l.followers[i].at] == l.records[..l.followers[i].at];
    }
  }

  function Headed(data: text, at: nat, n: octet, flags: octet): (r: text)
    requires |data| > 0
    ensures |r| == |data|
  {
    data[Slot(|data|, at) := n][Slot(|data|, at + 1) := flags]
  }

  /** The finished entry is in place, after the records. */
  lemma CommitBytes(data: text, pos: nat, l: Log, level: octet, delta: nat)
    requires Holds(data, pos, l) && l.draft.Some? && level < 8 && |LeBytes(delta)| <= 8 && |l.draft.value| <= 192
    requires Total(l.records) + DraftSize(l) + |LeBytes(delta)| <= l.size
    requires Window(data, pos + Total(l.records) + DraftSize(l), |LeBytes(delta)|) == LeBytes(delta)
    ensures var at := pos + Total(l.records);
      var d := Headed(data, at, DraftSize(l) + |LeBytes(delta)|, level + 8 * |LeBytes(delta)|);
      && Window(d, at, DraftSize(l) + |LeBytes(delta)|) == Entry(level, l.draft.value, delta)
      && Window(d, pos, Total(l.records)) == Window(data, pos, Total(l.records))
  {
    hide Valid, LeBytes, Slot, Parses, Entry, Total;
    var at := pos + Total(l.records);
    var n := DraftSize(l) + |LeBytes(delta)|;
    EntryInPlace(data, at, level, l.draft.value, delta);
    WindowPast(data, pos, Total(l.records), at, n);
    WindowPast(data[Slot(|data|, at) := n], pos, Total(l.records), at + 1, level + 8 * |LeBytes(delta)|);
  }

  lemma CommitStandsFor(r: Ring, pos: nat, l: Log, level: octet, delta: nat, l1: Log)
    requires StandsFor(r, pos, l) && l.draft.Some? && level < 8 && |LeBytes(delta)| <= 8
    requires Total(l.records) + DraftSize(l) + |LeBytes(delta)| <= l.size
    requires Window(r.data, pos + Total(l.records) + DraftSize(l), |LeBytes(delta)|) == LeBytes(delta)
    requires Valid(l1) && l1 == l.(records := l.records + [Stamp(level, l.draft.value, delta)], tsHead := l1.tsHead, draft := None)
    requires DraftSize(l) + |LeBytes(delta)| < 256
    ensures var n := DraftSize(l) + |LeBytes(delta)|;
      StandsFor(r.(data := Headed(r.data, pos + Total(l.records), n, level + 8 * |LeBytes(delta)|),
                   head := Short(r.head + n), tsHead := l1.tsHead), pos, l1)
  {
    hide Valid, Reads, LeBytes, Headed, Stamp, TapsOk, Parses, Entry, Total, Short;
    var m := l.draft.value;
    var n := DraftSize(l) + |LeBytes(delta)|;
    RingSize(r, pos, l);
    CommitBytes(r.data, pos, l, level, delta);
    EntryReads(level, m, delta);
    EntrySize(level, m, delta);
    CommitHolds(Headed(r.data, pos + Total(l.records), n, level + 8 * |LeBytes(delta)|), pos, l,
                Entry(level, m, delta), Stamp(level, m, delta), l1);
    ShortPlus(pos + Total(l.records), n);
    TapsMore(r.taps, pos, l, l1, Stamp(level, m, delta));
  }

  lemma EntrySize(level: octet, message: text, delta: nat)
    requires level < 8 && |LeBytes(delta)| <= 8 && |message| <= 192
    ensures |Entry(level, message, delta)| == 2 + |message| + |LeBytes(delta)|
  {
    hide LeBytes;
  }

  // ---------------------------------------------------------------------
  // Copying out
  // ---------------------------------------------------------------------

  lemma SlotRuns(size: nat, pos: nat, i: nat)
    requires size > 0 && i < size
    ensures Slot(size, pos + i) == if Slot(size, pos) + i < size then Slot(size, pos) + i else Slot(size, pos) + i - size
  {
    var q, r := pos / size, pos % size;
    assert pos == q * size + r;
    if r + i < size {
      DivUnique(pos + i, size, q, r + i);
    } else {
      assert (q + 1) * size == q * size + size;
      DivUnique(pos + i, size, q + 1, r + i - size);
    }
  }

  /** A stretch of the ring in at most two pieces. */
  function Pieces(data: text, a: nat, n: nat): (r: text)
    requires a < |data| && n <= |data|
    ensures |r| == n
  {
    if a + n <= |data| then data[a..a + n] else data[a..] + data[..a + n - |data|]
  }

  lemma TwoPieces(data: text, pos: nat, n: nat)
    requires n < |data|
    ensures Window(data, pos, n) == Pieces(data, Slot(|data|, pos), n)
  {
    hide Slot;
    var a := Slot(|data|, pos);
    var w, c := Window(data, pos, n), Pieces(data, a, n);
    forall i | 0 <= i < n
      ensures w[i] == c[i]
    {
      SlotRuns(|data|, pos, i);
    }
  }

  // ---------------------------------------------------------------------
  // Reading through wrapped pointers
  // ---------------------------------------------------------------------

  lemma SlotFrom(size: nat, p: nat, i: nat)
    requires SizeOk(size)
    ensures Slot(size, Short(p) + i) == Slot(size, p + i)
  {
    hide SizeOk, Slot, Short;
    SlotShort(size, Short(p) + i);
    SlotShort(size, p + i);
    ShortPlus(p, i);
  }

  /** Header of the record a pointer is at. */
  lemma Header(r: Ring, pos: nat, l: Log, k: nat, ptr: nat)
    requires StandsFor(r, pos, l) && k < |l.records| && ptr == Short(pos + Total(l.records[..k]))
    ensures SizeOk(|r.data|)
    ensures r.data[Slot(|r.data|, ptr)] == Size(l.records[k]) <= l.size
    ensures r.data[Slot(|r.data|, ptr + 1)] % 8 == l.records[k].level
    ensures r.data[Slot(|r.data|, ptr + 1)] / 8 % 8 == |LeBytes(l.records[k].delta)|
  {
    hide Valid, Parses, TapsOk, Slot, Short, Total, SizeOk, LeBytes, Drafted;
    RingSize(r, pos, l);
    RecordBytes(r, pos, l, k);
    SlotFrom(|r.data|, pos + Total(l.records[..k]), 0);
    SlotFrom(|r.data|, pos + Total(l.records[..k]), 1);
    var b := Window(r.data, pos + Total(l.records[..k]), Size(l.records[k]));
    assert b[0] == r.data[Slot(|r.data|, ptr)] && b[1] == r.data[Slot(|r.data|, ptr + 1)];
  }

  /** The bytes of a delta, low byte first. */
  lemma DeltaByte(r: Ring, pos: nat, l: Log, k: nat, ptr: nat, i: nat)
    requires StandsFor(r, pos, l) && k < |l.records| && ptr == Short(pos + Total(l.records[..k]))
    requires i < |LeBytes(l.records[k].delta)|
    ensures |r.data| > 0
    ensures var d := LeBytes(l.records[k].delta);
      r.data[Slot(|r.data|, Short(ptr + Size(l.records[k]) - |d|) + i)] == d[i]
  {
    hide Valid, Parses, TapsOk, Slot, Short, Total, SizeOk, LeBytes, Drafted;
    RingSize(r, pos, l);
    RecordBytes(r, pos, l, k);
    var p, d := pos + Total(l.records[..k]), LeBytes(l.records[k].delta);
    var n := Size(l.records[k]) - |d|;
    ShortPlus(p, n);
    SlotFrom(|r.data|, p + n, i);
    var b := Window(r.data, p, Size(l.records[k]));
    assert b[n..][i] == b[n + i];
  }

  lemma MessageWindow(data: text, p: nat, rec: Record)
    requires |data| > 0 && Reads(Window(data, p, Size(rec)), rec)
    ensures Window(data, p + 2, |rec.message|) == rec.message
  {
    hide Slot, LeBytes;
    var b := Window(data, p, Size(rec));
    WindowJoin(data, p, 2, |rec.message|);
    WindowJoin(data, p, 2 + |rec.message|, |LeBytes(rec.delta)|);
    assert b[2..2 + |rec.message|] == Window(data, p + 2, |rec.message|);
  }

  /** The message of a record, in at most two pieces. */
  lemma MessagePieces(r: Ring, pos: nat, l: Log, k: nat, ptr: nat)
    requires StandsFor(r, pos, l) && k < |l.records| && ptr == Short(pos + Total(l.records[..k]))
    ensures |l.records[k].message| < |r.data|
    ensures l.records[k].message == Pieces(r.data, Slot(|r.data|, ptr + 2), |l.records[k].message|)
  {
    hide Slot, Short, Total, SizeOk, LeBytes, Reads, StandsFor, Pieces;
    RingSize(r, pos, l);
    RecordBytes(r, pos, l, k);
    var p, m := pos + Total(l.records[..k]), l.records[k].message;
    SlotFrom(|r.data|, p, 2);
    MessageWindow(r.data, p, l.records[k]);
    TwoPieces(r.data, p + 2, |m|);
  }

  // ---------------------------------------------------------------------
  // The code
  // ---------------------------------------------------------------------

  class Fifo {
    const data: array<octet>
    var head: nat
    var tail: nat
    var tsTail: int
    var tsHead: int
    var seqTail: nat
    var taps: seq<Tap>

    /** The list of records this stands for, and the tail's unwrapped position. */
    ghost var log: Log
    ghost var pos: nat

    ghost function Value(): Ring
      reads this, data
    {
      Ring(data[..], head, tail, tsTail, tsHead, seqTail, taps)
    }

    ghost predicate Ok()
      reads this, data
    {
      StandsFor(Value(), pos, log)
    }

    constructor (size: nat)
      requires SizeOk(size)
      ensures Ok() && log == Log(size, [], 0, 0, 0, None, []) && fresh(data)
    {
      data := new octet[size](_ => 0);
      head, tail, tsTail, tsHead, seqTail, taps := 0, 0, 0, 0, 0, [];
      log := Log(size, [], 0, 0, 0, None, []);
      pos := 0;
      new;
      assert data[..] == Value().data;
      EmptyStandsFor(Value(), size);
    }

    /** `evfifo_read_delta_ts`. */
    method ReadDelta(ptr: nat, ghost k: nat) returns (r: nat)
      requires Ok() && k < |log.records| && ptr == Short(pos + Total(log.records[..k]))
      ensures r == log.records[k].delta
    {
      hide StandsFor, Slot, Short, LeBytes, Total, SizeOk;
      Header(Value(), pos, log, k, ptr);
      ghost var d := LeBytes(log.records[k].delta);
      var size := data.Length;
      var len := data[Slot(size, ptr)];
      var tlen := data[Slot(size, ptr + 1)] / 8 % 8;
      var from := Short(ptr + len - tlen);
      r := 0;
      var i := tlen;
      while i > 0
        invariant 0 <= i <= tlen
        invariant r == FromLe(d[i..])
      {
        i := i - 1;
        DeltaByte(Value(), pos, log, k, ptr, i);
        assert d[i..] == [d[i]] + d[i + 1..] && d[i..][1..] == d[i + 1..];
        r := r * 256 + data[Slot(size, from + i)];
      }
      assert d[0..] == d;
      LeRoundTrip(log.records[k].delta);
    }

    /** The followers at the tail lose its record. */
    method PushFollowers(len: nat)
      modifies this`taps
      ensures taps == PushTaps(old(taps), tail, len)
    {
      hide Short;
      var i := 0;
      while i < |taps|
        invariant i <= |taps| == |old(taps)|
        invariant forall k :: 0 <= k < i ==> taps[k] == PushTap(old(taps)[k], tail, len)
        invariant forall k :: i <= k < |taps| ==> taps[k] == old(taps)[k]
      {
        if taps[i].ptr == tail {
          taps := taps[i := Tap(Short(taps[i].ptr + len), (taps[i].drops + 1) % 65536)];
        }
        i := i + 1;
      }
    }

    /** `evl_erase_tail`, where there is a record. */
    method EraseTail()
      requires Ok() && log.records != []
      modifies this
      ensures Ok() && log == Evict(old(log))
    {
      hide StandsFor, Slot, Short, Total, SizeOk, Evict, PushTaps;
      FirstAtTail(Value(), pos, log);
      Header(Value(), pos, log, 0, tail);
      EraseStandsFor(Value(), pos, log);
      var delta := ReadDelta(tail, 0);
      tsTail := tsTail + delta;
      seqTail := (seqTail + 1) % 0x1_0000_0000;
      var len := data[Slot(data.Length, tail)];
      PushFollowers(len);
      tail := Short(tail + len);
      log := Evict(log);
      pos := pos + len;
    }

    /** `evl_ensure`. */
    method Ensure(n: nat)
      requires Ok() && n <= data.Length
      modifies this
      ensures Ok() && log == MakeRoom(old(log), n)
    {
      hide StandsFor, Total, SizeOk, Evict, Short, MaxEntry;
      RingSize(Value(), pos, log);
      while data.Length - Short(head - tail) < n
        invariant Ok() && log.size == data.Length
        invariant Short(head - tail) == Total(log.records)
        invariant MakeRoom(log, n) == MakeRoom(old(log), n)
        decreases |log.records|
      {
        RingSize(Value(), pos, log);
        NoRecords();
        EvictedShorter(log);
        EraseTail();
        RingSize(Value(), pos, log);
      }
    }

    /** `evlog_stream_begin`, and the start of `evlog`. */
    method BeginEntry(now: int)
      requires Ok() && log.draft.None?
      modifies this, data
      ensures Ok() && log == Begin(old(log), now)
    {
      hide StandsFor, Total, SizeOk, Short, MakeRoom, Slot, Valid, MaxEntry;
      RingSize(Value(), pos, log);
      RingValid(Value(), pos, log);
      BeginValid(log, now);
      RoomMade(log, 2);
      Ensure(2);
      ghost var r := Value();
      RingSize(r, pos, log);
      if head == tail {
        tsTail := now;
        tsHead := now;
      }
      HeadSlot(r, pos, log, 0);
      RingClock(r, pos, log);
      ghost var l := log;
      data[Slot(data.Length, head)] := 2;
      log := Begin(old(log), now);
      BeginStandsFor(r, pos, l, log, data[..]);
    }

    /** The copy loop of `evl_fmt_cb`. */
    method CopyIn(s: text)
      requires Ok() && log.draft.Some? && Total(log.records) + DraftSize(log) + |s| <= log.size
      modifies data
      ensures Ok()
      ensures Window(data[..], pos + Total(log.records) + 2, |log.draft.value| + |s|) == log.draft.value + s
    {
      hide StandsFor, Total, SizeOk, Short, Slot, Valid, MaxEntry, Holds;
      RingSize(Value(), pos, log);
      var cur := DraftAt();
      var i := 0;
      assert s[..0] == [] && log.draft.value + [] == log.draft.value;
      while i < |s|
        invariant i <= |s| && Ok()
        invariant Window(data[..], pos + Total(log.records) + 2, |log.draft.value| + i) == log.draft.value + s[..i]
      {
        ghost var r := Value();
        RingSize(r, pos, log);
        HeadSlot(r, pos, log, cur + i);
        RingHolds(r, pos, log);
        TextGrows(r.data, pos, log, i, s[..i], s[i]);
        assert s[..i] + [s[i]] == s[..i + 1];
        data[Slot(data.Length, head + cur + i)] := s[i];
        assert data[..] == r.data[Slot(|r.data|, head + cur + i) := s[i]];
        Rebytes(r, pos, log, data[..]);
        i := i + 1;
      }
      assert s[..|s|] == s;
    }

    /** The length byte of the record being written. */
    method DraftAt() returns (cur: nat)
      requires Ok() && log.draft.Some?
      ensures cur == DraftSize(log)
      ensures Window(data[..], pos + Total(log.records) + 2, |log.draft.value|) == log.draft.value
    {
      hide StandsFor, Total, Slot;
      DraftByte(Value(), pos, log);
      cur := data[Slot(data.Length, head)];
    }

    /** `evl_fmt_cb`: appends what fits to the record being written. */
    method WriteText(s: text) returns (n: nat)
      requires Ok() && log.draft.Some? && DraftSize(log) <= MaxEntry(log.size)
      modifies this, data
      ensures Ok() && log == Write(old(log), s)
      ensures n == if |s| < Room(old(log)) then |s| else Room(old(log))
    {
      hide StandsFor, Total, SizeOk, Short, MakeRoom, Slot, Valid, MaxEntry, Holds;
      RingSize(Value(), pos, log);
      RingValid(Value(), pos, log);
      WriteValid(log, s);
      var size := data.Length;
      var cur := DraftAt();
      n := if |s| < MaxEntry(size) - cur then |s| else MaxEntry(size) - cur;
      RoomMade(log, cur + n);
      Ensure(cur + n);
      CopyIn(s[..n]);
      ghost var r := Value();
      HeadSlot(r, pos, log, 0);
      TextTold(r, pos, log, s[..n], cur + n);
      data[Slot(size, head)] := cur + n;
      assert data[..] == r.data[Slot(|r.data|, head) := cur + n];
      log := Write(old(log), s);
    }

    /** The loop of `evlog_msg_done` that writes the delta. */
    method CopyDelta(delta: nat)
      requires Ok() && log.draft.Some? && Total(log.records) + DraftSize(log) + |LeBytes(delta)| <= log.size
      modifies data
      ensures Ok()
      ensures Window(data[..], pos + Total(log.records) + DraftSize(log), |LeBytes(delta)|) == LeBytes(delta)
    {
      hide StandsFor, Total, SizeOk, Short, Slot, Valid, MaxEntry, Holds, Window, LeBytes;
      var cur := DraftAt();
      var rest := delta;
      var i := 0;
      ghost var d := LeBytes(delta);
      RingSize(Value(), pos, log);
      NoWindow(data[..], pos + Total(log.records) + cur);
      while rest != 0
        invariant i <= |d| && d[i..] == LeBytes(rest) && Ok()
        invariant Window(data[..], pos + Total(log.records) + cur, i) == d[..i]
        decreases rest
      {
        ghost var r := Value();
        RingSize(r, pos, log);
        HeadSlot(r, pos, log, cur + i);
        RingHolds(r, pos, log);
        var b := rest % 256;
        LeHead(rest);
        assert d[i..][0] == b && d[i..][1..] == LeBytes(rest / 256);
        assert d[i] == b && d[i + 1..] == d[i..][1..];
        DeltaGrows(r.data, pos, log, i, d[..i], b);
        assert d[..i] + [b] == d[..i + 1];
        data[Slot(data.Length, head + cur + i)] := b;
        assert data[..] == r.data[Slot(|r.data|, head + cur + i) := b];
        Rebytes(r, pos, log, data[..]);
        rest := rest / 256;
        i := i + 1;
      }
      assert i == |d| && d[..i] == d;
    }

    /** `evlog_msg_done`. The delta is at most eight bytes long. */
    method DoneEntry(level: octet, now: int)
      requires Ok() && log.draft.Some? && level < 8 && ClockOk(Since(log, now))
      modifies this, data
      ensures Ok() && log == Done(old(log), level, now)
    {
      hide StandsFor, Total, SizeOk, Short, MakeRoom, Slot, Valid, MaxEntry, Holds, LeBytes, Stamp, Window;
      RingSize(Value(), pos, log);
      RingValid(Value(), pos, log);
      RingClock(Value(), pos, log);
      DoneValid(log, level, now);
      var delta := if now < tsHead then 0 else now - tsHead;
      var msgLen := DraftAt();
      var tsLen := CountBytes(delta);
      RoomMade(log, msgLen + tsLen);
      Ensure(msgLen + tsLen);
      CopyDelta(delta);
      PutHeader(level, msgLen, tsLen, delta, now);
    }

    /** The header bytes and the head, once message and delta are in place. */
    method PutHeader(level: octet, msgLen: nat, tsLen: nat, ghost delta: nat, now: int)
      requires Ok() && log.draft.Some? && level < 8 && msgLen == DraftSize(log) && tsLen == |LeBytes(delta)| <= 8
      requires Total(log.records) + msgLen + tsLen <= log.size && msgLen <= 192
      requires data.Length > 0 && Window(data[..], pos + Total(log.records) + msgLen, tsLen) == LeBytes(delta)
      requires Valid(log.(records := log.records + [Stamp(level, log.draft.value, delta)], tsHead := now, draft := None))
      modifies this, data
      ensures Ok()
      ensures log == old(log).(records := old(log).records + [Stamp(level, old(log).draft.value, delta)], tsHead := now, draft := None)
    {
      hide StandsFor, Total, SizeOk, Short, Slot, Valid, MaxEntry, LeBytes, Stamp, Window;
      ghost var r, l := Value(), log;
      HeadSlot(r, pos, l, 0);
      HeadSlot(r, pos, l, 1);
      log := l.(records := l.records + [Stamp(level, l.draft.value, delta)], tsHead := now, draft := None);
      CommitStandsFor(r, pos, l, level, delta, log);
      tsHead := now;
      data[Slot(data.Length, head)] := msgLen + tsLen;
      data[Slot(data.Length, head + 1)] := level + 8 * tsLen;
      assert data[..] == Headed(r.data, pos + Total(l.records), msgLen + tsLen, level + 8 * tsLen);
      head := Short(head + msgLen + tsLen);
    }

    /** How many bytes a delta needs. */
    method CountBytes(delta: nat) returns (n: nat)
      ensures n == |LeBytes(delta)|
    {
      n := 0;
      var rest := delta;
      while rest != 0
        invariant n + |LeBytes(rest)| == |LeBytes(delta)|
        decreases rest
      {
        n := n + 1;
        rest := rest / 256;
      }
    }

    /** `evfifo_follower_register`. */
    method Register()
      requires Ok()
      modifies this
      ensures Ok() && log == Attach(old(log))
    {
      AttachStandsFor(Value(), pos, log);
      taps := [Tap(tail, 0)] + taps;
      log := Attach(log);
    }

    /** `evfifo_follower_unregister`. */
    method Unregister(i: nat)
      requires Ok() && i < |taps|
      modifies this
      ensures old(i < |log.followers|) && Ok() && log == Detach(old(log), i)
    {
      DetachStandsFor(Value(), pos, log, i);
      taps := taps[..i] + taps[i + 1..];
      log := Detach(log, i);
    }

    /** The copy-out of `stream_log`: the follower's next record, if it has one. */
    method ReadRecord(i: nat) returns (out: Option<Record>)
      requires Ok() && i < |taps|
      modifies this
      ensures Ok() && i < |old(log).followers|
      ensures out.None? <==> old(log).followers[i].at == |old(log).records|
      ensures out.None? ==> log == old(log)
      ensures out.Some? ==> old(log).followers[i].at < |old(log).records|
                            && out.value == old(log).records[old(log).followers[i].at] && log == Take(old(log), i)
    {
      hide StandsFor, Total, SizeOk, Short, Slot, LeBytes, Pieces, Size, MaxEntry;
      ghost var r := Value();
      var ptr := taps[i].ptr;
      AtHead(r, pos, log, i);
      if ptr == head {
        return None;
      }
      ghost var k := log.followers[i].at;
      Header(r, pos, log, k, ptr);
      SizeParts(log.records[k]);
      MessagePieces(r, pos, log, k, ptr);
      var size := data.Length;
      var len, flags := data[Slot(size, ptr)], data[Slot(size, ptr + 1)];
      var level, tlen := flags % 8, flags / 8 % 8;
      var msgLen := len - 2 - tlen;
      var delta := ReadDelta(ptr, k);
      var message := CopyOut(Slot(size, ptr + 2), msgLen);
      TakeStandsFor(r, pos, log, i);
      taps := taps[i := taps[i].(ptr := Short(ptr + len))];
      log := Take(log, i);
      return Some(Record(level, message, delta));
    }

    /** `evlog_svc_pull`: the follower's next record as a message to its host.
        Nothing moves when no buffer can be had. */
    method PullRecord(i: nat, ts: int, now: int, alloc: bool) returns (out: Option<text>, ts1: int)
      requires Ok() && i < |taps|
      modifies this
      ensures Ok() && i < |old(log).followers|
      ensures out.Some? <==> alloc && old(log).followers[i].at < |old(log).records|
      ensures out.None? ==> log == old(log) && ts1 == ts
      ensures out.Some? ==>
        var l, f := old(log), old(log).followers[i];
        && f.at < |l.records| && l.records[f.at].level < 8
        && ts1 == (if f.at == 0 then l.tsTail else ts) + l.records[f.at].delta
        && |LeBytes(MsAgo(now, ts1))| <= 7
        && out.value == Frame(f.at == 0, l.first, MsAgo(now, ts1), l.records[f.at].level, l.records[f.at].message)
        && log == Take(l, i)
    {
      hide StandsFor, Total, SizeOk, Short, Slot, LeBytes, Pieces, Size, MaxEntry, Le4, MsAgo, Take;
      ghost var r := Value();
      var ptr := taps[i].ptr;
      AtHead(r, pos, log, i);
      RingClock(r, pos, log);
      if ptr == head || !alloc {
        return None, ts;
      }
      AtTail(r, pos, log, i);
      var resync := ptr == tail;
      var sequence := seqTail;
      Le4Wraps(log.first);
      ts1 := if resync then tsTail else ts;
      RecordLevel(r, pos, log, log.followers[i].at);
      var rec := ReadRecord(i);
      ts1 := ts1 + rec.value.delta;
      AgeFits(now, ts1);
      var age := LittleBytes(MsAgo(now, ts1));
      var hdr := rec.value.level + 8 * |age|;
      if resync {
        out := Some([hdr + 64] + Le4(sequence) + age + rec.value.message);
      } else {
        out := Some([hdr] + age + rec.value.message);
        assert [hdr] + [] + age == [hdr] + age;
      }
    }

    /** The low bytes of a number, as few as it needs. */
    method LittleBytes(n: nat) returns (b: text)
      ensures b == LeBytes(n)
    {
      hide LeBytes;
      b := [];
      var rest := n;
      while rest != 0
        invariant b + LeBytes(rest) == LeBytes(n)
        decreases rest
      {
        LeHead(rest);
        b := b + [rest % 256];
        rest := rest / 256;
      }
    }

    /** The two copies around the end of the ring. */
    method CopyOut(start: nat, n: nat) returns (copy: text)
      requires start < data.Length && n < data.Length
      ensures copy == Pieces(data[..], start, n)
    {
      var end := if start + n < data.Length then start + n else start + n - data.Length;
      if end >= start {
        copy := data[start..start + n];
      } else {
        copy := data[start..] + data[..end];
      }
    }
  }

  lemma EmptyStandsFor(r: Ring, size: nat)
    requires SizeOk(size) && |r.data| == size && r == Ring(r.data, 0, 0, 0, 0, 0, [])
    ensures StandsFor(r, 0, Log(size, [], 0, 0, 0, None, []))
  {
  }

  lemma FirstAtTail(r: Ring, pos: nat, l: Log)
    requires StandsFor(r, pos, l)
    ensures r.tail == Short(pos + Total(l.records[..0]))
  {
    assert l.records[..0] == [];
  }

  lemma EvictedShorter(l: Log)
    requires l.records != []
    ensures |Evict(l).records| < |l.records| && Evict(l).size == l.size
  {
  }

  lemma RingValid(r: Ring, pos: nat, l: Log)
    requires StandsFor(r, pos, l)
    ensures Valid(l)
  {
  }

  lemma RingClock(r: Ring, pos: nat, l: Log)
    requires StandsFor(r, pos, l)
    ensures r.tsTail == l.tsTail && r.tsHead == l.tsHead && r.seqTail == l.first % 0x1_0000_0000
  {
    hide Holds, TapsOk;
  }

  lemma DraftByte(r: Ring, pos: nat, l: Log)
    requires StandsFor(r, pos, l) && l.draft.Some?
    ensures |r.data| > 0 && r.data[Slot(|r.data|, r.head)] == DraftSize(l)
    ensures Window(r.data, pos + Total(l.records) + 2, |l.draft.value|) == l.draft.value
  {
    hide Valid, Parses, TapsOk, Slot, Short;
    HeadSlot(r, pos, l, 0);
  }

  /** The head pointer selects the slots after the records. */
  lemma HeadSlot(r: Ring, pos: nat, l: Log, i: nat)
    requires StandsFor(r, pos, l)
    ensures |r.data| > 0
    ensures Slot(|r.data|, r.head + i) == Slot(|r.data|, pos + Total(l.records) + i)
  {
    hide SizeOk, Slot, Short, Valid, Parses, Drafted, TapsOk;
    RingSize(r, pos, l);
    SlotFrom(|r.data|, pos + Total(l.records), i);
  }

  lemma LeHead(n: nat)
    requires n != 0
    ensures LeBytes(n) == [n % 256] + LeBytes(n / 256)
  {
  }

  lemma RingHolds(r: Ring, pos: nat, l: Log)
    requires StandsFor(r, pos, l)
    ensures Holds(r.data, pos, l)
  {
  }

  lemma Rebytes(r: Ring, pos: nat, l: Log, data: text)
    requires StandsFor(r, pos, l) && Holds(data, pos, l)
    ensures StandsFor(r.(data := data), pos, l)
  {
    hide Holds, Short;
  }

  lemma NoWindow(data: text, pos: nat)
    requires |data| > 0
    ensures Window(data, pos, 0) == []
  {
  }

  lemma SizeParts(r: Record)
    ensures Size(r) == 2 + |r.message| + |LeBytes(r.delta)|
  {
  }

  lemma AttachStandsFor(r: Ring, pos: nat, l: Log)
    requires StandsFor(r, pos, l)
    ensures StandsFor(r.(taps := [Tap(r.tail, 0)] + r.taps), pos, Attach(l))
  {
    hide Parses, Drafted, RecordsOk, SizeOk, MaxEntry, Short, Total;
    NoRecords();
    assert l.records[..0] == [];
    var ts, fs := [Tap(r.tail, 0)] + r.taps, [Follower(0, 0)] + l.followers;
    forall i | 0 <= i < |ts|
      ensures TapOk(ts[i], fs[i], pos, l.records)
    {
      if i > 0 {
        assert TapOk(r.taps[i - 1], l.followers[i - 1], pos, l.records);
      }
    }
  }

  lemma DetachStandsFor(r: Ring, pos: nat, l: Log, i: nat)
    requires StandsFor(r, pos, l) && i < |r.taps|
    ensures i < |l.followers| && StandsFor(r.(taps := r.taps[..i] + r.taps[i + 1..]), pos, Detach(l, i))
  {
    hide Parses, Drafted, RecordsOk, SizeOk, MaxEntry, Short, Total, TapOk;
    var ts, fs := r.taps[..i] + r.taps[i + 1..], l.followers[..i] + l.followers[i + 1..];
    forall k | 0 <= k < |ts|
      ensures TapOk(ts[k], fs[k], pos, l.records)
    {
      var k0 := if k < i then k else k + 1;
      assert TapOk(r.taps[k0], l.followers[k0], pos, l.records);
    }
  }

  /** A follower's pointer is at the head exactly when it has read everything. */
  lemma AtHead(r: Ring, pos: nat, l: Log, i: nat)
    requires StandsFor(r, pos, l) && i < |r.taps|
    ensures i < |l.followers| && l.followers[i].at <= |l.records|
    ensures r.taps[i].ptr == Short(pos + Total(l.records[..l.followers[i].at]))
    ensures r.taps[i].ptr == r.head <==> l.followers[i].at == |l.records|
  {
    hide Holds, Short, Total;
    RingSize(r, pos, l);
    var k := l.followers[i].at;
    assert TapOk(r.taps[i], l.followers[i], pos, l.records);
    TotalPrefix(l.records, k);
    ShortApart(pos + Total(l.records[..k]), pos + Total(l.records));
    if k < |l.records| {
      RecordBytes(r, pos, l, k);
      SizePositive(l.records[k]);
    } else {
      assert l.records[..k] == l.records;
    }
  }

  lemma TakeStandsFor(r: Ring, pos: nat, l: Log, i: nat)
    requires StandsFor(r, pos, l) && i < |r.taps| && i < |l.followers| && l.followers[i].at < |l.records|
    ensures var n := Size(l.records[l.followers[i].at]);
      StandsFor(r.(taps := r.taps[i := r.taps[i].(ptr := Short(r.taps[i].ptr + n))]), pos, Take(l, i))
  {
    hide Parses, Drafted, RecordsOk, SizeOk, MaxEntry, Short, Total, Size;
    var k := l.followers[i].at;
    assert TapOk(r.taps[i], l.followers[i], pos, l.records);
    TotalPrefix(l.records, k);
    ShortPlus(pos + Total(l.records[..k]), Size(l.records[k]));
  }

  /** A follower is at the tail exactly when its next record is the oldest. */
  lemma AtTail(r: Ring, pos: nat, l: Log, i: nat)
    requires StandsFor(r, pos, l) && i < |r.taps| && i < |l.followers|
    ensures r.taps[i].ptr == r.tail <==> l.followers[i].at == 0
  {
    hide Holds, Short, Total;
    RingSize(r, pos, l);
    var k := l.followers[i].at;
    assert TapOk(r.taps[i], l.followers[i], pos, l.records);
    TotalPrefix(l.records, k);
    ShortApart(pos, pos + Total(l.records[..k]));
    assert l.records[..0] == [];
    NoRecords();
  }

  lemma RecordLevel(r: Ring, pos: nat, l: Log, k: nat)
    requires StandsFor(r, pos, l) && k < |l.records|
    ensures l.records[k].level < 8
  {
    hide Parses, Drafted, FollowersOk, SizeOk, MaxEntry, Short, Total, TapsOk, Size, LeBytes;
  }

  lemma Quotient256(m: nat, q: nat)
    ensures (m + 0x1_0000_0000 * q) / 256 % 256 == m / 256 % 256 && (m + 0x1_0000_0000 * q) % 256 == m % 256
  {
    assert (m + 0x1_0000_0000 * q) / 256 == m / 256 + 16777216 * q;
  }

  lemma Quotient65536(m: nat, q: nat)
    ensures (m + 0x1_0000_0000 * q) / 65536 % 256 == m / 65536 % 256
  {
    var a := m / 65536;
    DivUnique(m + 0x1_0000_0000 * q, 65536, a + 65536 * q, m % 65536);
    var b := a / 256;
    DivUnique(a + 65536 * q, 256, b + 256 * q, a % 256);
  }

  lemma Quotient16777216(m: nat, q: nat)
    ensures (m + 0x1_0000_0000 * q) / 16777216 % 256 == m / 16777216 % 256
  {
    assert (m + 0x1_0000_0000 * q) / 16777216 == m / 16777216 + 256 * q;
  }

  lemma Le4Plus(m: nat, q: nat)
    ensures Le4(m + 0x1_0000_0000 * q) == Le4(m)
  {
    Quotient256(m, q);
    Quotient65536(m, q);
    Quotient16777216(m, q);
  }

  lemma Le4Wraps(n: nat)
    ensures Le4(n % 0x1_0000_0000) == Le4(n)
  {
    hide Le4;
    Le4Plus(n % 0x1_0000_0000, n / 0x1_0000_0000);
  }
}
