/** The kernel's event log as a list of records: a bounded list whose oldest
    records give way to new ones, with any number of followers reading it at
    their own pace. Times are differences to the record before. */
module EventLog {
  import opened Common

  // ---------------------------------------------------------------------
  // Numbers in as few little-endian bytes as they need
  // ---------------------------------------------------------------------

  function LeBytes(n: nat): (r: text)
    ensures n == 0 <==> r == []
    decreases n
  {
    if n == 0 then [] else [n % 256] + LeBytes(n / 256)
  }

  function FromLe(b: text): nat
    decreases b
  {
    if b == [] then 0 else b[0] + 256 * FromLe(b[1..])
  }

  lemma {:induction false} LeRoundTrip(n: nat)
    ensures FromLe(LeBytes(n)) == n
    decreases n
  {
    if n != 0 {
      LeRoundTrip(n / 256);
      assert LeBytes(n)[1..] == LeBytes(n / 256);
    }
  }

  function Pow256(k: nat): nat { if k == 0 then 1 else 256 * Pow256(k - 1) }

  lemma {:induction false} PowPositive(k: nat)
    ensures Pow256(k) >= 1
    decreases k
  {
    if k > 0 { PowPositive(k - 1); }
  }

  /** A number needs at most k bytes exactly when it is below 256 to the k. */
  lemma {:induction false} LeLength(n: nat, k: nat)
    ensures |LeBytes(n)| <= k <==> n < Pow256(k)
    decreases k
  {
    if n == 0 {
      PowPositive(k);
    } else if k > 0 {
      LeLength(n / 256, k - 1);
      assert n / 256 < Pow256(k - 1) <==> n < 256 * Pow256(k - 1);
    }
  }

  // ---------------------------------------------------------------------
  // Records
  // ---------------------------------------------------------------------

  /** `delta` is the time since the record before. */
  datatype Record = Record(level: octet, message: text, delta: nat)

  /** The length byte, the flags byte, the message and the delta. */
  function Size(r: Record): nat { 2 + |r.message| + |LeBytes(r.delta)| }

  function Total(rs: seq<Record>): nat
    decreases rs
  {
    if rs == [] then 0 else Size(rs[0]) + Total(rs[1..])
  }

  function Elapsed(rs: seq<Record>): nat
    decreases rs
  {
    if rs == [] then 0 else rs[0].delta + Elapsed(rs[1..])
  }

  lemma {:induction false} TotalSnoc(rs: seq<Record>, r: Record)
    ensures Total(rs + [r]) == Total(rs) + Size(r)
    decreases rs
  {
    hide Size;
    if rs == [] {
      assert rs + [r] == [r] && [r][1..] == [];
    } else {
      assert (rs + [r])[1..] == rs[1..] + [r];
      TotalSnoc(rs[1..], r);
    }
  }

  lemma {:induction false} ElapsedSnoc(rs: seq<Record>, r: Record)
    ensures Elapsed(rs + [r]) == Elapsed(rs) + r.delta
    decreases rs
  {
    if rs == [] {
      assert rs + [r] == [r] && [r][1..] == [];
    } else {
      assert (rs + [r])[1..] == rs[1..] + [r];
      ElapsedSnoc(rs[1..], r);
    }
  }

  /** The record a commit leaves behind. A delta of eight bytes overflows its
      length field, so its bytes read back as part of the message. */
  function Stamp(level: octet, message: text, delta: nat): (r: Record)
    requires level < 8
    ensures Size(r) == 2 + |message| + |LeBytes(delta)|
    ensures |LeBytes(r.delta)| <= 7 || |LeBytes(delta)| > 8
  {
    if |LeBytes(delta)| == 8 then Record(level, message + LeBytes(delta), 0)
    else Record(level, message, delta)
  }

  // ---------------------------------------------------------------------
  // The log
  // ---------------------------------------------------------------------

  /** `at` live records lie before the one it reads next. */
  datatype Follower = Follower(at: nat, drops: nat)

  /** `first` counts the records that have given way. */
  datatype Log = Log(size: nat, records: seq<Record>, first: nat, tsTail: int, tsHead: int,
                     draft: Option<text>, followers: seq<Follower>)

  predicate SizeOk(size: nat) { 16 <= size <= 32768 && 65536 % size == 0 }

  /** The longest record before its delta is added. */
  function MaxEntry(size: nat): nat { if size / 4 < 192 then size / 4 else 192 }

  function DraftSize(l: Log): nat { if l.draft.Some? then 2 + |l.draft.value| else 0 }

  predicate FollowersOk(l: Log) {
    forall i :: 0 <= i < |l.followers| ==> l.followers[i].at <= |l.records|
  }

  predicate RecordsOk(rs: seq<Record>) {
    forall i :: 0 <= i < |rs| ==> rs[i].level < 8 && Size(rs[i]) < 256 && |LeBytes(rs[i].delta)| <= 7
  }

  predicate Valid(l: Log) {
    && SizeOk(l.size)
    && Total(l.records) + DraftSize(l) <= l.size
    && DraftSize(l) <= MaxEntry(l.size)
    && FollowersOk(l)
    && RecordsOk(l.records)
  }

  function Pushed(f: Follower): Follower {
    if f.at == 0 then f.(drops := f.drops + 1) else f.(at := f.at - 1)
  }

  function AllPushed(fs: seq<Follower>): (r: seq<Follower>)
    ensures |r| == |fs| && forall i :: 0 <= i < |fs| ==> r[i] == Pushed(fs[i])
  {
    seq(|fs|, i requires 0 <= i < |fs| => Pushed(fs[i]))
  }

  /** The oldest record gives way. */
  function Evict(l: Log): Log
    requires l.records != []
  {
    l.(records := l.records[1..], first := l.first + 1, tsTail := l.tsTail + l.records[0].delta,
       followers := AllPushed(l.followers))
  }

  /** Records give way until `n` bytes are free. */
  function MakeRoom(l: Log, n: nat): Log
    decreases |l.records|
  {
    if l.size - Total(l.records) >= n || l.records == [] then l else MakeRoom(Evict(l), n)
  }

  /** A record is begun; an empty log restarts its times. */
  function Begin(l: Log, now: int): Log {
    var l1 := MakeRoom(l, 2);
    var l2 := if l1.records == [] then l1.(tsTail := now, tsHead := now) else l1;
    l2.(draft := Some([]))
  }

  function Room(l: Log): nat
    requires DraftSize(l) <= MaxEntry(l.size)
  {
    MaxEntry(l.size) - DraftSize(l)
  }

  /** Text is added to the record, as much as an entry may hold. */
  function Write(l: Log, s: text): Log
    requires l.draft.Some? && DraftSize(l) <= MaxEntry(l.size)
  {
    var take := if |s| < Room(l) then |s| else Room(l);
    var l1 := MakeRoom(l, DraftSize(l) + take);
    l1.(draft := Some(l.draft.value + s[..take]))
  }

  function Since(l: Log, now: int): nat { if now < l.tsHead then 0 else now - l.tsHead }

  /** The record is committed. */
  function Done(l: Log, level: octet, now: int): Log
    requires l.draft.Some? && level < 8
  {
    var delta := Since(l, now);
    var l1 := MakeRoom(l, DraftSize(l) + |LeBytes(delta)|);
    l1.(records := l1.records + [Stamp(level, l.draft.value, delta)], tsHead := now, draft := None)
  }

  function Attach(l: Log): Log { l.(followers := [Follower(0, 0)] + l.followers) }

  function Detach(l: Log, i: nat): Log
    requires i < |l.followers|
  {
    l.(followers := l.followers[..i] + l.followers[i + 1..])
  }

  /** A follower takes the record it is at. */
  function Take(l: Log, i: nat): Log
    requires i < |l.followers|
  {
    l.(followers := l.followers[i := l.followers[i].(at := l.followers[i].at + 1)])
  }

  // ---------------------------------------------------------------------
  // Room
  // ---------------------------------------------------------------------

  lemma EvictValid(l: Log)
    requires Valid(l) && l.records != []
    ensures Valid(Evict(l)) && Total(Evict(l).records) < Total(l.records)
  {
    hide Size, LeBytes, MaxEntry;
    SizePositive(l.records[0]);
  }

  lemma SizePositive(r: Record)
    ensures Size(r) >= 2
  {
  }

  /** Room can always be made for what fits the log at all, and the draft and
      everything but records and followers stay as they were. */
  lemma {:induction false} RoomMade(l: Log, n: nat)
    requires Valid(l) && n <= l.size
    ensures var l1 := MakeRoom(l, n);
      && Valid(l1) && l1.size - Total(l1.records) >= n
      && l1.size == l.size && l1.draft == l.draft && l1.tsHead == l.tsHead
      && |l1.followers| == |l.followers|
    decreases |l.records|
  {
    hide Valid, LeBytes;
    ValidTotal(l);
    if l.size - Total(l.records) < n && l.records != [] {
      EvictValid(l);
      RoomMade(Evict(l), n);
    }
  }

  lemma ValidTotal(l: Log)
    requires Valid(l)
    ensures Total(l.records) + DraftSize(l) <= l.size && DraftSize(l) <= MaxEntry(l.size)
  {
    hide RecordsOk, FollowersOk, Total;
  }

  /** An entry with its delta always fits the log. */
  lemma EntryFits(size: nat)
    requires SizeOk(size)
    ensures 4 <= MaxEntry(size) <= 192 && MaxEntry(size) + 8 <= size
  {
  }

  lemma SameRecordsOk(l: Log, l1: Log)
    requires FollowersOk(l) && l1.followers == l.followers && l1.records == l.records
    ensures FollowersOk(l1)
  {
  }

  lemma BeginValid(l: Log, now: int)
    requires Valid(l) && l.draft.None?
    ensures Valid(Begin(l, now))
  {
    hide RecordsOk, FollowersOk, Total, MakeRoom, SizeOk, MaxEntry;
    EntryFits(l.size);
    RoomMade(l, 2);
    SameRecordsOk(MakeRoom(l, 2), Begin(l, now));
  }

  lemma WriteValid(l: Log, s: text)
    requires Valid(l) && l.draft.Some?
    ensures Valid(Write(l, s))
  {
    hide RecordsOk, FollowersOk, Total, MakeRoom, SizeOk, MaxEntry;
    EntryFits(l.size);
    var take := if |s| < Room(l) then |s| else Room(l);
    RoomMade(l, DraftSize(l) + take);
    SameRecordsOk(MakeRoom(l, DraftSize(l) + take), Write(l, s));
  }

  /** Deltas come from 64-bit clocks. */
  predicate ClockOk(delta: nat) { |LeBytes(delta)| <= 8 }

  lemma CommitValid(l1: Log, message: text, delta: nat, level: octet, now: int)
    requires Valid(l1) && l1.draft == Some(message) && level < 8 && ClockOk(delta)
    requires l1.size - Total(l1.records) >= 2 + |message| + |LeBytes(delta)|
    ensures Valid(l1.(records := l1.records + [Stamp(level, message, delta)], tsHead := now, draft := None))
  {
    hide Total, LeBytes, Size, Stamp;
    var r := Stamp(level, message, delta);
    StampOk(level, message, delta);
    TotalSnoc(l1.records, r);
  }

  lemma StampOk(level: octet, message: text, delta: nat)
    requires level < 8 && ClockOk(delta) && |message| <= 192
    ensures var r := Stamp(level, message, delta); r.level < 8 && Size(r) < 256 && |LeBytes(r.delta)| <= 7
  {
  }

  lemma DoneValid(l: Log, level: octet, now: int)
    requires Valid(l) && l.draft.Some? && level < 8 && ClockOk(Since(l, now))
    ensures Valid(Done(l, level, now))
  {
    hide RecordsOk, FollowersOk, Total, MakeRoom, LeBytes, Stamp, SizeOk, MaxEntry;
    EntryFits(l.size);
    var delta := Since(l, now);
    RoomMade(l, DraftSize(l) + |LeBytes(delta)|);
    CommitValid(MakeRoom(l, DraftSize(l) + |LeBytes(delta)|), l.draft.value, delta, level, now);
  }
}
