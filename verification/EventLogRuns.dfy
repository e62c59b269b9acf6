/** The event log under every sequence of writes, commits, joins, reads and
    pulls: what its followers get, and what they miss. The journal beside the
    log records history; no decision reads it. */
module EventLogRuns {
  import opened Common
  import opened EventLog
  import opened EventLogWire

  /** A commit as its writer made it. */
  datatype Commit = Commit(level: octet, message: text, delta: nat, time: int)

  /** A follower's history: the commit it started at, the commits it took, and
      for the log service the times it computed and what its host decoded. */
  datatype Reader = Reader(service: bool, since: nat, taken: seq<nat>, ts: int,
                           times: seq<int>, sequence: nat, heard: seq<Delivery>)

  datatype Journal = Journal(log: Log, commits: seq<Commit>, readers: seq<Reader>)

  function Empty(size: nat): Journal {
    Journal(Log(size, [], 0, 0, 0, None, []), [], [])
  }

  datatype Action =
    | Start(now: int) | Text(s: text) | Finish(level: octet, now: int)
    | Join(service: bool) | Leave(i: nat) | ReadNext(i: nat) | PullNext(i: nat, now: int)

  // ---------------------------------------------------------------------
  // Steps
  // ---------------------------------------------------------------------

  /** The follower has a record to take. */
  predicate Ready(j: Journal, i: nat) {
    i < |j.log.followers| && i < |j.readers| && j.log.followers[i].at < |j.log.records|
  }

  function Current(j: Journal, i: nat): Record
    requires Ready(j, i)
  {
    j.log.records[j.log.followers[i].at]
  }

  /** The copy-out of the log viewer. */
  function ReadStep(j: Journal, i: nat): Journal
    requires Ready(j, i)
  {
    var r := j.readers[i];
    j.(log := Take(j.log, i),
       readers := j.readers[i := r.(taken := r.taken + [j.log.first + j.log.followers[i].at])])
  }

  /** The time the service gives the record. */
  function PullTime(j: Journal, i: nat): int
    requires Ready(j, i)
  {
    (if j.log.followers[i].at == 0 then j.log.tsTail else j.readers[i].ts) + Current(j, i).delta
  }

  function PullFrame(j: Journal, i: nat, now: int): text
    requires Ready(j, i) && Current(j, i).level < 8
  {
    AgeFits(now, PullTime(j, i));
    Frame(j.log.followers[i].at == 0, j.log.first, MsAgo(now, PullTime(j, i)), Current(j, i).level, Current(j, i).message)
  }

  /** One message of the log service, decoded by its host. */
  function PullStep(j: Journal, i: nat, now: int): Journal
    requires Ready(j, i) && Current(j, i).level < 8
  {
    var r := j.readers[i];
    var ts := PullTime(j, i);
    var (sequence, out) := HostRx(r.sequence, PullFrame(j, i, now));
    j.(log := Take(j.log, i),
       readers := j.readers[i := r.(taken := r.taken + [j.log.first + j.log.followers[i].at], ts := ts,
                                    times := r.times + [ts], sequence := sequence,
                                    heard := if out.Some? then r.heard + [out.value] else r.heard)])
  }

  /** A step whose guard is false leaves the journal as it is. */
  function Step(j: Journal, a: Action): Journal {
    match a
    case Start(now) => if j.log.draft.None? then j.(log := Begin(j.log, now)) else j
    case Text(s) => if j.log.draft.Some? && DraftSize(j.log) <= MaxEntry(j.log.size) then j.(log := Write(j.log, s)) else j
    case Finish(level, now) =>
      if j.log.draft.Some? && level < 8 && ClockOk(Since(j.log, now)) then
        j.(log := Done(j.log, level, now),
           commits := j.commits + [Commit(level, j.log.draft.value, Since(j.log, now), now)])
      else j
    case Join(service) =>
      j.(log := Attach(j.log), readers := [Reader(service, j.log.first, [], 0, [], 0, [])] + j.readers)
    case Leave(i) =>
      if i < |j.log.followers| && i < |j.readers| then
        j.(log := Detach(j.log, i), readers := j.readers[..i] + j.readers[i + 1..])
      else j
    case ReadNext(i) => if Ready(j, i) && !j.readers[i].service then ReadStep(j, i) else j
    case PullNext(i, now) =>
      if Ready(j, i) && j.readers[i].service && Current(j, i).level < 8 then PullStep(j, i, now) else j
  }

  function Run(j: Journal, actions: seq<Action>): Journal
    decreases actions
  {
    if actions == [] then j else Step(Run(j, actions[..|actions| - 1]), actions[|actions| - 1])
  }

  // ---------------------------------------------------------------------
  // Invariant
  // ---------------------------------------------------------------------

  /** The live records are the last commits, as they were stored. */
  predicate Stored(l: Log, commits: seq<Commit>) {
    && |commits| == l.first + |l.records|
    && forall i :: 0 <= i < |l.records| ==> StoredAs(l.records[i], commits[l.first + i])
  }

  predicate StoredAs(r: Record, c: Commit) { c.level < 8 && r == Stamp(c.level, c.message, c.delta) }

  predicate Increasing(s: seq<nat>) { forall a, b :: 0 <= a < b < |s| ==> s[a] < s[b] }

  /** Taken, dropped and passed over add up; and the record before the next one,
      if it is live, is the last one taken. */
  predicate Accounted(f: Follower, r: Reader, first: nat) {
    && r.since + |r.taken| + f.drops == first + f.at
    && Increasing(r.taken)
    && (forall k :: 0 <= k < |r.taken| ==> r.since <= r.taken[k] < first + f.at)
    && (f.at > 0 ==> r.taken != [] && r.taken[|r.taken| - 1] == first + f.at - 1)
  }

  /** What the host heard is what was taken, numbered from one. */
  predicate Heard(f: Follower, r: Reader, first: nat, commits: seq<Commit>) {
    && |r.heard| == |r.taken| == |r.times|
    && (f.at > 0 ==> r.sequence == (first + f.at) % SEQUENCES)
    && forall k :: 0 <= k < |r.taken| ==> r.taken[k] < |commits| && HeardAs(r.heard[k], r.taken[k], commits[r.taken[k]])
  }

  predicate HeardAs(d: Delivery, index: nat, c: Commit) {
    c.level < 8 && d.level == c.level && d.sequence == (index + 1) % SEQUENCES && d.message == Stamp(c.level, c.message, c.delta).message
  }

  predicate ReaderOk(f: Follower, r: Reader, first: nat, commits: seq<Commit>) {
    Accounted(f, r, first) && (r.service ==> Heard(f, r, first, commits))
  }

  predicate ReadersOk(l: Log, commits: seq<Commit>, readers: seq<Reader>) {
    && |readers| == |l.followers|
    && forall i :: 0 <= i < |readers| ==> ReaderOk(l.followers[i], readers[i], l.first, commits)
  }

  predicate Inv(j: Journal) {
    Valid(j.log) && Stored(j.log, j.commits) && ReadersOk(j.log, j.commits, j.readers)
  }

  lemma EmptyInv(size: nat)
    requires SizeOk(size)
    ensures Inv(Empty(size))
  {
    hide SizeOk, MaxEntry;
  }

  // ---------------------------------------------------------------------
  // Making room
  // ---------------------------------------------------------------------

  lemma PushedOk(f: Follower, r: Reader, first: nat, commits: seq<Commit>)
    requires ReaderOk(f, r, first, commits)
    ensures ReaderOk(Pushed(f), r, first + 1, commits)
  {
    hide Increasing, HeardAs;
  }

  lemma EvictKeeps(j: Journal)
    requires Inv(j) && j.log.records != []
    ensures Inv(j.(log := Evict(j.log)))
  {
    hide Valid, ReaderOk, StoredAs, Pushed;
    EvictValid(j.log);
    var l := j.log;
    forall i | 0 <= i < |j.readers|
      ensures ReaderOk(Evict(l).followers[i], j.readers[i], l.first + 1, j.commits)
    {
      PushedOk(l.followers[i], j.readers[i], l.first, j.commits);
    }
  }

  lemma {:induction false} MakeRoomKeeps(j: Journal, n: nat)
    requires Inv(j) && n <= j.log.size
    ensures Inv(j.(log := MakeRoom(j.log, n)))
    decreases |j.log.records|
  {
    hide Inv, Total, Evict;
    if j.log.size - Total(j.log.records) < n && j.log.records != [] {
      EvictKeeps(j);
      EvictShorter(j.log);
      MakeRoomKeeps(j.(log := Evict(j.log)), n);
    }
  }

  lemma EvictShorter(l: Log)
    requires l.records != []
    ensures |Evict(l).records| == |l.records| - 1 && Evict(l).size == l.size
  {
  }

  // ---------------------------------------------------------------------
  // Every step keeps it
  // ---------------------------------------------------------------------

  lemma SameShape(j: Journal, l: Log)
    requires Inv(j) && Valid(l)
    requires l.records == j.log.records && l.first == j.log.first && l.followers == j.log.followers
    ensures Inv(j.(log := l))
  {
    hide Valid, ReaderOk, StoredAs;
  }

  lemma StartKeeps(j: Journal, now: int)
    requires Inv(j) && j.log.draft.None?
    ensures Inv(j.(log := Begin(j.log, now)))
  {
    hide Valid, MakeRoom, Stored, ReadersOk;
    ValidSize(j.log);
    BeginValid(j.log, now);
    MakeRoomKeeps(j, 2);
    SameShape(j.(log := MakeRoom(j.log, 2)), Begin(j.log, now));
  }

  lemma ValidSize(l: Log)
    requires Valid(l)
    ensures 16 <= l.size && DraftSize(l) <= MaxEntry(l.size) && MaxEntry(l.size) + 8 <= l.size
  {
    hide Total, RecordsOk, FollowersOk;
    EntryFits(l.size);
  }

  lemma TextKeeps(j: Journal, s: text)
    requires Inv(j) && j.log.draft.Some? && DraftSize(j.log) <= MaxEntry(j.log.size)
    ensures Inv(j.(log := Write(j.log, s)))
  {
    hide Valid, MakeRoom, Stored, ReadersOk, MaxEntry;
    var take := if |s| < Room(j.log) then |s| else Room(j.log);
    ValidSize(j.log);
    WriteValid(j.log, s);
    MakeRoomKeeps(j, DraftSize(j.log) + take);
    SameShape(j.(log := MakeRoom(j.log, DraftSize(j.log) + take)), Write(j.log, s));
  }

  lemma StoredSnoc(l: Log, commits: seq<Commit>, c: Commit)
    requires Stored(l, commits) && c.level < 8
    ensures Stored(l.(records := l.records + [Stamp(c.level, c.message, c.delta)]), commits + [c])
  {
    hide Stamp;
  }

  lemma ReaderMore(f: Follower, r: Reader, first: nat, commits: seq<Commit>, c: Commit)
    requires ReaderOk(f, r, first, commits)
    ensures ReaderOk(f, r, first, commits + [c])
  {
    hide Increasing, HeardAs;
  }

  lemma FinishKeeps(j: Journal, level: octet, now: int)
    requires Inv(j) && j.log.draft.Some? && level < 8 && ClockOk(Since(j.log, now))
    ensures Inv(Step(j, Finish(level, now)))
  {
    hide Valid, MakeRoom, Stored, LeBytes, Stamp, ReaderOk, MaxEntry;
    var c := Commit(level, j.log.draft.value, Since(j.log, now), now);
    var n := DraftSize(j.log) + |LeBytes(c.delta)|;
    ValidSize(j.log);
    DoneValid(j.log, level, now);
    MakeRoomKeeps(j, n);
    RoomMade(j.log, n);
    var l := MakeRoom(j.log, n);
    StoredSnoc(l, j.commits, c);
    var l1 := Done(j.log, level, now);
    StoredSame(l.(records := l.records + [Stamp(c.level, c.message, c.delta)]), l1, j.commits + [c]);
    forall i | 0 <= i < |j.readers|
      ensures ReaderOk(l1.followers[i], j.readers[i], l1.first, j.commits + [c])
    {
      ReaderMore(l.followers[i], j.readers[i], l.first, j.commits, c);
    }
  }

  lemma StoredSame(l: Log, l1: Log, commits: seq<Commit>)
    requires Stored(l, commits) && l1.records == l.records && l1.first == l.first
    ensures Stored(l1, commits)
  {
    hide StoredAs;
  }

  lemma JoinKeeps(j: Journal, service: bool)
    requires Inv(j)
    ensures Inv(Step(j, Join(service)))
  {
    hide Total, RecordsOk, Stored, SizeOk, MaxEntry, StoredAs;
    StoredSame(j.log, Attach(j.log), j.commits);
    var z := Step(j, Join(service));
    assert ReaderOk(z.log.followers[0], z.readers[0], z.log.first, z.commits);
    hide ReaderOk;
    assert forall i :: 1 <= i < |z.readers| ==> z.readers[i] == j.readers[i - 1] && z.log.followers[i] == j.log.followers[i - 1];
  }

  lemma LeaveKeeps(j: Journal, i: nat)
    requires Inv(j) && i < |j.log.followers|
    ensures Inv(Step(j, Leave(i)))
  {
    hide Total, RecordsOk, Stored, SizeOk, MaxEntry, StoredAs, ReaderOk;
    StoredSame(j.log, Detach(j.log, i), j.commits);
    var z := Step(j, Leave(i));
    assert forall k :: 0 <= k < i ==> z.readers[k] == j.readers[k] && z.log.followers[k] == j.log.followers[k];
    assert forall k :: i <= k < |z.readers| ==> z.readers[k] == j.readers[k + 1] && z.log.followers[k] == j.log.followers[k + 1];
  }

  lemma TookAccounted(f: Follower, r: Reader, r1: Reader, first: nat)
    requires Accounted(f, r, first)
    requires r1.since == r.since && r1.taken == r.taken + [first + f.at]
    ensures Accounted(f.(at := f.at + 1), r1, first)
  {
  }

  lemma TakeKeeps(j: Journal, i: nat, r1: Reader)
    requires Inv(j) && Ready(j, i)
    requires ReaderOk(Take(j.log, i).followers[i], r1, j.log.first, j.commits)
    ensures Inv(j.(log := Take(j.log, i), readers := j.readers[i := r1]))
  {
    hide Total, RecordsOk, Stored, SizeOk, MaxEntry, StoredAs, ReaderOk;
    StoredSame(j.log, Take(j.log, i), j.commits);
  }

  lemma ReadKeeps(j: Journal, i: nat)
    requires Inv(j) && Ready(j, i) && !j.readers[i].service
    ensures Inv(ReadStep(j, i))
  {
    hide Valid, Stored, Accounted;
    var r1 := ReadStep(j, i).readers[i];
    TookAccounted(j.log.followers[i], j.readers[i], r1, j.log.first);
    TakeKeeps(j, i, r1);
  }

  /** What the host hands on for the record at hand. */
  lemma PullHeard(j: Journal, i: nat, now: int)
    requires Inv(j) && Ready(j, i) && j.readers[i].service && Current(j, i).level < 8
    ensures var k := j.log.first + j.log.followers[i].at;
      var (sequence, out) := HostRx(j.readers[i].sequence, PullFrame(j, i, now));
      && k < |j.commits| && out.Some? && sequence == (k + 1) % SEQUENCES
      && HeardAs(out.value, k, j.commits[k])
      && out.value.ms == HostAge(LeBytes(MsAgo(now, PullTime(j, i))))
  {
    hide Valid, Accounted, MsAgo, HostAge, LeBytes, Frame, HostRx;
    var at := j.log.followers[i].at;
    var r := Current(j, i);
    AgeFits(now, PullTime(j, i));
    FrameRoundTrip(j.readers[i].sequence, at == 0, j.log.first, MsAgo(now, PullTime(j, i)), r.level, r.message);
    assert StoredAs(j.log.records[at], j.commits[j.log.first + at]);
    if at > 0 {
      ModPlus(j.log.first + at);
    }
    StampLevel(j.commits[j.log.first + at]);
  }

  lemma StampLevel(c: Commit)
    requires c.level < 8
    ensures Stamp(c.level, c.message, c.delta).level == c.level
  {
  }

  lemma HeardMore(f: Follower, r: Reader, r1: Reader, first: nat, commits: seq<Commit>, d: Delivery)
    requires Heard(f, r, first, commits) && first + f.at < |commits|
    requires HeardAs(d, first + f.at, commits[first + f.at])
    requires r1.taken == r.taken + [first + f.at] && r1.heard == r.heard + [d] && |r1.times| == |r.times| + 1
    requires r1.sequence == (first + f.at + 1) % SEQUENCES
    ensures Heard(f.(at := f.at + 1), r1, first, commits)
  {
    hide HeardAs;
  }

  lemma PullKeeps(j: Journal, i: nat, now: int)
    requires Inv(j) && Ready(j, i) && j.readers[i].service && Current(j, i).level < 8
    ensures Inv(PullStep(j, i, now))
  {
    hide Valid, Stored, Accounted, Heard, HostRx, PullFrame, HeardAs;
    var r1 := PullStep(j, i, now).readers[i];
    PullHeard(j, i, now);
    TookAccounted(j.log.followers[i], j.readers[i], r1, j.log.first);
    HeardMore(j.log.followers[i], j.readers[i], r1, j.log.first, j.commits, HostRx(j.readers[i].sequence, PullFrame(j, i, now)).1.value);
    TakeKeeps(j, i, r1);
  }

  lemma StepKeeps(j: Journal, a: Action)
    requires Inv(j)
    ensures Inv(Step(j, a))
  {
    hide Inv, Begin, Write, ReadStep, PullStep;
    match a
    case Start(now) => if j.log.draft.None? { StartKeeps(j, now); }
    case Text(s) => if j.log.draft.Some? && DraftSize(j.log) <= MaxEntry(j.log.size) { TextKeeps(j, s); }
    case Finish(level, now) =>
      if j.log.draft.Some? && level < 8 && ClockOk(Since(j.log, now)) { FinishKeeps(j, level, now); }
    case Join(service) => JoinKeeps(j, service);
    case Leave(i) => if i < |j.log.followers| && i < |j.readers| { LeaveKeeps(j, i); }
    case ReadNext(i) => if Ready(j, i) && !j.readers[i].service { ReadKeeps(j, i); }
    case PullNext(i, now) =>
      if Ready(j, i) && j.readers[i].service && Current(j, i).level < 8 { PullKeeps(j, i, now); }
  }

  lemma {:induction false} RunKeeps(j: Journal, actions: seq<Action>)
    requires Inv(j)
    ensures Inv(Run(j, actions))
    decreases actions
  {
    hide Inv, Step;
    if actions != [] {
      RunKeeps(j, actions[..|actions| - 1]);
      StepKeeps(Run(j, actions[..|actions| - 1]), actions[|actions| - 1]);
    }
  }

  // ---------------------------------------------------------------------
  // Times
  // ---------------------------------------------------------------------

  /** The log's times are right: the live deltas lead from the tail's time to
      the head's, and to each commit's own. */
  predicate TimesOk(l: Log, commits: seq<Commit>) {
    && l.tsTail + Elapsed(l.records) == l.tsHead
    && |commits| == l.first + |l.records|
    && forall i :: 0 <= i < |l.records| ==> TimeOf(l.tsTail, l.records, i) == commits[l.first + i].time
  }

  /** The time of a live record, from the tail's and the deltas up to it. */
  function TimeOf(tail: int, rs: seq<Record>, i: nat): int
    requires i < |rs|
  {
    tail + Elapsed(rs[..i + 1])
  }

  /** A service follower within the live records knows the time it has reached. */
  predicate ServiceTime(l: Log, f: Follower, r: Reader) {
    0 < f.at <= |l.records| ==> r.ts == TimeOf(l.tsTail, l.records, f.at - 1)
  }

  predicate TimesTaken(r: Reader, commits: seq<Commit>) {
    && |r.times| == |r.taken|
    && forall k :: 0 <= k < |r.taken| ==> r.taken[k] < |commits| && r.times[k] == commits[r.taken[k]].time
  }

  predicate ReaderTime(l: Log, f: Follower, r: Reader, commits: seq<Commit>) {
    r.service ==> ServiceTime(l, f, r) && TimesTaken(r, commits)
  }

  predicate ReaderTimes(l: Log, commits: seq<Commit>, readers: seq<Reader>) {
    && |readers| == |l.followers|
    && forall i :: 0 <= i < |readers| ==> ReaderTime(l, l.followers[i], readers[i], commits)
  }

  predicate TimeInv(j: Journal) {
    TimesOk(j.log, j.commits) && ReaderTimes(j.log, j.commits, j.readers)
  }

  lemma ElapsedFirst(rs: seq<Record>, n: nat)
    requires n < |rs|
    ensures Elapsed(rs[..n + 1]) == rs[0].delta + Elapsed(rs[1..][..n])
  {
    assert rs[..n + 1][1..] == rs[1..][..n];
  }

  lemma EvictTime(l: Log, i: nat)
    requires i + 1 < |l.records|
    ensures TimeOf(Evict(l).tsTail, Evict(l).records, i) == TimeOf(l.tsTail, l.records, i + 1)
  {
    ElapsedFirst(l.records, i + 1);
  }

  lemma EvictTimes(l: Log, commits: seq<Commit>)
    requires l.records != [] && TimesOk(l, commits)
    ensures TimesOk(Evict(l), commits)
  {
    hide TimeOf, AllPushed;
    forall i | 0 <= i < |l.records| - 1
      ensures TimeOf(Evict(l).tsTail, Evict(l).records, i) == commits[l.first + 1 + i].time
    {
      EvictTime(l, i);
    }
  }

  lemma EvictReaderTimes(l: Log, commits: seq<Commit>, readers: seq<Reader>)
    requires l.records != [] && ReaderTimes(l, commits, readers)
    ensures ReaderTimes(Evict(l), commits, readers)
  {
    hide TimeOf, TimesTaken;
    forall i | 0 <= i < |readers|
      ensures ReaderTime(Evict(l), Evict(l).followers[i], readers[i], commits)
    {
      assert ReaderTime(l, l.followers[i], readers[i], commits);
      if 2 <= l.followers[i].at <= |l.records| {
        EvictTime(l, l.followers[i].at - 2);
      }
    }
  }

  lemma {:induction false} MakeRoomTimes(j: Journal, n: nat)
    requires TimeInv(j)
    ensures TimeInv(j.(log := MakeRoom(j.log, n)))
    decreases |j.log.records|
  {
    hide TimesOk, ReaderTimes, Evict, Total;
    if j.log.size - Total(j.log.records) < n && j.log.records != [] {
      EvictTimes(j.log, j.commits);
      EvictReaderTimes(j.log, j.commits, j.readers);
      EvictShorter(j.log);
      MakeRoomTimes(j.(log := Evict(j.log)), n);
    }
  }

  lemma SameTimes(j: Journal, l: Log)
    requires TimeInv(j) && l.records == j.log.records && l.first == j.log.first && l.followers == j.log.followers
    requires l.records == [] || (l.tsTail == j.log.tsTail && l.tsHead == j.log.tsHead)
    requires l.records == [] ==> l.tsTail == l.tsHead
    ensures TimeInv(j.(log := l))
  {
  }

  lemma StartTimes(j: Journal, now: int)
    requires TimeInv(j)
    ensures TimeInv(j.(log := Begin(j.log, now)))
  {
    hide TimesOk, ReaderTimes, MakeRoom;
    MakeRoomTimes(j, 2);
    EmptyTimes(j.(log := MakeRoom(j.log, 2)));
    SameTimes(j.(log := MakeRoom(j.log, 2)), Begin(j.log, now));
  }

  lemma EmptyTimes(j: Journal)
    requires TimeInv(j)
    ensures j.log.records == [] ==> j.log.tsTail == j.log.tsHead
  {
    hide ReaderTimes;
  }

  lemma TextTimes(j: Journal, s: text)
    requires TimeInv(j) && j.log.draft.Some? && DraftSize(j.log) <= MaxEntry(j.log.size)
    ensures TimeInv(j.(log := Write(j.log, s)))
  {
    hide TimesOk, ReaderTimes, MakeRoom, MaxEntry;
    var take := if |s| < Room(j.log) then |s| else Room(j.log);
    MakeRoomTimes(j, DraftSize(j.log) + take);
    EmptyTimes(j.(log := MakeRoom(j.log, DraftSize(j.log) + take)));
    SameTimes(j.(log := MakeRoom(j.log, DraftSize(j.log) + take)), Write(j.log, s));
  }

  /** The clock has not gone back since the last commit, and has not moved by
      2^56 microseconds either. */
  predicate Timely(l: Log, now: int) { l.tsHead <= now && |LeBytes(Since(l, now))| <= 7 }

  lemma {:induction false} MakeRoomHead(l: Log, n: nat)
    ensures MakeRoom(l, n).tsHead == l.tsHead
    decreases |l.records|
  {
    if l.size - Total(l.records) < n && l.records != [] {
      MakeRoomHead(Evict(l), n);
    }
  }

  lemma CommitTimes(l: Log, l1: Log, commits: seq<Commit>, r: Record, c: Commit)
    requires TimesOk(l, commits)
    requires l1.records == l.records + [r] && l1.first == l.first && l1.tsTail == l.tsTail
    ensures TimesOk(l1, commits + [c]) <==> l1.tsHead == l.tsHead + r.delta == c.time
  {
    ElapsedSnoc(l.records, r);
    forall i | 0 <= i < |l.records|
      ensures TimeOf(l1.tsTail, l1.records, i) == TimeOf(l.tsTail, l.records, i)
    {
      assert l1.records[..i + 1] == l.records[..i + 1];
    }
    assert l1.records[..|l.records| + 1] == l1.records;
    if TimesOk(l1, commits + [c]) {
      assert TimeOf(l1.tsTail, l1.records, |l.records|) == c.time;
    }
  }

  /** A commit keeps the log's times right exactly when it is timely. The code
      reads the clock before it takes the log's mutex, so `now` is an argument:
      of two threads the later reading can be committed first, and the clock, as
      the log sees it, then goes back although it never did. */
  lemma FinishTimesIff(j: Journal, level: octet, now: int)
    requires TimeInv(j) && j.log.draft.Some? && level < 8 && ClockOk(Since(j.log, now))
    ensures var z := Step(j, Finish(level, now));
      TimesOk(z.log, z.commits) <==> Timely(j.log, now)
  {
    hide MakeRoom, LeBytes, ReaderTimes, TimesOk;
    var c := Commit(level, j.log.draft.value, Since(j.log, now), now);
    var n := DraftSize(j.log) + |LeBytes(c.delta)|;
    MakeRoomTimes(j, n);
    MakeRoomHead(j.log, n);
    EightBytes(c.delta);
    CommitTimes(MakeRoom(j.log, n), Done(j.log, level, now), j.commits, Stamp(level, c.message, c.delta), c);
  }

  lemma EightBytes(n: nat)
    ensures n == 0 ==> |LeBytes(n)| == 0
  {
  }

  lemma ReaderTimeMore(l: Log, l1: Log, f: Follower, r: Reader, commits: seq<Commit>, c: Commit, rec: Record)
    requires ReaderTime(l, f, r, commits) && f.at <= |l.records|
    requires l1.records == l.records + [rec] && l1.first == l.first && l1.tsTail == l.tsTail
    ensures ReaderTime(l1, f, r, commits + [c])
  {
    if f.at > 0 {
      assert l1.records[..f.at] == l.records[..f.at];
    }
  }

  lemma FinishReaderTimes(j: Journal, level: octet, now: int)
    requires Inv(j) && TimeInv(j) && j.log.draft.Some? && level < 8 && ClockOk(Since(j.log, now))
    ensures var z := Step(j, Finish(level, now)); ReaderTimes(z.log, z.commits, z.readers)
  {
    hide MakeRoom, LeBytes, TimesOk, ReaderTime, Stamp, Stored, ReadersOk, MaxEntry;
    var c := Commit(level, j.log.draft.value, Since(j.log, now), now);
    var n := DraftSize(j.log) + |LeBytes(c.delta)|;
    MakeRoomTimes(j, n);
    ValidSize(j.log);
    RoomMade(j.log, n);
    var l := MakeRoom(j.log, n);
    forall i | 0 <= i < |j.readers|
      ensures ReaderTime(Done(j.log, level, now), l.followers[i], j.readers[i], j.commits + [c])
    {
      ReaderTimeMore(l, Done(j.log, level, now), l.followers[i], j.readers[i], j.commits, c, Stamp(level, c.message, c.delta));
    }
  }

  lemma TimesSame(l: Log, l1: Log, commits: seq<Commit>)
    requires TimesOk(l, commits) && l1.records == l.records && l1.first == l.first && l1.tsTail == l.tsTail && l1.tsHead == l.tsHead
    ensures TimesOk(l1, commits)
  {
    hide Elapsed;
  }

  lemma ReaderTimeSame(l: Log, l1: Log, f: Follower, r: Reader, commits: seq<Commit>)
    requires ReaderTime(l, f, r, commits) && l1.records == l.records && l1.tsTail == l.tsTail
    ensures ReaderTime(l1, f, r, commits)
  {
  }

  lemma JoinTimes(j: Journal, service: bool)
    requires TimeInv(j)
    ensures TimeInv(Step(j, Join(service)))
  {
    var z := Step(j, Join(service));
    TimesSame(j.log, z.log, j.commits);
    assert ReaderTime(z.log, z.log.followers[0], z.readers[0], z.commits);
    hide ReaderTime, TimesOk;
    forall i | 1 <= i < |z.readers|
      ensures ReaderTime(z.log, z.log.followers[i], z.readers[i], z.commits)
    {
      ReaderTimeSame(j.log, z.log, j.log.followers[i - 1], j.readers[i - 1], j.commits);
    }
  }

  lemma LeaveTimes(j: Journal, i: nat)
    requires TimeInv(j) && i < |j.log.followers|
    ensures TimeInv(Step(j, Leave(i)))
  {
    hide ReaderTime, TimesOk;
    var z := Step(j, Leave(i));
    TimesSame(j.log, z.log, j.commits);
    forall k | 0 <= k < |z.readers|
      ensures ReaderTime(z.log, z.log.followers[k], z.readers[k], z.commits)
    {
      var k0 := if k < i then k else k + 1;
      assert z.log.followers[k] == j.log.followers[k0] && z.readers[k] == j.readers[k0];
      ReaderTimeSame(j.log, z.log, j.log.followers[k0], j.readers[k0], j.commits);
    }
  }

  lemma TakeTimes(j: Journal, i: nat, r1: Reader)
    requires TimeInv(j) && Ready(j, i)
    requires ReaderTime(j.log, j.log.followers[i].(at := j.log.followers[i].at + 1), r1, j.commits)
    ensures TimeInv(j.(log := Take(j.log, i), readers := j.readers[i := r1]))
  {
    hide ReaderTime, TimesOk;
    var l1 := Take(j.log, i);
    TimesSame(j.log, l1, j.commits);
    forall k | 0 <= k < |j.readers|
      ensures ReaderTime(l1, l1.followers[k], j.readers[i := r1][k], j.commits)
    {
      ReaderTimeSame(j.log, l1, l1.followers[k], j.readers[i := r1][k], j.commits);
    }
  }

  /** The service's time for the record at hand is its commit's. */
  lemma PullTimeExact(j: Journal, i: nat)
    requires TimeInv(j) && Ready(j, i) && j.readers[i].service
    ensures var k := j.log.first + j.log.followers[i].at;
      k < |j.commits| && PullTime(j, i) == j.commits[k].time && PullTime(j, i) == TimeOf(j.log.tsTail, j.log.records, j.log.followers[i].at)
  {
    hide TimesTaken;
    var at := j.log.followers[i].at;
    assert ReaderTime(j.log, j.log.followers[i], j.readers[i], j.commits);
    assert j.log.records[..at + 1] == j.log.records[..at] + [j.log.records[at]];
    ElapsedSnoc(j.log.records[..at], j.log.records[at]);
    assert j.log.records[..0] == [];
    assert TimeOf(j.log.tsTail, j.log.records, at) == j.commits[j.log.first + at].time;
    if at > 0 {
      assert j.log.records[..at - 1 + 1] == j.log.records[..at];
    }
  }

  lemma PullTimes(j: Journal, i: nat, now: int)
    requires TimeInv(j) && Ready(j, i) && j.readers[i].service && Current(j, i).level < 8
    ensures TimeInv(PullStep(j, i, now))
  {
    hide HostRx, PullFrame, TimesOk, PullTime, TimeOf;
    PullTimeExact(j, i);
    var r1 := PullStep(j, i, now).readers[i];
    assert ReaderTime(j.log, j.log.followers[i], j.readers[i], j.commits);
    TakeTimes(j, i, r1);
  }

  lemma ReadTimes(j: Journal, i: nat)
    requires TimeInv(j) && Ready(j, i) && !j.readers[i].service
    ensures TimeInv(ReadStep(j, i))
  {
    hide TimesOk;
    TakeTimes(j, i, ReadStep(j, i).readers[i]);
  }

  predicate TimelyStep(j: Journal, a: Action) {
    a.Finish? && j.log.draft.Some? ==> Timely(j.log, a.now)
  }

  predicate TimelyRun(j: Journal, actions: seq<Action>)
    decreases actions
  {
    actions != [] ==>
      TimelyRun(j, actions[..|actions| - 1]) && TimelyStep(Run(j, actions[..|actions| - 1]), actions[|actions| - 1])
  }

  lemma StepTimes(j: Journal, a: Action)
    requires Inv(j) && TimeInv(j) && TimelyStep(j, a)
    ensures TimeInv(Step(j, a))
  {
    hide Inv, TimesOk, ReaderTimes, Begin, Write, ReadStep, PullStep, LeBytes, Done;
    match a
    case Start(now) => if j.log.draft.None? { StartTimes(j, now); }
    case Text(s) => if j.log.draft.Some? && DraftSize(j.log) <= MaxEntry(j.log.size) { TextTimes(j, s); }
    case Finish(level, now) =>
      if j.log.draft.Some? && level < 8 && ClockOk(Since(j.log, now)) {
        FinishTimesIff(j, level, now);
        FinishReaderTimes(j, level, now);
      }
    case Join(service) => JoinTimes(j, service);
    case Leave(i) =>
      if i < |j.log.followers| && i < |j.readers| { LeaveTimes(j, i); }
    case ReadNext(i) => if Ready(j, i) && !j.readers[i].service { ReadTimes(j, i); }
    case PullNext(i, now) =>
      if Ready(j, i) && j.readers[i].service && Current(j, i).level < 8 { PullTimes(j, i, now); }
  }

  lemma {:induction false} RunTimes(j: Journal, actions: seq<Action>)
    requires Inv(j) && TimeInv(j) && TimelyRun(j, actions)
    ensures TimeInv(Run(j, actions))
    decreases actions
  {
    hide Inv, TimeInv, Step, TimelyStep;
    if actions != [] {
      var j1 := Run(j, actions[..|actions| - 1]);
      RunTimes(j, actions[..|actions| - 1]);
      RunKeeps(j, actions[..|actions| - 1]);
      StepTimes(j1, actions[|actions| - 1]);
    }
  }

  // ---------------------------------------------------------------------
  // Guarantees
  // ---------------------------------------------------------------------

  /** For every follower, in every run: taken, dropped and pending make up the
      backlog it joined with and the commits since; what it took is in commit
      order; and it stands at a live record or at the head. */
  lemma FollowersAccounted(size: nat, actions: seq<Action>, i: nat)
    requires SizeOk(size)
    ensures var j := Run(Empty(size), actions);
      i < |j.readers| ==>
        && i < |j.log.followers| && j.log.followers[i].at <= |j.log.records|
        && |j.readers[i].taken| + j.log.followers[i].drops + (|j.log.records| - j.log.followers[i].at)
           == |j.commits| - j.readers[i].since
        && Increasing(j.readers[i].taken)
        && (forall k :: 0 <= k < |j.readers[i].taken| ==> j.readers[i].since <= j.readers[i].taken[k] < |j.commits|)
  {
    hide SizeOk, Increasing, Heard, StoredAs, RecordsOk, Total, MaxEntry;
    EmptyInv(size);
    RunKeeps(Empty(size), actions);
    var j := Run(Empty(size), actions);
    if i < |j.readers| {
      assert ReaderOk(j.log.followers[i], j.readers[i], j.log.first, j.commits);
    }
  }

  /** The records are always the last commits, within the log's size with the
      record being written. */
  lemma LogHoldsLastCommits(size: nat, actions: seq<Action>)
    requires SizeOk(size)
    ensures var j := Run(Empty(size), actions);
      Total(j.log.records) + DraftSize(j.log) <= size && Stored(j.log, j.commits)
  {
    hide SizeOk, Stored, ReadersOk, RecordsOk, Total, MaxEntry, FollowersOk;
    EmptyInv(size);
    RunKeeps(Empty(size), actions);
    RunSize(Empty(size), actions);
  }

  lemma StepSize(j: Journal, a: Action)
    requires Inv(j)
    ensures Step(j, a).log.size == j.log.size
  {
    hide MakeRoom, Stored, ReadersOk, LeBytes, MaxEntry, SizeOk, Stamp, HostRx, PullFrame;
    ValidSize(j.log);
    match a
    case Start(now) => RoomMade(j.log, 2);
    case Text(s) =>
      if j.log.draft.Some? {
        RoomMade(j.log, DraftSize(j.log) + if |s| < Room(j.log) then |s| else Room(j.log));
      }
    case Finish(level, now) =>
      if ClockOk(Since(j.log, now)) {
        RoomMade(j.log, DraftSize(j.log) + |LeBytes(Since(j.log, now))|);
      }
    case _ =>
  }

  lemma {:induction false} RunSize(j: Journal, actions: seq<Action>)
    requires Inv(j)
    ensures Run(j, actions).log.size == j.log.size
    decreases actions
  {
    hide Inv, Step;
    if actions != [] {
      RunKeeps(j, actions[..|actions| - 1]);
      RunSize(j, actions[..|actions| - 1]);
      StepSize(Run(j, actions[..|actions| - 1]), actions[|actions| - 1]);
    }
  }

  /** Every delta fits the field for its length. */
  predicate Short(commits: seq<Commit>) { forall k :: 0 <= k < |commits| ==> |LeBytes(commits[k].delta)| <= 7 }

  lemma StepShort(j: Journal, a: Action)
    requires Short(j.commits) && TimelyStep(j, a)
    ensures Short(Step(j, a).commits)
  {
    hide LeBytes, Begin, Write, Done, Attach, Detach, Take, HostRx, PullFrame;
  }

  lemma {:induction false} RunShort(j: Journal, actions: seq<Action>)
    requires Short(j.commits) && TimelyRun(j, actions)
    ensures Short(Run(j, actions).commits)
    decreases actions
  {
    hide Short, Step, TimelyStep;
    if actions != [] {
      RunShort(j, actions[..|actions| - 1]);
      StepShort(Run(j, actions[..|actions| - 1]), actions[|actions| - 1]);
    }
  }

  lemma ShortMessage(c: Commit)
    requires c.level < 8 && |LeBytes(c.delta)| <= 7
    ensures Stamp(c.level, c.message, c.delta).message == c.message
  {
    hide LeBytes;
  }

  /** The pull numbered k of a service follower: its time and what its host heard
      are the commit's. */
  predicate PullExact(j: Journal, r: Reader, k: nat) {
    && k < |r.taken| && k < |r.heard| && k < |r.times| && r.taken[k] < |j.commits|
    && var c, d := j.commits[r.taken[k]], r.heard[k];
       && r.times[k] == c.time
       && d.level == c.level && d.message == c.message && d.sequence == (r.taken[k] + 1) % SEQUENCES
  }

  /** Under a clock that does not go back, whatever was dropped, each record a
      service follower pulls has its commit's time, and its host hears the level,
      the message and the commit's index plus one. */
  lemma PulledExactly(size: nat, actions: seq<Action>, i: nat, k: nat)
    requires SizeOk(size) && TimelyRun(Empty(size), actions)
    ensures var j := Run(Empty(size), actions);
      && j.log.tsTail + Elapsed(j.log.records) == j.log.tsHead
      && (i < |j.readers| && j.readers[i].service && k < |j.readers[i].taken| ==> PullExact(j, j.readers[i], k))
  {
    hide SizeOk, StoredAs, Valid, TimeOf, Elapsed, ReaderOk, ReaderTime, Short, Run, Step, TimelyRun, Empty;
    var e := Empty(size);
    EmptyInv(size);
    EmptyTime(size);
    EmptyShort(size);
    RunKeeps(e, actions);
    RunTimes(e, actions);
    RunShort(e, actions);
    var j := Run(e, actions);
    if i < |j.readers| && j.readers[i].service && k < |j.readers[i].taken| {
      PullExactly(j.log, j, j.log.followers[i], j.readers[i], k);
    }
  }

  lemma EmptyShort(size: nat)
    ensures Short(Empty(size).commits)
  {
  }

  lemma PullExactly(l: Log, j: Journal, f: Follower, r: Reader, k: nat)
    requires ReaderOk(f, r, l.first, j.commits) && ReaderTime(l, f, r, j.commits) && Short(j.commits) && r.service && k < |r.taken|
    ensures PullExact(j, r, k)
  {
    hide Increasing, HeardAs, TimeOf, Stamp, LeBytes;
    var c := j.commits[r.taken[k]];
    HeardIs(r.heard[k], r.taken[k], c);
    ShortMessage(c);
  }

  lemma HeardIs(d: Delivery, index: nat, c: Commit)
    requires HeardAs(d, index, c)
    ensures c.level < 8 && d.level == c.level && d.sequence == (index + 1) % SEQUENCES && d.message == Stamp(c.level, c.message, c.delta).message
  {
    hide Stamp;
  }

  lemma EmptyTime(size: nat)
    ensures TimeInv(Empty(size))
  {
  }

  /** The log after a commit at time ten. */
  function OneRecord(): Log { Log(256, [Record(6, [], 0)], 0, 10, 10, None, []) }

  lemma FirstCommit()
    ensures Run(Empty(256), [Start(10), Finish(6, 10)]).log == OneRecord()
  {
    assert [Start(10), Finish(6, 10)][..1] == [Start(10)] && [Start(10)][..0] == [];
    assert LeBytes(0) == [] && Total([]) == 0;
  }

  /** A clock set back leaves the log's times wrong: the tail's time and the
      deltas lead past the head's. */
  lemma ClockBackExample()
    ensures var l := Run(Empty(256), [Start(10), Finish(6, 10), Start(5), Finish(6, 5)]).log;
      l.tsTail + Elapsed(l.records) != l.tsHead
  {
    hide Step;
    var a := [Start(10), Finish(6, 10), Start(5), Finish(6, 5)];
    assert a[..3] == [Start(10), Finish(6, 10), Start(5)] && a[..3][..2] == [Start(10), Finish(6, 10)];
    var j := Run(Empty(256), a[..3][..2]);
    FirstCommit();
    SecondCommit(j);
    assert Run(Empty(256), a[..3]) == Step(j, Start(5));
  }

  lemma SecondCommit(j: Journal)
    requires j.log == OneRecord()
    ensures var l := Step(Step(j, Start(5)), Finish(6, 5)).log; l.tsTail + Elapsed(l.records) != l.tsHead
  {
    assert LeBytes(0) == [] && Total(OneRecord().records) == 2;
    ElapsedSnoc(OneRecord().records, Record(6, [], 0));
  }
}
