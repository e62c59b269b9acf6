/** Order in the scheduler over whole runs: tasks of one priority are dispatched
    first in, first out, and waiters of one priority are woken so. */
module SchedulerOrder {
  import opened Common
  import opened WaitLists
  import opened Scheduler
  import opened SchedulerRuns

  // ---------------------------------------------------------------------
  // First in, first out
  // ---------------------------------------------------------------------

  /** At most the head leaves, and not to come back; newcomers go behind. */
  predicate Queued(a: seq<nat>, b: seq<nat>) { a <= b || (a != [] && a[1..] <= b && a[0] !in b) }

  lemma EnqueueFifo(s: Sched, t: nat, p: nat)
    requires |s.ready| == PRIOS && Known(s, t) && p < PRIOS
    ensures |Enqueue(s, t).ready| == PRIOS && s.ready[p] <= Enqueue(s, t).ready[p]
  {
  }

  lemma {:induction false} WakeAllFifo(s: Sched, w: nat, p: nat)
    requires Shaped(s) && KnownAll(s, WaitList(s, w)) && p < PRIOS
    ensures |WakeAll(s, w).ready| == PRIOS && s.ready[p] <= WakeAll(s, w).ready[p]
    decreases |WaitList(s, w)|
  {
    hide Known, Shaped, WakeFirst;
    ShapedReady(s);
    if WaitList(s, w) != [] {
      WakeShaped(s, w);
      WakeFirstFifo(s, w, p);
      WakeAllFifo(WakeFirst(s, w), w, p);
    }
  }

  lemma WakeFirstFifo(s: Sched, w: nat, p: nat)
    requires Shaped(s) && WaitList(s, w) != [] && Known(s, WaitList(s, w)[0]) && p < PRIOS
    ensures |WakeFirst(s, w).ready| == PRIOS && s.ready[p] <= WakeFirst(s, w).ready[p]
  {
  }

  lemma RequeueFifo(s: Sched, p: nat)
    requires |s.ready| == PRIOS && Known(s, s.current) && p < PRIOS
    ensures |Requeue(s).ready| == PRIOS && s.ready[p] <= Requeue(s).ready[p]
  {
  }

  lemma DequeueFifo(a: seq<nat>, s: Sched, h: nat, t: nat, p: nat)
    requires |s.ready| == PRIOS && h < PRIOS && s.ready[h] != [] && t in s.info && p < PRIOS && a <= s.ready[p] && Distinct(s.ready[p])
    ensures var z := Dispatch(Dequeue(s, h), t); |z.ready| == PRIOS && Queued(a, z.ready[p])
  {
    if h == p && a != [] {
      assert a[1..] <= s.ready[p][1..];
      assert a[0] == s.ready[p][0];
    }
  }

  lemma PickFifo(s: Sched, p: nat)
    requires Core(s) && p < PRIOS
    requires forall p, i :: 0 <= p < PRIOS && 0 <= i < |s.ready[p]| ==> s.ready[p][i] in s.info
    ensures |Pick(s).ready| == PRIOS && Queued(s.ready[p], Pick(s).ready[p])
  {
    hide Core, Requeue, Dequeue, BitsOk, Shaped, Known;
    RequeueBits2(s);
    RequeueCore(s);
    ShapedReady(s);
    var s1 := Requeue(s);
    QueuedInfo(s1);
    RequeueFifo(s, p);
    if s1.active != {} {
      var h := Highest(s1.active, PRIOS);
      QueueDistinct(s1, p);
      DequeueFifo(s.ready[p], s1, h, s1.ready[h][0], p);
    }
  }

  lemma QueueDistinct(s: Sched, p: nat)
    requires Core(s) && p < PRIOS
    ensures |s.ready| == PRIOS && Distinct(s.ready[p])
  {
    hide Waits, Tasks, OneRuns, BitsOk;
    assert QueueOk(s, p, s.ready[p]);
  }

  lemma RouseFifo(s: Sched, t: nat, p: nat)
    requires |s.ready| == PRIOS && Known(s, t) && p < PRIOS
    ensures |Rouse(s, t).ready| == PRIOS && s.ready[p] <= Rouse(s, t).ready[p]
  {
  }

  lemma ReleaseFifo(s: Sched, t: nat, p: nat)
    requires |s.ready| == PRIOS && Known(s, t) && p < PRIOS
    ensures |Release(s, t).ready| == PRIOS && s.ready[p] <= Release(s, t).ready[p]
  {
  }

  lemma CreateFifo(s: Sched, t: nat, prio: nat, detached: bool, p: nat)
    requires |s.ready| == PRIOS && p < PRIOS
    ensures |Create(s, t, prio, detached).ready| == PRIOS && s.ready[p] <= Create(s, t, prio, detached).ready[p]
  {
  }

  lemma ExitFifo(s: Sched, p: nat)
    requires Shaped(s) && KnownAll(s, WaitList(s, JOIN)) && p < PRIOS
    ensures |Exit(s).ready| == PRIOS && s.ready[p] <= Exit(s).ready[p]
  {
    hide WakeAll, Release;
    assert Known(s, s.current);
    if s.info[s.current].detached {
      ReleaseFifo(s.(info := s.info[s.current := s.info[s.current].(base := false)]), s.current, p);
    } else {
      ZombieShaped(s);
      WakeAllFifo(s.(state := s.state[s.current := Zombie], pending := true), JOIN, p);
    }
  }

  lemma SwitchFifo(s: Sched, p: nat)
    requires Core(s) && p < PRIOS
    ensures |Step(s, Switch).ready| == PRIOS && |s.ready| == PRIOS && Queued(s.ready[p], Step(s, Switch).ready[p])
  {
    hide Core, Pick, Shaped, Queued;
    CoreShaped(s);
    ShapedReady(s);
    SwitchReady(s);
    PickFifo(if s.switching then s else s.(pending := false), p);
  }

  lemma WakeFifo(s: Sched, w: nat, all: bool, p: nat)
    requires Core(s) && p < PRIOS
    ensures |Step(s, Wake(w, all)).ready| == PRIOS && |s.ready| == PRIOS && s.ready[p] <= Step(s, Wake(w, all)).ready[p]
  {
    hide Core, KnownAll, WakeAll, WakeFirst, Shaped;
    CoreShaped(s);
    ShapedReady(s);
    ListKnown(s, w);
    if all {
      WakeAllFifo(s, w, p);
    } else if WaitList(s, w) != [] {
      FirstWaiter(s, w);
      WakeFirstFifo(s, w, p);
    }
  }

  lemma OneTaskFifo(s: Sched, a: Action, p: nat)
    requires Core(s) && p < PRIOS && (a.RunTask? || a.RunAgain? || a.TimeUp? || a.JoinThread? || a.Drop?)
    ensures |Step(s, a).ready| == PRIOS && |s.ready| == PRIOS && Queued(s.ready[p], Step(s, a).ready[p])
    ensures s.ready[p] <= Step(s, a).ready[p]
  {
    hide Core, Sound, KnownAll, Unlisted, Enqueue, Rouse, Release, Shaped;
    CoreShaped(s);
    ShapedReady(s);
    var t := a.t;
    match a
    case RunTask(_) => if t in s.state && Known(s, t) { EnqueueFifo(s, t, p); }
    case RunAgain(_) => if t in s.state && Known(s, t) { EnqueueFifo(s, t, p); }
    case TimeUp(_) => if t in s.state && Known(s, t) { RouseFifo(s.(waits := Unlisted(s.waits, t)), t, p); }
    case JoinThread(_) => if Joinable(s, t) { ReleaseFifo(s.(info := s.info[t := s.info[t].(base := false)]), t, p); }
    case Drop(_) => if Droppable(s, t) { ReleaseFifo(s, t, p); }
  }

  /** Only a switch takes from a ready queue, and only its head; everything else
      adds behind. */
  lemma StepFifo(s: Sched, a: Action, p: nat)
    requires Core(s) && p < PRIOS
    ensures |Step(s, a).ready| == PRIOS && |s.ready| == PRIOS && Queued(s.ready[p], Step(s, a).ready[p])
    ensures !a.Switch? ==> s.ready[p] <= Step(s, a).ready[p]
  {
    hide Core, Sound, KnownAll, Pick, Wakeup, Insert, Unlisted, Create, Enqueue, Rouse, Release, Exit, Shaped, TaskRun, Timeout, Join,
      Joinable, Droppable;
    CoreShaped(s);
    ShapedReady(s);
    match a
    case Spawn(t, prio, detached) => CreateFifo(s, t, prio, detached, p);
    case RunTask(t) => OneTaskFifo(s, a, p);
    case RunAgain(t) => OneTaskFifo(s, a, p);
    case TimeUp(t) => OneTaskFifo(s, a, p);
    case JoinThread(t) => OneTaskFifo(s, a, p);
    case Drop(t) => OneTaskFifo(s, a, p);
    case Wake(w, all) => WakeFifo(s, w, all, p);
    case Switch => SwitchFifo(s, p);
    case Leave =>
      ListKnown(s, JOIN);
      ExitFifo(s, p);
    case _ =>
  }

  // ---------------------------------------------------------------------
  // Order of two
  // ---------------------------------------------------------------------

  ghost predicate Ahead(q: seq<nat>, x: nat, y: nat) { exists i, j :: 0 <= i < j < |q| && q[i] == x && q[j] == y }

  lemma AheadOnce(q: seq<nat>, x: nat, y: nat)
    requires Distinct(q) && Ahead(q, x, y)
    ensures !Ahead(q, y, x) && x != y && x in q && y in q
  {
  }

  lemma AheadOr(q: seq<nat>, x: nat, y: nat)
    requires x in q && y in q && x != y
    ensures Ahead(q, x, y) || Ahead(q, y, x)
  {
    var i :| 0 <= i < |q| && q[i] == x;
    var j :| 0 <= j < |q| && q[j] == y;
    assert i < j || j < i;
  }

  lemma QueuedTurn(a: seq<nat>, b: seq<nat>, x: nat, y: nat)
    requires Queued(a, b) && Ahead(a, x, y) && x in b
    ensures Ahead(b, x, y)
  {
    var i, j :| 0 <= i < j < |a| && a[i] == x && a[j] == y;
    if a <= b {
      assert b[i] == x && b[j] == y;
    } else {
      assert i > 0;
      assert a[1..][i - 1] == x && a[1..][j - 1] == y;
      assert b[i - 1] == x && b[j - 1] == y;
    }
  }

  /** The state after the first actions of a run. */
  function StateAt(idle: nat, actions: seq<Action>, k: nat): Sched
    requires k <= |actions|
  {
    Run(Boot(idle), actions[..k])
  }

  lemma {:induction false} AdmissiblePrefix(s: Sched, actions: seq<Action>, k: nat)
    requires AdmissibleRun(s, actions) && k <= |actions|
    ensures AdmissibleRun(s, actions[..k])
    decreases |actions|
  {
    if k < |actions| {
      assert actions[..|actions| - 1][..k] == actions[..k];
      AdmissiblePrefix(s, actions[..|actions| - 1], k);
    } else {
      assert actions[..k] == actions;
    }
  }

  lemma StateNext(idle: nat, actions: seq<Action>, k: nat)
    requires k < |actions| && AdmissibleRun(Boot(idle), actions)
    ensures Core(StateAt(idle, actions, k)) && Core(StateAt(idle, actions, k + 1))
    ensures StateAt(idle, actions, k + 1) == Step(StateAt(idle, actions, k), actions[k])
  {
    hide Core, Step, Next, Inv, Boot;
    CoreAt(idle, actions, k);
    CoreAt(idle, actions, k + 1);
    NextIsStep(StateAt(idle, actions, k), actions[k]);
    assert actions[..k + 1][..k] == actions[..k] && actions[..k + 1][k] == actions[k];
  }

  lemma CoreAt(idle: nat, actions: seq<Action>, k: nat)
    requires k <= |actions| && AdmissibleRun(Boot(idle), actions)
    ensures Core(StateAt(idle, actions, k))
  {
    hide Core, Step, Inv, Boot, Run;
    AdmissiblePrefix(Boot(idle), actions, k);
    BootInv(idle);
    RunKeeps(Boot(idle), actions[..k]);
    InvCore(Run(Boot(idle), actions[..k]));
  }

  lemma InvCore(s: Sched)
    requires Inv(s)
    ensures Core(s)
  {
    hide Shaped, BitsOk, Queues, Waits, Tasks, OneRuns, Ordered;
  }

  /** In every run, of two tasks queued at one priority the one in front is
      dispatched first: as long as it is queued, so is the other, behind it. */
  lemma {:induction false} DispatchedInTurn(idle: nat, actions: seq<Action>, m: nat, n: nat, p: nat, x: nat, y: nat)
    requires AdmissibleRun(Boot(idle), actions) && m <= n <= |actions| && p < PRIOS
    requires forall k :: m <= k <= n ==> |StateAt(idle, actions, k).ready| == PRIOS && x in StateAt(idle, actions, k).ready[p]
    requires Ahead(StateAt(idle, actions, m).ready[p], x, y)
    ensures Ahead(StateAt(idle, actions, n).ready[p], x, y)
    decreases n
  {
    hide Core, Step, StateAt, Ahead, Queued, AdmissibleRun, Boot;
    if m < n {
      DispatchedInTurn(idle, actions, m, n - 1, p, x, y);
      StateNext(idle, actions, n - 1);
      StepFifo(StateAt(idle, actions, n - 1), actions[n - 1], p);
      QueuedTurn(StateAt(idle, actions, n - 1).ready[p], StateAt(idle, actions, n).ready[p], x, y);
    }
  }

  // ---------------------------------------------------------------------
  // Waiting
  // ---------------------------------------------------------------------

  /** Some may have left; the others are as they were. */
  ghost predicate Thinned(a: seq<nat>, b: seq<nat>) {
    && (forall x :: x in b ==> x in a)
    && (forall x, y :: Ahead(a, x, y) && x in b && y in b ==> Ahead(b, x, y))
  }

  lemma ThinnedSelf(a: seq<nat>)
    ensures Thinned(a, a) && Thinned(a, [])
  {
  }

  lemma ThinnedWithout(a: seq<nat>, k: nat)
    requires Distinct(a) && k < |a|
    ensures Thinned(a, a[..k] + a[k + 1..])
  {
    var b := a[..k] + a[k + 1..];
    forall x, y | Ahead(a, x, y) && x in b && y in b
      ensures Ahead(b, x, y)
    {
      var i, j :| 0 <= i < j < |a| && a[i] == x && a[j] == y;
      assert b[if i < k then i else i - 1] == x;
      assert b[if j < k then j else j - 1] == y;
    }
  }

  lemma ThinnedRemove(a: seq<nat>, t: nat)
    requires Distinct(a)
    ensures Thinned(a, Remove(a, t))
  {
    hide Remove, Thinned;
    if t in a {
      var k := FirstIndex(a, t);
      RemoveIs(a, t, k);
      ThinnedWithout(a, k);
    } else {
      RemoveAbsent(a, t);
      ThinnedSelf(a);
    }
  }

  lemma WakeFirstLists(s: Sched, w: nat, v: nat)
    requires Shaped(s) && WaitList(s, w) != [] && Known(s, WaitList(s, w)[0])
    ensures WaitList(WakeFirst(s, w), v) == if v == w then WaitList(s, w)[1..] else WaitList(s, v)
  {
  }

  lemma {:induction false} WakeAllLists(s: Sched, w: nat, v: nat)
    requires Shaped(s) && KnownAll(s, WaitList(s, w))
    ensures WaitList(WakeAll(s, w), v) == if v == w then [] else WaitList(s, v)
    decreases |WaitList(s, w)|
  {
    hide Known, Shaped, WakeFirst;
    if WaitList(s, w) != [] {
      WakeShaped(s, w);
      WakeFirstLists(s, w, v);
      WakeAllLists(WakeFirst(s, w), w, v);
    }
  }

  lemma TimeoutLists(s: Sched, t: nat, v: nat)
    requires |s.ready| == PRIOS && Known(s, t)
    ensures WaitList(Timeout(s, t), v) == WaitList(s, v) || WaitList(Timeout(s, t), v) == Remove(WaitList(s, v), t)
  {
    hide Remove;
  }

  lemma ExitLists(s: Sched, v: nat)
    requires Shaped(s) && KnownAll(s, WaitList(s, JOIN))
    ensures WaitList(Exit(s), v) == WaitList(s, v) || WaitList(Exit(s), v) == []
  {
    hide WakeAll;
    if !s.info[s.current].detached {
      ZombieShaped(s);
      WakeAllLists(s.(state := s.state[s.current := Zombie], pending := true), JOIN, v);
    }
  }

  lemma PickLists(s: Sched, v: nat)
    requires Shaped(s) && BitsOk(s.ready, s.active)
    requires forall p, i :: 0 <= p < PRIOS && 0 <= i < |s.ready[p]| ==> s.ready[p][i] in s.info
    ensures WaitList(Pick(s), v) == WaitList(s, v)
  {
    hide Highest;
    RequeueBits(s);
  }

  /** Every step only thins a wait list, or puts the current thread in its turn. */
  lemma StepLists(s: Sched, a: Action, w: nat)
    requires Core(s)
    ensures Keyed(s.prio, WaitList(s, w))
    ensures if a == SleepList(w) && MaySleep(s) then s.current in s.prio && Step(s, a).prio == s.prio
        && WaitList(Step(s, a), w) == Insert(s.prio, WaitList(s, w), s.current)
      else Thinned(WaitList(s, w), WaitList(Step(s, a), w))
  {
    hide Core, KnownAll, Pick, WakeAll, WakeFirst, Insert, Create, Timeout, Exit, Shaped, Thinned;
    CoreShaped(s);
    ListKeyed(s, w);
    ListDistinct(s, w);
    ThinnedSelf(WaitList(s, w));
    match a
    case SleepList(v) => if MaySleep(s) { ListKeyed(s, v); Runner(s); }
    case Wake(v, all) =>
      ListKnown(s, v);
      if all {
        WakeAllLists(s, v, w);
      } else if WaitList(s, v) != [] {
        FirstWaiter(s, v);
        WakeFirstLists(s, v, w);
        ThinnedTail(WaitList(s, w));
      }
    case TimeUp(t) =>
      if t in s.state && Known(s, t) {
        ShapedReady(s);
        TimeoutLists(s, t, w);
        ThinnedRemove(WaitList(s, w), t);
      }
    case Switch =>
      SwitchReady(s);
      PickLists(if s.switching then s else s.(pending := false), w);
    case Leave =>
      ListKnown(s, JOIN);
      ExitLists(s, w);
    case Spawn(t, prio, detached) =>
      ShapedReady(s);
      CreateLists(s, t, prio, detached, w);
    case _ =>
  }

  lemma ThinnedTail(a: seq<nat>)
    requires Distinct(a)
    ensures a != [] ==> Thinned(a, a[1..])
  {
    hide Thinned;
    if a != [] {
      ThinnedWithout(a, 0);
      assert a[..0] + a[1..] == a[1..];
    }
  }

  lemma CreateLists(s: Sched, t: nat, prio: nat, detached: bool, w: nat)
    requires |s.ready| == PRIOS
    ensures WaitList(Create(s, t, prio, detached), w) == WaitList(s, w)
  {
  }

  lemma Runner(s: Sched)
    requires Core(s)
    ensures Known(s, s.current)
  {
    hide Queues, Waits, Tasks, OneRuns, BitsOk;
  }

  lemma InsertedAt(key: map<nat, int>, q: seq<nat>, t: nat, i: nat)
    requires t in key && Keyed(key, q) && i <= |q|
    ensures var k := Place(key, q, t); Insert(key, q, t)[i] == if i < k then q[i] else if i == k then t else q[i - 1]
  {
    hide Place;
  }

  /** Insertion keeps the order of the others. */
  lemma InsertKeeps(key: map<nat, int>, q: seq<nat>, t: nat, x: nat, y: nat)
    requires t in key && Keyed(key, q) && Ahead(q, x, y)
    ensures Ahead(Insert(key, q, t), x, y)
  {
    hide Place, Insert;
    var i, j :| 0 <= i < j < |q| && q[i] == x && q[j] == y;
    var k := Place(key, q, t);
    var i1, j1 := if i < k then i else i + 1, if j < k then j else j + 1;
    InsertedAt(key, q, t, i1);
    InsertedAt(key, q, t, j1);
  }

  /** A newcomer goes behind those of its priority. */
  lemma InsertBehind(key: map<nat, int>, q: seq<nat>, t: nat, x: nat)
    requires t in key && Keyed(key, q) && Descending(key, q) && x in q && key[x] == key[t]
    ensures Ahead(Insert(key, q, t), x, t)
  {
    hide Place, Insert;
    InsertSorted(key, q, t);
    var i :| 0 <= i < |q| && q[i] == x;
    var k := Place(key, q, t);
    InsertedAt(key, q, t, i);
    InsertedAt(key, q, t, k);
  }

  lemma InsertAdds(key: map<nat, int>, q: seq<nat>, t: nat, z: nat)
    requires t in key && Keyed(key, q) && z in Insert(key, q, t)
    ensures z == t || z in q
  {
    hide Place;
  }

  lemma ListSorted(s: Sched, w: nat)
    requires Core(s)
    ensures Keyed(s.prio, WaitList(s, w)) && Descending(s.prio, WaitList(s, w))
  {
    hide Queues, BitsOk, Tasks, OneRuns, Apart, Distinct;
    if w in s.waits { assert ListOk(s, s.waits[w]); }
  }

  /** Through every step: two waiters that stay on a list keep their order. */
  lemma StepOrder(s: Sched, a: Action, w: nat, x: nat, y: nat)
    requires Core(s) && Ahead(WaitList(s, w), x, y) && x in WaitList(Step(s, a), w) && y in WaitList(Step(s, a), w)
    ensures Ahead(WaitList(Step(s, a), w), x, y)
  {
    hide Core, Step, Ahead, Insert, MaySleep;
    StepLists(s, a, w);
    if a == SleepList(w) && MaySleep(s) { InsertKeeps(s.prio, WaitList(s, w), s.current, x, y); }
  }

  /** A thread that joins a list goes behind every waiter of its priority. */
  lemma StepJoins(s: Sched, a: Action, w: nat, u: nat, t: nat)
    requires Core(s) && u in WaitList(s, w) && t !in WaitList(s, w) && t in WaitList(Step(s, a), w)
    ensures u in Step(s, a).prio && t in Step(s, a).prio
    ensures Step(s, a).prio[u] == Step(s, a).prio[t] ==> Ahead(WaitList(Step(s, a), w), u, t)
  {
    hide Core, Step, Ahead, Insert, MaySleep, Thinned;
    StepLists(s, a, w);
    ListSorted(s, w);
    if a == SleepList(w) && MaySleep(s) {
      InsertAdds(s.prio, WaitList(s, w), s.current, t);
      if s.prio[u] == s.prio[t] { InsertBehind(s.prio, WaitList(s, w), s.current, u); }
    } else {
      ThinnedIn(WaitList(s, w), WaitList(Step(s, a), w), t);
    }
  }

  lemma ThinnedIn(a: seq<nat>, b: seq<nat>, t: nat)
    requires Thinned(a, b) && t in b
    ensures t in a
  {
  }

  // ---------------------------------------------------------------------
  // Priorities of waiters
  // ---------------------------------------------------------------------

  lemma WaiterSleeps(s: Sched, w: nat, t: nat)
    requires Core(s) && t in WaitList(s, w)
    ensures Known(s, t) && s.state[t] == Sleeping
  {
    hide Queues, BitsOk, Tasks, OneRuns, Apart, Distinct, Descending;
    assert ListOk(s, s.waits[w]);
  }

  lemma {:induction false} WakeAllPrio(s: Sched, w: nat)
    requires Shaped(s) && KnownAll(s, WaitList(s, w))
    ensures WakeAll(s, w).prio == s.prio
    decreases |WaitList(s, w)|
  {
    hide Known, Shaped, WakeFirst;
    if WaitList(s, w) != [] {
      WakeShaped(s, w);
      WakeAllPrio(WakeFirst(s, w), w);
    }
  }

  lemma ExitPrio(s: Sched, t: nat)
    requires Shaped(s) && KnownAll(s, WaitList(s, JOIN)) && t in s.prio && t != s.current
    ensures t in Exit(s).prio && Exit(s).prio[t] == s.prio[t]
  {
    hide WakeAll;
    if !s.info[s.current].detached {
      ZombieShaped(s);
      WakeAllPrio(s.(state := s.state[s.current := Zombie], pending := true), JOIN);
    }
  }

  lemma PickPrio(s: Sched)
    requires Shaped(s) && BitsOk(s.ready, s.active)
    requires forall p, i :: 0 <= p < PRIOS && 0 <= i < |s.ready[p]| ==> s.ready[p][i] in s.info
    ensures Pick(s).prio == s.prio
  {
    hide Highest, Requeue, BitsOk, Shaped;
    RequeuePrio(s);
  }

  lemma RequeuePrio(s: Sched)
    requires Shaped(s)
    ensures |s.ready| == PRIOS && Known(s, s.current) && Requeue(s).prio == s.prio
  {
    hide Enqueue;
    EnqueuePrio(s, s.current);
  }

  lemma ReleasePrio(s: Sched, t: nat, u: nat)
    requires |s.ready| == PRIOS && Known(s, t) && u in s.prio && (u == t ==> s.info[t].refs >= 2)
    ensures u in Release(s, t).prio && Release(s, t).prio[u] == s.prio[u]
  {
  }

  lemma DropLeaves(s: Sched, t: nat)
    requires Core(s) && Droppable(s, t) && s.state[t] == Sleeping
    ensures s.info[t].refs >= 2
  {
    hide Queues, Waits, BitsOk, OneRuns;
  }

  /** No step changes the priority of a sleeping thread. */
  lemma StepPrio(s: Sched, a: Action, t: nat)
    requires Core(s) && Known(s, t) && s.state[t] == Sleeping
    ensures t in Step(s, a).prio && Step(s, a).prio[t] == s.prio[t]
  {
    hide Core, Sound, KnownAll, Pick, WakeAll, WakeFirst, Insert, Exit, Shaped, Release, Unlisted, Enqueue, Rouse;
    CoreShaped(s);
    ShapedReady(s);
    match a
    case Spawn(v, prio, detached) => if v !in s.state { CreatePrio(s, v, prio, detached, t); }
    case RunTask(v) => if v in s.state && Known(s, v) { EnqueuePrio(s, v); }
    case RunAgain(v) => if v in s.state && Known(s, v) { EnqueuePrio(s, v); }
    case Wake(v, all) =>
      ListKnown(s, v);
      if all {
        WakeAllPrio(s, v);
      } else if WaitList(s, v) != [] {
        FirstWaiter(s, v);
        WakeShaped(s, v);
      }
    case TimeUp(v) => if v in s.state && Known(s, v) { RousePrio(s.(waits := Unlisted(s.waits, v)), v); }
    case Switch =>
      SwitchReady(s);
      PickPrio(if s.switching then s else s.(pending := false));
    case Leave =>
      ListKnown(s, JOIN);
      if MaySleep(s) { ExitPrio(s, t); }
    case JoinThread(v) =>
      if Joinable(s, v) { ReleasePrio(s.(info := s.info[v := s.info[v].(base := false)]), v, t); }
    case Drop(v) =>
      if Droppable(s, v) {
        if v == t { DropLeaves(s, t); }
        ReleasePrio(s, v, t);
      }
    case _ =>
  }

  lemma EnqueuePrio(s: Sched, v: nat)
    requires |s.ready| == PRIOS && Known(s, v)
    ensures Enqueue(s, v).prio == s.prio
  {
  }

  lemma RousePrio(s: Sched, v: nat)
    requires |s.ready| == PRIOS && Known(s, v)
    ensures Rouse(s, v).prio == s.prio
  {
  }

  lemma CreatePrio(s: Sched, v: nat, prio: nat, detached: bool, t: nat)
    requires |s.ready| == PRIOS && t in s.prio && v != t
    ensures t in Create(s, v, prio, detached).prio && Create(s, v, prio, detached).prio[t] == s.prio[t]
  {
  }

  // ---------------------------------------------------------------------
  // The longest waiting
  // ---------------------------------------------------------------------

  /** Backwards through one step: who is ahead now was on the list and ahead
      before, if the other was on it. */
  lemma AheadBefore(s: Sched, a: Action, w: nat, t: nat, u: nat)
    requires Core(s) && Core(Step(s, a)) && u in WaitList(s, w) && Ahead(WaitList(Step(s, a), w), t, u)
    requires t in Step(s, a).prio && u in Step(s, a).prio && Step(s, a).prio[t] == Step(s, a).prio[u]
    ensures t in WaitList(s, w) && Ahead(WaitList(s, w), t, u)
    ensures t in s.prio && u in s.prio && s.prio[t] == s.prio[u]
  {
    hide Core, Step, Ahead;
    var z := Step(s, a);
    ListDistinct(z, w);
    AheadOnce(WaitList(z, w), t, u);
    if t !in WaitList(s, w) { StepJoins(s, a, w, u, t); }
    AheadOr(WaitList(s, w), t, u);
    if Ahead(WaitList(s, w), u, t) { StepOrder(s, a, w, u, t); }
    WaiterSleeps(s, w, t);
    WaiterSleeps(s, w, u);
    StepPrio(s, a, t);
    StepPrio(s, a, u);
  }

  lemma {:induction false} AheadThroughout(idle: nat, actions: seq<Action>, m: nat, n: nat, w: nat, t: nat, u: nat)
    requires AdmissibleRun(Boot(idle), actions) && m <= n <= |actions|
    requires forall k :: m <= k <= n ==> u in WaitList(StateAt(idle, actions, k), w)
    requires var z := StateAt(idle, actions, n);
      Ahead(WaitList(z, w), t, u) && t in z.prio && u in z.prio && z.prio[t] == z.prio[u]
    ensures forall k :: m <= k <= n ==> t in WaitList(StateAt(idle, actions, k), w)
    decreases n
  {
    hide Core, Step, StateAt, Ahead, AdmissibleRun, Boot, WaitList;
    CoreAt(idle, actions, n);
    ListDistinct(StateAt(idle, actions, n), w);
    AheadOnce(WaitList(StateAt(idle, actions, n), w), t, u);
    if m < n {
      StateNext(idle, actions, n - 1);
      AheadBefore(StateAt(idle, actions, n - 1), actions[n - 1], w, t, u);
      AheadThroughout(idle, actions, m, n - 1, w, t, u);
    }
  }

  /** In every run, the thread a single wakeup picks has the highest priority on
      the list, and no other of its priority has waited longer: however far back
      another has been on the list without a break, so has the one picked. */
  lemma WakesLongestWaiting(idle: nat, actions: seq<Action>, m: nat, w: nat, u: nat)
    requires AdmissibleRun(Boot(idle), actions) && m <= |actions|
    requires forall k :: m <= k <= |actions| ==> u in WaitList(StateAt(idle, actions, k), w)
    ensures var z := StateAt(idle, actions, |actions|);
      && WaitList(z, w) != []
      && var t := WaitList(z, w)[0];
         && t in z.prio && u in z.prio && z.prio[t] >= z.prio[u]
         && (z.prio[t] == z.prio[u] ==> forall k :: m <= k <= |actions| ==> t in WaitList(StateAt(idle, actions, k), w))
  {
    hide Core, Step, StateAt, AdmissibleRun, Boot, WaitList;
    var n := |actions|;
    var z := StateAt(idle, actions, n);
    CoreAt(idle, actions, n);
    var q := WaitList(z, w);
    var t := q[0];
    var i :| 0 <= i < |q| && q[i] == u;
    ListSorted(z, w);
    if z.prio[t] == z.prio[u] && u != t {
      assert Ahead(q, t, u);
      AheadThroughout(idle, actions, m, n, w, t, u);
    }
  }
}
