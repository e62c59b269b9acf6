/** Mutexes and condition variables on top of the scheduler, for any number of
    threads: who holds what, who waits, and who is about to try again. */
module Mutex {
  import opened Common
  import opened WaitLists
  import opened Scheduler
  import opened SchedulerRuns

  /** A thread inside the slow path of locking m tries again whenever it runs. */
  datatype Pc = Out | Locking(m: nat)

  /** `bit` holds the mutexes whose lock bit is set. `holds` records which
      threads returned from locking and have not unlocked; only unlocking, which
      demands that the caller holds the mutex, looks at it. */
  datatype Kernel = Kernel(s: Sched, mutexes: set<nat>, bit: set<nat>, pc: map<nat, Pc>, holds: map<nat, set<nat>>)

  function PcOf(k: Kernel, t: nat): Pc { if t in k.pc then k.pc[t] else Out }

  function HeldBy(k: Kernel, t: nat): set<nat> { if t in k.holds then k.holds[t] else {} }

  function Waiters(k: Kernel, m: nat): seq<nat> { WaitList(k.s, m) }

  /** The word the fast paths compare: the list head, which is never odd, with
      the lock bit in its lowest bit. */
  function Word(k: Kernel, m: nat): nat {
    (if Waiters(k, m) == [] then 0 else 2 * (Waiters(k, m)[0] + 1)) + if m in k.bit then 1 else 0
  }

  lemma WordSays(k: Kernel, m: nat)
    ensures Word(k, m) == 0 <==> m !in k.bit && Waiters(k, m) == []
    ensures Word(k, m) == 1 <==> m in k.bit && Waiters(k, m) == []
  {
  }

  // ---------------------------------------------------------------------
  // Steps
  // ---------------------------------------------------------------------

  /** The current thread runs its own code. */
  predicate Acting(k: Kernel) { MaySleep(k.s) && PcOf(k, k.s.current) == Out }

  function Take(k: Kernel, m: nat): Kernel {
    k.(bit := k.bit + {m}, pc := k.pc[k.s.current := Out],
       holds := k.holds[k.s.current := HeldBy(k, k.s.current) + {m}])
  }

  function Give(k: Kernel, m: nat): Kernel {
    k.(bit := k.bit - {m}, holds := k.holds[k.s.current := HeldBy(k, k.s.current) - {m}])
  }

  /** `mutex_unlock_sched_locked`: the first waiter becomes ready. */
  function UnlockSlow(k: Kernel, m: nat): Kernel
    requires Core(k.s)
  {
    var k1 := Give(k, m);
    if Waiters(k, m) == [] then k1
    else
      FirstWaiter(k.s, m);
      k1.(s := WakeFirst(k.s, m))
  }

  /** One test of the loop in `mutex_lock_sched_locked`. */
  function LockTurn(k: Kernel, m: nat): Kernel
    requires Core(k.s) && MaySleep(k.s)
  {
    if m in k.bit then
      ListKeyed(k.s, m);
      k.(s := SleepOn(k.s, m))
    else Take(k, m)
  }

  datatype KAction =
    | LockFast(m: nat) | LockEnter(m: nat) | Retry | TryLock(m: nat) | UnlockFast(m: nat) | Unlock(m: nat)
    | CondWait(c: nat, m: nat) | Plain(a: Action)

  /** What threads and interrupts do besides locking: no mutex's list is slept
      on, woken or timed out directly, and the current thread only goes to sleep
      or exits from its own code. */
  predicate Outside(k: Kernel, a: Action) {
    match a
    case SleepList(w) => w !in k.mutexes && PcOf(k, k.s.current) == Out
    case SleepTime => PcOf(k, k.s.current) == Out
    case Wake(w, _) => w !in k.mutexes
    case TimeUp(t) => forall m :: m in k.mutexes ==> t !in Waiters(k, m)
    case Leave => PcOf(k, k.s.current) == Out
    case _ => true
  }

  function KStep(k: Kernel, a: KAction): Kernel
    requires Core(k.s)
  {
    match a
    case LockFast(m) =>
      if m in k.mutexes && Acting(k) && Word(k, m) == 0 then Take(k, m) else k
    case LockEnter(m) =>
      if m in k.mutexes && Acting(k) && m !in HeldBy(k, k.s.current) then
        k.(pc := k.pc[k.s.current := Locking(m)])
      else k
    case Retry =>
      if MaySleep(k.s) && PcOf(k, k.s.current).Locking? then LockTurn(k, PcOf(k, k.s.current).m) else k
    case TryLock(m) =>
      if m in k.mutexes && Acting(k) && m !in k.bit then Take(k, m) else k
    case UnlockFast(m) =>
      if m in k.mutexes && Acting(k) && m in HeldBy(k, k.s.current) && Word(k, m) == 1 then Give(k, m) else k
    case Unlock(m) =>
      if m in k.mutexes && Acting(k) && m in HeldBy(k, k.s.current) then UnlockSlow(k, m) else k
    case CondWait(c, m) =>
      if m in k.mutexes && c !in k.mutexes && Acting(k) && m in HeldBy(k, k.s.current) then CondSleep(k, c, m) else k
    case Plain(a) => if Outside(k, a) then k.(s := Step(k.s, a)) else k
  }

  /** `cond_wait`: the mutex is let go and the thread put on the condition's
      list in one stretch; once woken it locks again. */
  function CondSleep(k: Kernel, c: nat, m: nat): Kernel
    requires Core(k.s) && MaySleep(k.s)
  {
    var k1 := UnlockSlow(k, m);
    if !Core(k1.s) || !MaySleep(k1.s) then k1
    else
      ListKeyed(k1.s, c);
      k1.(s := SleepOn(k1.s, c), pc := k1.pc[k1.s.current := Locking(m)])
  }

  // ---------------------------------------------------------------------
  // Invariant
  // ---------------------------------------------------------------------

  predicate Awake(s: Sched, t: nat) {
    t in s.state && t in s.info && s.info[t].thread && (s.state[t] == Ready || s.state[t] == Running)
  }

  /** A lock bit is set exactly while one thread, and no other, holds. */
  ghost predicate Exclusive(k: Kernel) {
    && (forall m, t, u :: m in HeldBy(k, t) && m in HeldBy(k, u) ==> t == u)
    && (forall m, t :: m in HeldBy(k, t) ==> m in k.bit)
    && (forall m :: m in k.bit ==> exists t :: m in HeldBy(k, t))
  }

  /** Everybody on a mutex's list is in its slow path, and everybody in a slow
      path is a live thread. */
  ghost predicate InLine(k: Kernel) {
    && (forall m, t :: m in k.mutexes && t in Waiters(k, m) ==> PcOf(k, t) == Locking(m))
    && (forall t :: PcOf(k, t).Locking? ==> t != k.s.idle && Alive(k.s, t) && PcOf(k, t).m in k.mutexes)
  }

  predicate Alive(s: Sched, t: nat) {
    t in s.state && t in s.info && s.info[t].thread && (s.state[t] == Ready || s.state[t] == Running || s.state[t] == Sleeping)
  }

  /** Whenever a mutex is free and somebody waits for it, some thread that is
      ready or running is still going to try for it. */
  ghost predicate NobodyStranded(k: Kernel) {
    forall m :: m in k.mutexes && m !in k.bit && Waiters(k, m) != [] ==> Contender(k, m)
  }

  ghost predicate Contender(k: Kernel, m: nat) { exists t :: PcOf(k, t) == Locking(m) && Awake(k.s, t) }

  ghost predicate KInv(k: Kernel) {
    Inv(k.s) && Exclusive(k) && InLine(k) && NobodyStranded(k) && JOIN !in k.mutexes
  }

  // ---------------------------------------------------------------------
  // What scheduler steps leave alone
  // ---------------------------------------------------------------------

  /** Threads in slow paths stay alive, awake ones stay awake, and the mutexes'
      lists stay as they are. */
  ghost predicate Calm(k: Kernel, z: Sched) {
    && z.idle == k.s.idle
    && (forall t :: PcOf(k, t).Locking? && Alive(k.s, t) ==> Alive(z, t))
    && (forall t :: PcOf(k, t).Locking? && Awake(k.s, t) ==> Awake(z, t))
    && (forall m :: m in k.mutexes ==> WaitList(z, m) == WaitList(k.s, m))
  }

  lemma ExclusiveSame(k: Kernel, z: Kernel)
    requires Exclusive(k) && z.bit == k.bit && z.holds == k.holds
    ensures Exclusive(z)
  {
    assert forall t :: HeldBy(z, t) == HeldBy(k, t);
  }

  lemma CalmKeeps(k: Kernel, z: Sched)
    requires KInv(k) && Inv(z) && Calm(k, z)
    ensures KInv(k.(s := z))
  {
    hide Inv, Alive, Awake, Exclusive;
    var k1 := k.(s := z);
    ExclusiveSame(k, k1);
    assert forall t :: PcOf(k1, t) == PcOf(k, t);
    assert forall m :: m in k.mutexes ==> Waiters(k1, m) == Waiters(k, m);
    forall m | m in k.mutexes && m !in k.bit && Waiters(k1, m) != []
      ensures Contender(k1, m)
    {
      assert Contender(k, m);
      var t :| PcOf(k, t) == Locking(m) && Awake(k.s, t);
      assert PcOf(k1, t) == Locking(m);
    }
  }

  // ---------------------------------------------------------------------
  // Scheduler steps are calm
  // ---------------------------------------------------------------------

  /** One task changes, and is either in no slow path, or stays a thread that
      is awake or in the state it was in. */
  lemma CalmChange(k: Kernel, z: Sched, t: nat)
    requires InLine(k) && z.idle == k.s.idle
    requires forall x :: x in k.s.state && x != t ==> x in z.state && z.state[x] == k.s.state[x]
    requires forall x :: x in k.s.info && x != t ==> x in z.info && z.info[x] == k.s.info[x]
    requires PcOf(k, t) == Out || StillThread(k.s, z, t)
    requires forall m :: m in k.mutexes ==> WaitList(z, m) == WaitList(k.s, m)
    ensures Calm(k, z)
  {
  }

  predicate StillThread(s: Sched, z: Sched, t: nat) {
    && t in z.state && t in z.info && z.info[t].thread && t in s.state
    && (z.state[t] == Ready || z.state[t] == Running || z.state[t] == s.state[t])
  }

  lemma CalmTrans(k: Kernel, s1: Sched, z: Sched)
    requires InLine(k) && Calm(k, s1) && Calm(k.(s := s1), z)
    ensures Calm(k, z)
  {
    hide Alive, Awake;
    var k1 := k.(s := s1);
    assert forall t :: PcOf(k1, t) == PcOf(k, t);
  }

  lemma CalmInLine(k: Kernel, s1: Sched)
    requires InLine(k) && Calm(k, s1)
    ensures InLine(k.(s := s1))
  {
    hide Alive, Awake;
    var k1 := k.(s := s1);
    assert forall t :: PcOf(k1, t) == PcOf(k, t);
    assert forall m :: m in k.mutexes ==> Waiters(k1, m) == Waiters(k, m);
  }

  lemma RouseState(s: Sched, t: nat)
    requires |s.ready| == PRIOS && Known(s, t)
    ensures var z := Rouse(s, t);
      && z.state == s.state[t := if t == s.current then Running else Ready]
      && z.info == s.info && z.idle == s.idle && z.waits == s.waits && z.current == s.current
  {
  }

  lemma WakeFirstState(s: Sched, w: nat)
    requires Shaped(s) && WaitList(s, w) != [] && Known(s, WaitList(s, w)[0])
    ensures var z := WakeFirst(s, w);
      var t := WaitList(s, w)[0];
      && t in s.state && z.state == s.state[t := if t == s.current then Running else Ready]
      && z.info == s.info && z.idle == s.idle && z.current == s.current && z.switching == s.switching
      && z.waits == s.waits[w := WaitList(s, w)[1..]]
  {
    hide Rouse;
    var s1 := s.(waits := s.waits[w := WaitList(s, w)[1..]]);
    RouseState(s1, WaitList(s, w)[0]);
    RouseFields(s1, WaitList(s, w)[0]);
  }

  lemma WaiterIsThread(s: Sched, w: nat)
    requires Inv(s) && WaitList(s, w) != []
    ensures var t := WaitList(s, w)[0]; t in s.state && s.state[t] == Sleeping && t in s.info && s.info[t].thread
  {
    hide Queues, BitsOk, Waits, OneRuns, Ordered;
    InvShaped(s);
    FirstWaiter(s, w);
  }

  lemma WakeFirstCalm(k: Kernel, w: nat)
    requires KInv(k) && w !in k.mutexes && Waiters(k, w) != [] && Shaped(k.s) && Known(k.s, Waiters(k, w)[0])
    ensures Calm(k, WakeFirst(k.s, w))
  {
    hide Inv, WakeFirst, Shaped, Known, Exclusive, NobodyStranded;
    WakeFirstState(k.s, w);
    WaiterIsThread(k.s, w);
    CalmChange(k, WakeFirst(k.s, w), Waiters(k, w)[0]);
  }

  lemma {:induction false} WakeAllCalm(k: Kernel, w: nat)
    requires KInv(k) && w !in k.mutexes && Shaped(k.s) && KnownAll(k.s, Waiters(k, w))
    ensures KInv(k.(s := WakeAll(k.s, w)))
    decreases |Waiters(k, w)|
  {
    hide Inv, WakeFirst, Shaped, Known, Exclusive, NobodyStranded, InLine, Calm;
    if Waiters(k, w) != [] {
      WakeKeeps(k.s, w);
      WakeShaped(k.s, w);
      WakeFirstCalm(k, w);
      CalmKeeps(k, WakeFirst(k.s, w));
      WakeAllCalm(k.(s := WakeFirst(k.s, w)), w);
    } else {
      assert k.(s := k.s) == k;
    }
  }

  /** Threads in a slow path are neither new, nor tasks without a stack, nor
      zombies. */
  lemma NotLocking(k: Kernel, t: nat)
    requires InLine(k)
    requires t !in k.s.state || t !in k.s.info || !k.s.info[t].thread || k.s.state[t] == Zombie || k.s.state[t] == Inert
    ensures PcOf(k, t) == Out
  {
  }

  lemma EnqueueCalm(k: Kernel, s1: Sched, t: nat)
    requires InLine(k) && |s1.ready| == PRIOS && Known(s1, t) && s1.idle == k.s.idle && s1.waits == k.s.waits
    requires forall x :: x in k.s.state && x != t ==> x in s1.state && s1.state[x] == k.s.state[x]
    requires forall x :: x in k.s.info && x != t ==> x in s1.info && s1.info[x] == k.s.info[x]
    requires PcOf(k, t) == Out || (t in k.s.state && s1.info[t].thread)
    ensures Calm(k, Enqueue(s1, t))
  {
    hide InLine, Calm;
    CalmChange(k, Enqueue(s1, t), t);
  }

  lemma PendingCalm(k: Kernel, s1: Sched, pending: bool)
    requires Calm(k, s1)
    ensures Calm(k, s1.(pending := pending))
  {
  }

  lemma ReleaseCalm(k: Kernel, s1: Sched, t: nat)
    requires InLine(k) && |s1.ready| == PRIOS && Known(s1, t) && s1.idle == k.s.idle && s1.waits == k.s.waits && s1.state == k.s.state
    requires forall x :: x in k.s.info && x != t ==> x in s1.info && s1.info[x] == k.s.info[x]
    requires PcOf(k, t) == Out || (s1.info[t].thread && s1.info[t].refs >= 2)
    ensures Calm(k, Release(s1, t))
  {
    hide InLine, Calm, Enqueue;
    var refs := if s1.info[t].refs == 0 then 0 else s1.info[t].refs - 1;
    if refs > 0 {
      CalmChange(k, Release(s1, t), t);
    } else {
      EnqueueCalm(k, s1.(info := s1.info[t := s1.info[t].(thread := false, refs := 0)], prio := s1.prio[t := 1]), t);
    }
  }

  lemma TimeoutCalm(k: Kernel, t: nat)
    requires KInv(k) && t in k.s.state && Known(k.s, t) && |k.s.ready| == PRIOS && forall m :: m in k.mutexes ==> t !in Waiters(k, m)
    ensures Calm(k, Timeout(k.s, t))
  {
    hide Inv, Exclusive, NobodyStranded, Rouse, InLine;
    if k.s.state[t] == Sleeping {
      var s1 := k.s.(waits := Unlisted(k.s.waits, t));
      forall m | m in k.mutexes
        ensures WaitList(s1, m) == WaitList(k.s, m)
      {
        if m in k.s.waits { RemoveAbsent(k.s.waits[m], t); }
      }
      RouseState(s1, t);
      SleeperIsThread(k.s, t);
      CalmChange(k, Timeout(k.s, t), t);
    }
  }

  lemma SleeperIsThread(s: Sched, t: nat)
    requires Inv(s) && t in s.state && s.state[t] == Sleeping
    ensures t in s.info && s.info[t].thread
  {
    hide Queues, BitsOk, Waits, OneRuns, Ordered;
    assert Known(s, t);
  }

  lemma RequeueCalm(k: Kernel, s: Sched)
    requires InLine(k) && Core(s) && s == k.s.(pending := s.pending)
    ensures Known(s, s.current) && Calm(k, Requeue(s))
  {
    hide Queues, BitsOk, Waits, OneRuns, InLine, Enqueue;
    assert Known(s, s.current);
    if s.state[s.current] == Running {
      EnqueueCalm(k, s, s.current);
    } else {
      if !s.info[s.current].thread {
        NotLocking(k, s.current);
      }
      CalmChange(k, s, s.current);
    }
  }

  lemma DispatchCalm(k: Kernel, s: Sched, z: Sched, t: nat)
    requires InLine(k) && k.s == s && t in s.state && t in s.info
    requires s.state[t] == Ready || (t == s.idle && s.info[t].thread)
    requires z.state == s.state[t := if s.info[t].thread then Running else Inert] && z.info == s.info
    requires z.idle == s.idle && z.waits == s.waits
    ensures Calm(k, z)
  {
    hide Calm;
    if !s.info[t].thread {
      NotLocking(k, t);
    }
    CalmChange(k, z, t);
  }

  lemma DispatchFields(s: Sched, h: nat, t: nat)
    requires h < |s.ready| && s.ready[h] != [] && t in s.info
    ensures var z := Dispatch(Dequeue(s, h), t);
      z.state == s.state[t := if s.info[t].thread then Running else Inert] && z.info == s.info && z.idle == s.idle && z.waits == s.waits
  {
  }

  lemma HeadReady(s: Sched, p: nat)
    requires Core(s) && p < PRIOS && s.ready[p] != []
    ensures var t := s.ready[p][0]; t in s.state && s.state[t] == Ready && t in s.info
  {
    hide Waits, Tasks, OneRuns, BitsOk, Distinct;
    assert QueueOk(s, p, s.ready[p]) && Placed(s, p, s.ready[p][0]) && Known(s, s.ready[p][0]);
  }

  lemma IdleFacts(s: Sched)
    requires Core(s)
    ensures s.idle in s.state && s.idle in s.info && s.info[s.idle].thread
  {
    hide Waits, Queues, OneRuns, BitsOk;
    assert Known(s, s.idle);
  }

  lemma PickCalm(k: Kernel, s: Sched)
    requires InLine(k) && Core(s) && s == k.s.(pending := s.pending)
    requires forall p, i :: 0 <= p < PRIOS && 0 <= i < |s.ready[p]| ==> s.ready[p][i] in s.info
    ensures Calm(k, Pick(s))
  {
    hide Core, Requeue, Dequeue, BitsOk, Shaped, Known, InLine, Calm;
    RequeueBits2(s);
    RequeueCore(s);
    RequeueCalm(k, s);
    ShapedReady(s);
    var s1 := Requeue(s);
    ShapedReady(s1);
    CalmInLine(k, s1);
    IdleFacts(s1);
    if s1.active == {} {
      DispatchCalm(k.(s := s1), s1, Pick(s), s1.idle);
    } else {
      var h := Highest(s1.active, PRIOS);
      HeadReady(s1, h);
      DispatchFields(s1, h, s1.ready[h][0]);
      DispatchCalm(k.(s := s1), s1, Pick(s), s1.ready[h][0]);
    }
    CalmTrans(k, s1, Pick(s));
  }

  // ---------------------------------------------------------------------
  // Plain steps keep the invariant
  // ---------------------------------------------------------------------

  lemma AddCalm(k: Kernel, t: nat, prio: nat, detached: bool)
    requires InLine(k) && t !in k.s.state && |k.s.ready| == PRIOS
    ensures Calm(k, Create(k.s, t, prio, detached)) && Calm(k, Declare(k.s, t, prio))
  {
    hide Calm, InLine, Enqueue;
    NotLocking(k, t);
    CalmChange(k, Declare(k.s, t, prio), t);
    var s1 := k.s.(state := k.s.state[t := Inert], prio := k.s.prio[t := ThreadPrio(prio)], info := k.s.info[t := Info(true, detached, true, 1)]);
    EnqueueCalm(k, s1, t);
    PendingCalm(k, Enqueue(s1, t), true);
  }

  lemma TaskRunCalm(k: Kernel, t: nat)
    requires InLine(k) && t in k.s.state && Known(k.s, t) && !k.s.info[t].thread && |k.s.ready| == PRIOS
    ensures Calm(k, TaskRun(k.s, t)) && Calm(k, Enqueue(k.s, t))
  {
    hide Calm, InLine, Enqueue;
    NotLocking(k, t);
    EnqueueCalm(k, k.s, t);
    PendingCalm(k, Enqueue(k.s, t), true);
    CalmChange(k, k.s, t);
    PendingCalm(k, k.s, true);
  }

  lemma SleepCalm(k: Kernel, w: nat)
    requires InLine(k) && MaySleep(k.s) && PcOf(k, k.s.current) == Out && w !in k.mutexes
    requires Known(k.s, k.s.current) && Keyed(k.s.prio, WaitList(k.s, w))
    ensures Calm(k, SleepOn(k.s, w)) && Calm(k, SleepUntil(k.s))
  {
    hide Calm, InLine, Insert;
    CalmChange(k, SleepOn(k.s, w), k.s.current);
    CalmChange(k, SleepUntil(k.s), k.s.current);
  }

  /** Only a switch, a sleep or an exit concerns the current thread. */
  lemma SleepUntilCalm(k: Kernel)
    requires InLine(k) && MaySleep(k.s) && PcOf(k, k.s.current) == Out
    ensures Calm(k, SleepUntil(k.s))
  {
    hide Calm, InLine;
    CalmChange(k, SleepUntil(k.s), k.s.current);
  }

  lemma ExitPlain(k: Kernel)
    requires KInv(k) && MaySleep(k.s) && PcOf(k, k.s.current) == Out && Known(k.s, k.s.current) && Shaped(k.s)
    requires k.s.info[k.s.current].detached ==> k.s.info[k.s.current].refs == 1
    requires KnownAll(k.s, WaitList(k.s, JOIN))
    ensures KInv(k.(s := Exit(k.s)))
  {
    hide Inv, InLine, Exclusive, NobodyStranded, Calm, Release, WakeAll;
    var t := k.s.current;
    ExitKeeps(k.s);
    if k.s.info[t].detached {
      var s1 := k.s.(info := k.s.info[t := k.s.info[t].(base := false)]);
      ReleaseCalm(k, s1, t);
      PendingCalm(k, Release(s1, t), true);
      CalmKeeps(k, Exit(k.s));
    } else {
      var s1 := k.s.(state := k.s.state[t := Zombie], pending := true);
      InvShaped(k.s);
      ZombieCore(k.s);
      ZombieShaped(k.s);
      CalmChange(k, s1, t);
      CalmKeeps(k, s1);
      WakeAllCalm(k.(s := s1), JOIN);
    }
  }

  lemma PlainCalm(k: Kernel, a: Action)
    requires KInv(k) && Core(k.s) && Outside(k, a) && Admissible(k.s, a) && !a.Leave? && !a.Wake?
    ensures Calm(k, Step(k.s, a))
  {
    hide Inv, InLine, Exclusive, NobodyStranded, Calm, Create, Declare, TaskRun, Enqueue, SleepOn, SleepUntil, Timeout, Pick, Release, Core, Shaped;
    CoreShaped(k.s);
    ShapedReady(k.s);
    CalmSelf(k);
    match a
    case Spawn(t, prio, detached) => if t !in k.s.state { AddCalm(k, t, prio, detached); }
    case Define(t, prio) => if t !in k.s.state { AddCalm(k, t, prio, false); }
    case RunTask(t) => if t in k.s.state && Known(k.s, t) && !k.s.info[t].thread { TaskRunCalm(k, t); }
    case RunAgain(t) => if t in k.s.state && Known(k.s, t) && !k.s.info[t].thread { TaskRunCalm(k, t); }
    case SleepList(w) =>
      if MaySleep(k.s) {
        ListKeyed(k.s, w);
        CurrentKnown(k.s);
        SleepCalm(k, w);
      }
    case SleepTime => if MaySleep(k.s) { SleepUntilCalm(k); }
    case TimeUp(t) => if t in k.s.state && Known(k.s, t) { TimeoutCalm(k, t); }
    case Switch =>
      SwitchReady(k.s);
      PickCalm(k, if k.s.switching then k.s else k.s.(pending := false));
    case JoinThread(t) =>
      if MaySleep(k.s) && Joinable(k.s, t) {
        NotLocking(k, t);
        ReleaseCalm(k, k.s.(info := k.s.info[t := k.s.info[t].(base := false)]), t);
      }
    case Hold(t) =>
      if t in k.s.state && Known(k.s, t) && k.s.info[t].thread { CalmChange(k, Retain(k.s, t), t); }
    case Drop(t) =>
      if MaySleep(k.s) && Droppable(k.s, t) {
        DropIsZombie(k.s, t);
        if !k.s.info[t].base {
          NotLocking(k, t);
        }
        ReleaseCalm(k, k.s, t);
      }
  }

  lemma CurrentKnown(s: Sched)
    requires Shaped(s)
    ensures Known(s, s.current)
  {
  }

  lemma CalmSelf(k: Kernel)
    ensures Calm(k, k.s)
  {
  }

  lemma PlainKeeps(k: Kernel, a: Action)
    requires KInv(k) && Core(k.s) && Admissible(k.s, a)
    ensures KInv(KStep(k, Plain(a)))
  {
    hide Inv, InLine, Exclusive, NobodyStranded, Calm, Core, Shaped, Exit, WakeAll, WakeFirst;
    CoreShaped(k.s);
    if Outside(k, a) {
      if a.Leave? {
        ListKnown(k.s, JOIN);
        CurrentKnown(k.s);
        if MaySleep(k.s) { ExitPlain(k); }
      } else if a.Wake? {
        ListKnown(k.s, a.w);
        WakePlain(k, a.w, a.all);
      } else {
        StepKeeps(k.s, a);
        PlainCalm(k, a);
        CalmKeeps(k, Step(k.s, a));
      }
    }
  }

  lemma WakePlain(k: Kernel, w: nat, all: bool)
    requires KInv(k) && w !in k.mutexes && Shaped(k.s) && KnownAll(k.s, Waiters(k, w))
    ensures KInv(k.(s := Wakeup(k.s, w, all)))
  {
    hide Inv, InLine, Exclusive, NobodyStranded, Calm, Shaped, WakeAll, WakeFirst, Known;
    if all {
      WakeAllCalm(k, w);
    } else if Waiters(k, w) != [] {
      WakeKeeps(k.s, w);
      WakeFirstCalm(k, w);
      CalmKeeps(k, WakeFirst(k.s, w));
    } else {
      assert k.(s := k.s) == k;
    }
  }

  // ---------------------------------------------------------------------
  // Locking steps keep it
  // ---------------------------------------------------------------------

  /** Setting a free lock bit. */
  lemma TakeKeeps(k: Kernel, m: nat)
    requires KInv(k) && MaySleep(k.s) && m in k.mutexes && m !in k.bit
    requires PcOf(k, k.s.current) == Out || PcOf(k, k.s.current) == Locking(m)
    ensures KInv(Take(k, m))
  {
    hide Inv, NobodyStranded;
    TakeExclusive(k, m);
    AwakeNotListed(k);
    var z := Take(k, m);
    assert forall t :: t != k.s.current ==> PcOf(z, t) == PcOf(k, t);
    forall n, t | n in z.mutexes && t in Waiters(z, n)
      ensures PcOf(z, t) == Locking(n)
    {
      assert t in Waiters(k, n);
    }
    TakeStranded(k, m);
  }

  /** A running thread is on no list. */
  lemma AwakeNotListed(k: Kernel)
    requires Inv(k.s) && MaySleep(k.s)
    ensures forall w :: k.s.current !in Waiters(k, w)
  {
    hide Queues, BitsOk, Tasks, OneRuns, Ordered;
    NotListed(k.s, k.s.current);
  }

  lemma TakeExclusive(k: Kernel, m: nat)
    requires Exclusive(k) && m !in k.bit
    ensures Exclusive(Take(k, m))
  {
    var z := Take(k, m);
    assert forall t :: t != k.s.current ==> HeldBy(z, t) == HeldBy(k, t);
    assert HeldBy(z, k.s.current) == HeldBy(k, k.s.current) + {m};
    forall n | n in z.bit
      ensures exists t :: n in HeldBy(z, t)
    {
      if n == m {
        assert m in HeldBy(z, k.s.current);
      } else {
        var t :| n in HeldBy(k, t);
        assert n in HeldBy(z, t);
      }
    }
  }

  lemma TakeStranded(k: Kernel, m: nat)
    requires NobodyStranded(k) && (PcOf(k, k.s.current) == Out || PcOf(k, k.s.current) == Locking(m))
    ensures NobodyStranded(Take(k, m))
  {
    var z := Take(k, m);
    forall n | n in z.mutexes && n !in z.bit && Waiters(z, n) != []
      ensures Contender(z, n)
    {
      assert Contender(k, n);
      var t :| PcOf(k, t) == Locking(n) && Awake(k.s, t);
      assert PcOf(z, t) == Locking(n);
    }
  }

  lemma EnterKeeps(k: Kernel, m: nat)
    requires KInv(k) && Acting(k) && m in k.mutexes
    ensures KInv(k.(pc := k.pc[k.s.current := Locking(m)]))
  {
    hide Inv, Exclusive;
    var z := k.(pc := k.pc[k.s.current := Locking(m)]);
    ExclusiveSame(k, z);
    AwakeNotListed(k);
    RunnerAlive(k.s);
    assert forall t :: t != k.s.current ==> PcOf(z, t) == PcOf(k, t);
    forall n, t | n in z.mutexes && t in Waiters(z, n)
      ensures PcOf(z, t) == Locking(n)
    {
      assert t in Waiters(k, n);
    }
    forall n | n in z.mutexes && n !in z.bit && Waiters(z, n) != []
      ensures Contender(z, n)
    {
      assert Contender(k, n);
      var t :| PcOf(k, t) == Locking(n) && Awake(k.s, t);
      assert PcOf(z, t) == Locking(n);
    }
  }

  lemma RunnerAlive(s: Sched)
    requires Inv(s) && MaySleep(s)
    ensures Alive(s, s.current) && Awake(s, s.current)
  {
    hide Queues, BitsOk, Waits, OneRuns, Ordered;
    InvShaped(s);
    RunnerIsThread(s);
  }

  lemma GiveExclusive(k: Kernel, m: nat)
    requires Exclusive(k) && m in HeldBy(k, k.s.current)
    ensures Exclusive(Give(k, m)) && m !in Give(k, m).bit
  {
    var z := Give(k, m);
    assert forall t :: t != k.s.current ==> HeldBy(z, t) == HeldBy(k, t);
    assert HeldBy(z, k.s.current) == HeldBy(k, k.s.current) - {m};
    forall n | n in z.bit
      ensures exists t :: n in HeldBy(z, t)
    {
      var t :| n in HeldBy(k, t);
      assert n in HeldBy(z, t);
    }
  }

  /** Clearing a lock bit nobody waits for. */
  lemma GiveKeeps(k: Kernel, m: nat)
    requires KInv(k) && m in HeldBy(k, k.s.current) && Waiters(k, m) == []
    ensures KInv(Give(k, m))
  {
    hide Inv, Exclusive;
    GiveExclusive(k, m);
    var z := Give(k, m);
    assert forall t :: PcOf(z, t) == PcOf(k, t);
    assert forall n :: Waiters(z, n) == Waiters(k, n);
    forall n | n in z.mutexes && n !in z.bit && Waiters(z, n) != []
      ensures Contender(z, n)
    {
      assert Contender(k, n);
      var t :| PcOf(k, t) == Locking(n) && Awake(k.s, t);
      assert PcOf(z, t) == Locking(n);
    }
  }

  lemma TailIn(q: seq<nat>, t: nat)
    requires q != [] && t in q[1..]
    ensures t in q
  {
  }

  /** Clearing the bit with waiters wakes the first, who will try again. */
  lemma UnlockWakes(k: Kernel, m: nat)
    requires KInv(k) && MaySleep(k.s) && m in k.mutexes && m in HeldBy(k, k.s.current)
    requires Waiters(k, m) != [] && Shaped(k.s) && Known(k.s, Waiters(k, m)[0])
    ensures KInv(Give(k, m).(s := WakeFirst(k.s, m)))
  {
    hide Inv, Exclusive, Shaped, Known, WakeFirst;
    var z := Give(k, m).(s := WakeFirst(k.s, m));
    var t := Waiters(k, m)[0];
    GiveExclusive(k, m);
    ExclusiveSame(Give(k, m), z);
    WakeKeeps(k.s, m);
    WakeFirstState(k.s, m);
    AwakeNotListed(k);
    WaiterIsThread(k.s, m);
    assert forall x :: PcOf(z, x) == PcOf(k, x);
    forall n, x | n in z.mutexes && x in Waiters(z, n)
      ensures PcOf(z, x) == Locking(n)
    {
      if n == m { TailIn(Waiters(k, m), x); }
      assert x in Waiters(k, n);
    }
    assert PcOf(z, t) == Locking(m) by { assert t in Waiters(k, m); }
    assert Awake(z.s, t);
    forall n | n in z.mutexes && n !in z.bit && Waiters(z, n) != []
      ensures Contender(z, n)
    {
      if n != m {
        assert Waiters(z, n) == Waiters(k, n) && Contender(k, n);
        var x :| PcOf(k, x) == Locking(n) && Awake(k.s, x);
        assert PcOf(z, x) == Locking(n) && Awake(z.s, x);
      }
    }
  }

  lemma UnlockKeeps(k: Kernel, m: nat)
    requires KInv(k) && Core(k.s) && MaySleep(k.s) && m in k.mutexes && m in HeldBy(k, k.s.current)
    ensures KInv(UnlockSlow(k, m))
    ensures UnlockSlow(k, m).pc == k.pc && UnlockSlow(k, m).mutexes == k.mutexes
    ensures UnlockSlow(k, m).s.current == k.s.current && MaySleep(UnlockSlow(k, m).s)
  {
    hide KInv, Core, WakeFirst;
    CoreShaped(k.s);
    if Waiters(k, m) == [] {
      GiveKeeps(k, m);
    } else {
      FirstWaiter(k.s, m);
      UnlockWakes(k, m);
      assert Inv(k.s) by { KInvSched(k); }
      WakeFirstState(k.s, m);
      AwakeNotListed(k);
    }
  }

  lemma KInvSched(k: Kernel)
    requires KInv(k)
    ensures Inv(k.s) && Core(k.s)
  {
    hide Inv, Exclusive, InLine, NobodyStranded, Core;
    InvShaped(k.s);
  }

  /** Joining the line of a held mutex. */
  lemma WaitsInLine(k: Kernel, m: nat)
    requires KInv(k) && Core(k.s) && MaySleep(k.s) && m in k.mutexes && m in k.bit && PcOf(k, k.s.current) == Locking(m)
    requires Known(k.s, k.s.current) && Keyed(k.s.prio, WaitList(k.s, m))
    ensures KInv(k.(s := SleepOn(k.s, m)))
  {
    hide Inv, Exclusive, Core, Insert;
    var t := k.s.current;
    var z := k.(s := SleepOn(k.s, m));
    ExclusiveSame(k, z);
    SleepKeeps(k.s, m);
    RunnerAlive(k.s);
    AwakeNotListed(k);
    ListDistinct(k.s, m);
    assert t !in Waiters(k, m);
    InsertDistinct(k.s.prio, WaitList(k.s, m), t);
    assert forall x :: PcOf(z, x) == PcOf(k, x);
    forall n, x | n in z.mutexes && x in Waiters(z, n)
      ensures PcOf(z, x) == Locking(n)
    {
      assert x in Waiters(k, n) || (n == m && x == t);
    }
    SleeperAlive(k, z.s, t);
    forall n | n in z.mutexes && n !in z.bit && Waiters(z, n) != []
      ensures Contender(z, n)
    {
      assert Waiters(z, n) == Waiters(k, n) && Contender(k, n);
      var x :| PcOf(k, x) == Locking(n) && Awake(k.s, x);
      assert PcOf(z, x) == Locking(n) && Awake(z.s, x);
    }
  }

  lemma SleeperAlive(k: Kernel, z: Sched, t: nat)
    requires Alive(k.s, t) && z.info == k.s.info && z.state == k.s.state[t := Sleeping]
    ensures forall x :: Alive(k.s, x) ==> Alive(z, x)
    ensures forall x :: x != t && Awake(k.s, x) ==> Awake(z, x)
  {
  }

  lemma RetryKeeps(k: Kernel)
    requires KInv(k) && Core(k.s) && MaySleep(k.s) && PcOf(k, k.s.current).Locking?
    ensures KInv(LockTurn(k, PcOf(k, k.s.current).m))
  {
    hide Inv, Exclusive, Core, NobodyStranded, SleepOn;
    var m := PcOf(k, k.s.current).m;
    if m in k.bit {
      ListKeyed(k.s, m);
      CurrentKnown(k.s);
      WaitsInLine(k, m);
    } else {
      TakeKeeps(k, m);
    }
  }

  /** The second half of waiting on a condition. */
  lemma CondKeeps(k: Kernel, c: nat, m: nat)
    requires KInv(k) && Core(k.s) && MaySleep(k.s) && PcOf(k, k.s.current) == Out && m in k.mutexes && c !in k.mutexes
    requires Known(k.s, k.s.current) && Keyed(k.s.prio, WaitList(k.s, c))
    ensures KInv(k.(s := SleepOn(k.s, c), pc := k.pc[k.s.current := Locking(m)]))
  {
    hide Inv, Exclusive, Core, Insert;
    var t := k.s.current;
    var z := k.(s := SleepOn(k.s, c), pc := k.pc[t := Locking(m)]);
    ExclusiveSame(k, z);
    SleepKeeps(k.s, c);
    RunnerAlive(k.s);
    AwakeNotListed(k);
    SleeperAlive(k, z.s, t);
    assert forall x :: x != t ==> PcOf(z, x) == PcOf(k, x);
    assert forall n :: n in k.mutexes ==> Waiters(z, n) == Waiters(k, n);
    forall n, x | n in z.mutexes && x in Waiters(z, n)
      ensures PcOf(z, x) == Locking(n)
    {
      assert x in Waiters(k, n);
    }
    forall n | n in z.mutexes && n !in z.bit && Waiters(z, n) != []
      ensures Contender(z, n)
    {
      assert Contender(k, n);
      var x :| PcOf(k, x) == Locking(n) && Awake(k.s, x);
      assert PcOf(z, x) == Locking(n) && Awake(z.s, x);
    }
  }

  lemma CondSleepKeeps(k: Kernel, c: nat, m: nat)
    requires KInv(k) && Core(k.s) && Acting(k) && m in k.mutexes && c !in k.mutexes && m in HeldBy(k, k.s.current)
    ensures KInv(CondSleep(k, c, m))
    ensures k.s.current in WaitList(CondSleep(k, c, m).s, c) && m !in CondSleep(k, c, m).bit
  {
    hide KInv, Core, SleepOn, WakeFirst, MaySleep;
    UnlockKeeps(k, m);
    var k1 := UnlockSlow(k, m);
    KInvSched(k1);
    CoreShaped(k1.s);
    ListKeyed(k1.s, c);
    CurrentKnown(k1.s);
    assert PcOf(k1, k1.s.current) == PcOf(k, k.s.current);
    CondKeeps(k1, c, m);
    SleepListed(k1.s, c);
  }

  lemma SleepListed(s: Sched, c: nat)
    requires Core(s) && Known(s, s.current) && Keyed(s.prio, WaitList(s, c))
    ensures s.current in WaitList(SleepOn(s, c), c)
  {
    hide Core;
    var k := Place(s.prio, WaitList(s, c), s.current);
    assert WaitList(SleepOn(s, c), c)[k] == s.current;
  }

  predicate KAdmissible(k: Kernel, a: KAction) { a.Plain? ==> Admissible(k.s, a.a) }

  lemma KStepKeeps(k: Kernel, a: KAction)
    requires KInv(k) && Core(k.s) && KAdmissible(k, a)
    ensures KInv(KStep(k, a))
  {
    hide KInv, Core, Take, Give, UnlockSlow, LockTurn, CondSleep, Step, Word;
    match a
    case LockFast(m) =>
      WordSays(k, m);
      if m in k.mutexes && Acting(k) && Word(k, m) == 0 { TakeKeeps(k, m); }
    case LockEnter(m) =>
      if m in k.mutexes && Acting(k) && m !in HeldBy(k, k.s.current) { EnterKeeps(k, m); }
    case Retry => if MaySleep(k.s) && PcOf(k, k.s.current).Locking? { RetryKeeps(k); }
    case TryLock(m) => if m in k.mutexes && Acting(k) && m !in k.bit { TakeKeeps(k, m); }
    case UnlockFast(m) =>
      WordSays(k, m);
      if m in k.mutexes && Acting(k) && m in HeldBy(k, k.s.current) && Word(k, m) == 1 { GiveKeeps(k, m); }
    case Unlock(m) =>
      if m in k.mutexes && Acting(k) && m in HeldBy(k, k.s.current) { UnlockKeeps(k, m); }
    case CondWait(c, m) =>
      if m in k.mutexes && c !in k.mutexes && Acting(k) && m in HeldBy(k, k.s.current) { CondSleepKeeps(k, c, m); }
    case Plain(p) => PlainKeeps(k, p);
  }

  // ---------------------------------------------------------------------
  // Runs
  // ---------------------------------------------------------------------

  function KBoot(idle: nat, mutexes: set<nat>): Kernel {
    Kernel(Boot(idle), mutexes, {}, map[], map[])
  }

  function KNext(k: Kernel, a: KAction): Kernel { if Core(k.s) then KStep(k, a) else k }

  function KRun(k: Kernel, actions: seq<KAction>): Kernel
    decreases actions
  {
    if actions == [] then k else KNext(KRun(k, actions[..|actions| - 1]), actions[|actions| - 1])
  }

  predicate KAdmissibleRun(k: Kernel, actions: seq<KAction>)
    decreases actions
  {
    actions != [] ==>
      KAdmissibleRun(k, actions[..|actions| - 1]) && KAdmissible(KRun(k, actions[..|actions| - 1]), actions[|actions| - 1])
  }

  lemma KBootInv(idle: nat, mutexes: set<nat>)
    requires JOIN !in mutexes
    ensures KInv(KBoot(idle, mutexes))
  {
    BootInv(idle);
  }

  lemma {:induction false} KRunKeeps(k: Kernel, actions: seq<KAction>)
    requires KInv(k) && KAdmissibleRun(k, actions)
    ensures KInv(KRun(k, actions))
    decreases actions
  {
    hide KInv, Core, KStep, KAdmissible;
    if actions != [] {
      var k1 := KRun(k, actions[..|actions| - 1]);
      KRunKeeps(k, actions[..|actions| - 1]);
      KInvSched(k1);
      KStepKeeps(k1, actions[|actions| - 1]);
    }
  }

  // ---------------------------------------------------------------------
  // Guarantees
  // ---------------------------------------------------------------------

  /** In every run at most one thread holds a mutex, and its lock bit is set
      exactly while one does. */
  lemma MutualExclusion(idle: nat, mutexes: set<nat>, actions: seq<KAction>, m: nat, t: nat, u: nat)
    requires JOIN !in mutexes && KAdmissibleRun(KBoot(idle, mutexes), actions)
    ensures var k := KRun(KBoot(idle, mutexes), actions);
      && (m in HeldBy(k, t) && m in HeldBy(k, u) ==> t == u)
      && (m in k.bit <==> exists x :: m in HeldBy(k, x))
  {
    hide Inv, InLine, NobodyStranded, KRun, KAdmissibleRun, KBoot;
    KBootInv(idle, mutexes);
    KRunKeeps(KBoot(idle, mutexes), actions);
  }

  /** In every run, when a mutex is free while threads wait on its list, some
      thread in its slow path is running or on the queue of its priority. */
  lemma NoWaiterStranded(idle: nat, mutexes: set<nat>, actions: seq<KAction>, m: nat)
    requires JOIN !in mutexes && KAdmissibleRun(KBoot(idle, mutexes), actions)
    ensures var k := KRun(KBoot(idle, mutexes), actions);
      m in k.mutexes && m !in k.bit && Waiters(k, m) != [] ==>
        exists t :: PcOf(k, t) == Locking(m) && Runnable(k.s, t)
  {
    hide Inv, InLine, Exclusive, KRun, KAdmissibleRun, KBoot, Runnable, Awake;
    KBootInv(idle, mutexes);
    KRunKeeps(KBoot(idle, mutexes), actions);
    var k := KRun(KBoot(idle, mutexes), actions);
    if m in k.mutexes && m !in k.bit && Waiters(k, m) != [] {
      assert Contender(k, m);
      var t :| PcOf(k, t) == Locking(m) && Awake(k.s, t);
      AwakeRunnable(k.s, t);
    }
  }

  /** Running, or on a ready queue. */
  predicate Runnable(s: Sched, t: nat) {
    t in s.state && ((s.state[t] == Running && t == s.current) || (t in s.prio && 0 <= s.prio[t] < |s.ready| && t in s.ready[s.prio[t]]))
  }

  lemma AwakeRunnable(s: Sched, t: nat)
    requires Inv(s) && Awake(s, t)
    ensures Runnable(s, t)
  {
    hide Waits, Tasks, Ordered, BitsOk, QueueOk;
    if s.state[t] == Ready {
      assert OnQueue(s, t);
    }
  }

  // ---------------------------------------------------------------------
  // Waiting for a condition lasts until a signal or a timeout
  // ---------------------------------------------------------------------

  lemma {:induction false} WakeAllOthers(s: Sched, w: nat, c: nat)
    requires Shaped(s) && KnownAll(s, WaitList(s, w)) && c != w
    ensures WaitList(WakeAll(s, w), c) == WaitList(s, c)
    decreases |WaitList(s, w)|
  {
    hide Known, Shaped, WakeFirst;
    if WaitList(s, w) != [] {
      WakeShaped(s, w);
      WakeFirstState(s, w);
      WakeAllOthers(WakeFirst(s, w), w, c);
    }
  }

  lemma SleepOnKeeps(s: Sched, w: nat, c: nat, t: nat)
    requires Known(s, s.current) && Keyed(s.prio, WaitList(s, w)) && t in WaitList(s, c)
    ensures t in WaitList(SleepOn(s, w), c)
  {
    if w == c {
      var q := WaitList(s, c);
      var k := Place(s.prio, q, s.current);
      var j :| 0 <= j < |q| && q[j] == t;
      var r := WaitList(SleepOn(s, w), c);
      if j < k { assert r[j] == t; } else { assert r[j + 1] == t; }
    }
  }

  lemma {:induction false} RemoveOther(q: seq<nat>, x: nat, t: nat)
    requires t in q && t != x
    ensures t in Remove(q, x)
    decreases q
  {
    if q[0] != x && t != q[0] { RemoveOther(q[1..], x, t); }
  }

  lemma TimeoutOther(s: Sched, x: nat, c: nat, t: nat)
    requires |s.ready| == PRIOS && Known(s, x) && t in WaitList(s, c) && t != x
    ensures t in WaitList(Timeout(s, x), c)
  {
    hide Rouse, Remove;
    if s.state[x] == Sleeping {
      RemoveOther(s.waits[c], x, t);
      RouseState(s.(waits := Unlisted(s.waits, x)), x);
    }
  }

  lemma PickWaits(s: Sched)
    requires Core(s)
    requires forall p, i :: 0 <= p < PRIOS && 0 <= i < |s.ready[p]| ==> s.ready[p][i] in s.info
    ensures Pick(s).waits == s.waits
  {
    hide Core, Highest;
    CoreShaped(s);
    RequeueBits2(s);
  }

  lemma ExitWaits(s: Sched, c: nat)
    requires Shaped(s) && KnownAll(s, WaitList(s, JOIN)) && c != JOIN
    ensures WaitList(Exit(s), c) == WaitList(s, c)
  {
    hide WakeAll;
    ZombieShaped(s);
    assert Known(s, s.current);
    if !s.info[s.current].detached {
      WakeAllOthers(s.(state := s.state[s.current := Zombie], pending := true), JOIN, c);
    }
  }

  lemma StepStays(s: Sched, a: Action, c: nat, t: nat)
    requires Core(s) && c != JOIN && t in WaitList(s, c) && a != TimeUp(t) && !(a.Wake? && a.w == c)
    ensures t in WaitList(Step(s, a), c)
  {
    hide Core, Shaped, KnownAll, Pick, WakeAll, WakeFirst, SleepOn, Timeout, Exit, Insert;
    CoreShaped(s);
    ShapedReady(s);
    match a
    case SleepList(w) =>
      if MaySleep(s) {
        ListKeyed(s, w);
        CurrentKnown(s);
        SleepOnKeeps(s, w, c, t);
      }
    case Wake(w, all) =>
      ListKnown(s, w);
      if all {
        WakeAllOthers(s, w, c);
      } else if WaitList(s, w) != [] {
        FirstWaiter(s, w);
        WakeFirstState(s, w);
      }
    case TimeUp(x) => if x in s.state && Known(s, x) { TimeoutOther(s, x, c, t); }
    case Switch =>
      SwitchReady(s);
      PickWaits(if s.switching then s else s.(pending := false));
    case Leave =>
      ListKnown(s, JOIN);
      ExitWaits(s, c);
    case _ =>
  }

  /** Whatever else happens, a thread waiting on a condition stays on its list
      until the condition is signalled or its own time is up. */
  lemma WaitsUntilSignalled(k: Kernel, a: KAction, c: nat, t: nat)
    requires KInv(k) && Core(k.s) && c !in k.mutexes && c != JOIN && t in WaitList(k.s, c)
    requires a != Plain(TimeUp(t)) && !(a.Plain? && a.a.Wake? && a.a.w == c)
    ensures t in WaitList(KStep(k, a).s, c)
  {
    hide Core, Step, WakeFirst, SleepOn, MaySleep, Exclusive, NobodyStranded, Inv;
    CoreShaped(k.s);
    match a
    case Retry =>
      if MaySleep(k.s) && PcOf(k, k.s.current).Locking? {
        ListKeyed(k.s, PcOf(k, k.s.current).m);
        CurrentKnown(k.s);
        SleepOnKeeps(k.s, PcOf(k, k.s.current).m, c, t);
      }
    case Unlock(m) => UnlockStays(k, m, c);
    case CondWait(d, m) =>
      if m in k.mutexes && Acting(k) && m in HeldBy(k, k.s.current) {
        UnlockStays(k, m, c);
        UnlockKeeps(k, m);
        KInvSched(UnlockSlow(k, m));
        CoreShaped(UnlockSlow(k, m).s);
        ListKeyed(UnlockSlow(k, m).s, d);
        CurrentKnown(UnlockSlow(k, m).s);
        SleepOnKeeps(UnlockSlow(k, m).s, d, c, t);
      }
    case Plain(p) => StepStays(k.s, p, c, t);
    case _ =>
  }

  lemma UnlockStays(k: Kernel, m: nat, c: nat)
    requires Core(k.s) && c !in k.mutexes
    ensures m in k.mutexes ==> WaitList(UnlockSlow(k, m).s, c) == WaitList(k.s, c)
  {
    hide Core, WakeFirst;
    CoreShaped(k.s);
    if Waiters(k, m) != [] {
      FirstWaiter(k.s, m);
      WakeFirstState(k.s, m);
    }
  }

  /** Nobody signals the condition, and the thread's time is not up. */
  predicate Undisturbed(actions: seq<KAction>, c: nat, t: nat) {
    forall i :: 0 <= i < |actions| ==> !Signals(actions[i], c) && actions[i] != Plain(TimeUp(t))
  }

  predicate Signals(a: KAction, c: nat) { a.Plain? && a.a.Wake? && a.a.w == c }

  lemma StepMutexes(k: Kernel, a: KAction)
    requires Core(k.s)
    ensures KStep(k, a).mutexes == k.mutexes
  {
    hide Core, Step, WakeFirst, SleepOn, Word;
  }

  /** The same over any further run. */
  lemma {:induction false} WaitLasts(k: Kernel, actions: seq<KAction>, c: nat, t: nat)
    requires KInv(k) && KAdmissibleRun(k, actions) && c !in k.mutexes && c != JOIN
    requires t in WaitList(k.s, c) && Undisturbed(actions, c, t)
    ensures KInv(KRun(k, actions)) && t in WaitList(KRun(k, actions).s, c) && KRun(k, actions).mutexes == k.mutexes
    decreases actions
  {
    hide KInv, Core, KStep, KAdmissible, WaitList;
    KRunKeeps(k, actions);
    if actions != [] {
      var front, last := actions[..|actions| - 1], actions[|actions| - 1];
      var k1 := KRun(k, front);
      WaitLasts(k, front, c, t);
      KInvSched(k1);
      StepMutexes(k1, last);
      WaitsUntilSignalled(k1, last, c, t);
    }
  }

  lemma {:induction false} WakeAllWakes(s: Sched, w: nat, t: nat)
    requires Shaped(s) && KnownAll(s, WaitList(s, w)) && t in s.info && s.info[t].thread
    requires t in WaitList(s, w) || Awake(s, t)
    ensures Awake(WakeAll(s, w), t)
    decreases |WaitList(s, w)|
  {
    hide Known, Shaped, WakeFirst;
    if WaitList(s, w) != [] {
      WakeShaped(s, w);
      WakeFirstState(s, w);
      WakeAllWakes(WakeFirst(s, w), w, t);
    }
  }

  lemma ListedIsThread(s: Sched, w: nat, t: nat)
    requires Core(s) && t in WaitList(s, w)
    ensures t in s.info && s.info[t].thread
  {
    hide Queues, BitsOk, OneRuns, Apart, Distinct, Descending;
    assert ListOk(s, s.waits[w]);
    assert Known(s, t) && s.state[t] == Sleeping;
  }

  /** No signal is missed: from the moment `cond_wait` lets the mutex go, and for
      as long as nobody signals and its time is not up, the thread is on the
      condition's list; waking all then wakes it, and waking one wakes the list's
      first, which no thread on the list outranks. */
  lemma SignalFindsWaiter(k: Kernel, c: nat, m: nat, actions: seq<KAction>)
    requires KInv(k) && Acting(k) && m in k.mutexes && c !in k.mutexes && c != JOIN && m in HeldBy(k, k.s.current)
    requires KAdmissibleRun(KNext(k, CondWait(c, m)), actions) && Undisturbed(actions, c, k.s.current)
    ensures var z := KRun(KNext(k, CondWait(c, m)), actions);
      var t := k.s.current;
      && m !in KNext(k, CondWait(c, m)).bit && t in WaitList(z.s, c)
      && Awake(KNext(z, Plain(Wake(c, true))).s, t)
      && Awake(KNext(z, Plain(Wake(c, false))).s, WaitList(z.s, c)[0])
      && t in z.s.prio && WaitList(z.s, c)[0] in z.s.prio && z.s.prio[t] <= z.s.prio[WaitList(z.s, c)[0]]
  {
    hide KInv, Core, CondSleep, Acting, KRun, KAdmissibleRun, Undisturbed, WakeFirst, WakeAll, Shaped, KnownAll, Awake;
    KInvSched(k);
    CondSleepKeeps(k, c, m);
    StepMutexes(k, CondWait(c, m));
    WaitLasts(KStep(k, CondWait(c, m)), actions, c, k.s.current);
    var z := KRun(KStep(k, CondWait(c, m)), actions);
    KInvSched(z);
    SignalWakes(z, c, k.s.current);
  }

  lemma SignalWakes(z: Kernel, c: nat, t: nat)
    requires Core(z.s) && c !in z.mutexes && t in WaitList(z.s, c)
    ensures Awake(KNext(z, Plain(Wake(c, true))).s, t)
    ensures Awake(KNext(z, Plain(Wake(c, false))).s, WaitList(z.s, c)[0])
    ensures t in z.s.prio && WaitList(z.s, c)[0] in z.s.prio && z.s.prio[t] <= z.s.prio[WaitList(z.s, c)[0]]
  {
    hide Core, WakeFirst, WakeAll;
    CoreShaped(z.s);
    ListKnown(z.s, c);
    ListedIsThread(z.s, c, t);
    ListedIsThread(z.s, c, WaitList(z.s, c)[0]);
    WakeAllWakes(z.s, c, t);
    WakeFirstState(z.s, c);
    var i :| 0 <= i < |WaitList(z.s, c)| && WaitList(z.s, c)[i] == t;
    WakesHighest(z.s, c, i);
  }
}
