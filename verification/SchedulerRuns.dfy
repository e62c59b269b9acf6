/** The scheduler over every run: its queues, bitmap and wait lists agree, no
    task is ever queued twice, and nothing runnable outranks the running thread
    without a reschedule being pending. */
module SchedulerRuns {
  import opened Common
  import opened WaitLists
  import opened Scheduler

  // ---------------------------------------------------------------------
  // Invariant
  // ---------------------------------------------------------------------

  predicate Placed(s: Sched, p: nat, t: nat) {
    t in s.state && s.state[t] == Ready && t in s.prio && s.prio[t] == p
  }

  predicate QueueOk(s: Sched, p: nat, q: seq<nat>) {
    Distinct(q) && forall i :: 0 <= i < |q| ==> Placed(s, p, q[i])
  }

  /** A task is on a queue exactly when it is ready: once, on its own. */
  predicate Queues(s: Sched)
    requires Shaped(s)
  {
    && (forall p: nat :: p < PRIOS ==> QueueOk(s, p, s.ready[p]))
    && (forall t :: t in s.state && s.state[t] == Ready ==> OnQueue(s, t))
  }

  predicate OnQueue(s: Sched, t: nat)
    requires Shaped(s)
  {
    Known(s, t) && t in s.ready[s.prio[t]]
  }

  predicate ListOk(s: Sched, q: seq<nat>) {
    && Distinct(q) && Keyed(s.prio, q) && Descending(s.prio, q)
    && forall i :: 0 <= i < |q| ==> q[i] in s.state && s.state[q[i]] == Sleeping
  }

  /** Wait lists are sorted, hold sleeping threads only, and do not overlap. */
  predicate Waits(s: Sched) {
    && (forall w :: w in s.waits ==> ListOk(s, s.waits[w]))
    && (forall v, w :: v in s.waits && w in s.waits && v != w ==> Apart(s.waits[v], s.waits[w]))
  }

  predicate Apart(a: seq<nat>, b: seq<nat>) { forall x :: x in a ==> x !in b }

  predicate TaskOk(idle: nat, t: nat, st: State, prio: int, i: Info) {
    if t == idle then i.thread && prio == 0 && (st == Running || st == Ready || st == Zombie)
    else if i.thread then
      && prio >= 1 && st != Inert && i.refs >= 1
      && (st != Zombie ==> i.base) && (st == Zombie ==> !i.detached)
    else
      (st == Inert || st == Ready) && !i.base
  }

  predicate Tasks(s: Sched)
    requires Shaped(s)
  {
    forall t :: t in s.state ==> Known(s, t) && TaskOk(s.idle, t, s.state[t], s.prio[t], s.info[t])
  }

  predicate OneRuns(s: Sched) { forall t :: t in s.state && s.state[t] == Running ==> t == s.current }

  predicate Below(s: Sched, p: int) {
    forall t :: t in s.state && s.state[t] == Ready ==> t in s.prio && s.prio[t] <= p
  }

  /** Without a pending reschedule, the current thread runs and nothing ready
      outranks it. Only before the first switch has the idle thread not run. */
  predicate Ordered(s: Sched)
    requires Shaped(s)
  {
    !s.switching && !s.pending ==>
      && (s.state[s.current] == Running || (s.current == s.idle && s.state[s.idle] == Zombie))
      && Below(s, s.prio[s.current])
  }

  predicate Inv(s: Sched) {
    && Shaped(s) && BitsOk(s.ready, s.active) && !s.doubled
    && Queues(s) && Waits(s) && Tasks(s) && OneRuns(s) && Ordered(s)
  }

  /** Everything but the order. */
  predicate Core(s: Sched) {
    && Shaped(s) && BitsOk(s.ready, s.active) && !s.doubled
    && Queues(s) && Waits(s) && Tasks(s) && OneRuns(s)
  }

  /** Start-up: only the idle thread exists, as a zombie until it first runs. */
  function Boot(idle: nat): Sched {
    Sched(map[idle := Zombie], map[idle := 0], map[idle := Info(true, false, false, 0)],
          seq(PRIOS, _ => []), {}, idle, idle, false, false, map[], false)
  }

  lemma BootInv(idle: nat)
    ensures Inv(Boot(idle))
  {
  }

  // ---------------------------------------------------------------------
  // Queueing a task that is not queued
  // ---------------------------------------------------------------------

  lemma QueuePut(s: Sched, z: Sched, p: nat, t: nat)
    requires Shaped(s) && Known(s, t) && s.state[t] != Ready && z == Enqueue(s, t) && p < PRIOS
    requires QueueOk(s, p, s.ready[p])
    ensures QueueOk(z, p, z.ready[p])
  {
    var q := s.ready[p];
    forall i | 0 <= i < |q|
      ensures q[i] != t
    {
      assert Placed(s, p, q[i]);
    }
  }

  lemma EnqueueShaped(s: Sched, t: nat)
    requires Shaped(s) && Known(s, t)
    ensures Shaped(Enqueue(s, t))
    ensures forall x :: Known(Enqueue(s, t), x) <==> Known(s, x)
    ensures Enqueue(s, t).state == s.state[t := Ready] && t in s.state
  {
  }

  lemma EnqueueQueues(s: Sched, t: nat)
    requires Shaped(s) && Queues(s) && BitsOk(s.ready, s.active) && Known(s, t) && s.state[t] != Ready
    ensures var z := Enqueue(s, t); Shaped(z) && Queues(z) && BitsOk(z.ready, z.active) && z.doubled == s.doubled
  {
    hide Known, QueueOk, Enqueue;
    var z := Enqueue(s, t);
    EnqueueShaped(s, t);
    forall p: nat | p < PRIOS
      ensures QueueOk(z, p, z.ready[p])
    {
      QueuePut(s, z, p, t);
    }
    EnqueueBits(s, t);
    forall x | x in z.state && z.state[x] == Ready
      ensures OnQueue(z, x)
    {
      EnqueueOn(s, t, x);
    }
  }

  lemma EnqueueBits(s: Sched, t: nat)
    requires |s.ready| == PRIOS && BitsOk(s.ready, s.active) && Known(s, t)
    ensures var z := Enqueue(s, t); BitsOk(z.ready, z.active) && (s.state[t] != Ready ==> z.doubled == s.doubled)
  {
  }

  lemma EnqueueOn(s: Sched, t: nat, x: nat)
    requires Shaped(s) && Known(s, t) && Shaped(Enqueue(s, t))
    requires x in s.state && (x == t || (s.state[x] == Ready && OnQueue(s, x)) || s.state[x] != Ready)
    ensures Enqueue(s, t).state[x] == Ready ==> OnQueue(Enqueue(s, t), x)
  {
  }

  /** Nothing on a wait list is asleep any less. */
  lemma EnqueueWaits(s: Sched, t: nat)
    requires Shaped(s) && Waits(s) && Known(s, t)
    requires forall w :: w in s.waits ==> t !in s.waits[w]
    ensures Waits(Enqueue(s, t))
  {
    hide Apart, Distinct, Descending;
  }

  lemma EnqueueTasks(s: Sched, t: nat)
    requires Shaped(s) && Tasks(s) && Known(s, t)
    requires s.info[t].thread ==> s.state[t] != Zombie || t == s.idle
    ensures Shaped(Enqueue(s, t)) && Tasks(Enqueue(s, t))
  {
    EnqueueShaped(s, t);
  }

  lemma NotListed(s: Sched, t: nat)
    requires Waits(s) && t in s.state && s.state[t] != Sleeping
    ensures forall w :: w in s.waits ==> t !in s.waits[w]
  {
    hide Apart, Distinct, Descending;
  }

  lemma EnqueueCore(s: Sched, t: nat)
    requires Core(s) && Known(s, t) && s.state[t] != Ready
    requires s.info[t].thread ==> s.state[t] != Zombie || t == s.idle
    requires forall w :: w in s.waits ==> t !in s.waits[w]
    ensures Core(Enqueue(s, t))
  {
    hide Shaped, Queues, Waits, Tasks, BitsOk;
    EnqueueShaped(s, t);
    EnqueueQueues(s, t);
    EnqueueWaits(s, t);
    EnqueueTasks(s, t);
  }

  // ---------------------------------------------------------------------
  // Changes that leave the queues alone
  // ---------------------------------------------------------------------

  /** z differs from s in the state of t only, which is ready in neither. */
  predicate Restated(s: Sched, z: Sched, t: nat, st: State) {
    && t in s.state && st != Ready && s.state[t] != Ready
    && z.state == s.state[t := st] && z.prio == s.prio && z.info == s.info
    && z.ready == s.ready && z.active == s.active && z.idle == s.idle && z.doubled == s.doubled
  }

  lemma RestatedQueues(s: Sched, z: Sched, t: nat, st: State)
    requires Shaped(s) && Queues(s) && Restated(s, z, t, st) && z.current in z.state
    ensures Shaped(z) && Queues(z)
  {
    assert forall x :: Known(s, x) <==> Known(z, x);
    forall p: nat | p < PRIOS
      ensures QueueOk(z, p, z.ready[p])
    {
      assert QueueOk(s, p, s.ready[p]);
      forall i | 0 <= i < |z.ready[p]|
        ensures Placed(z, p, z.ready[p][i])
      {
        assert Placed(s, p, s.ready[p][i]);
      }
    }
    forall x | x in z.state && z.state[x] == Ready
      ensures OnQueue(z, x)
    {
      assert OnQueue(s, x);
    }
  }

  lemma RestatedCore(s: Sched, z: Sched, t: nat, st: State)
    requires Core(s) && Restated(s, z, t, st) && z.current in z.state
    requires Waits(z) && OneRuns(z)
    requires t in s.prio && t in s.info && TaskOk(s.idle, t, st, s.prio[t], s.info[t])
    ensures Core(z)
  {
    hide Queues, Waits, BitsOk, TaskOk;
    RestatedQueues(s, z, t, st);
    assert forall x :: Known(s, x) <==> Known(z, x);
  }

  lemma SameCore(s: Sched, z: Sched)
    requires Core(s) && z == s.(pending := z.pending, switching := z.switching)
    ensures Core(z)
  {
    hide Shaped, Queues, Waits, Tasks, BitsOk;
    SameParts(s, z);
  }

  lemma SameParts(s: Sched, z: Sched)
    requires Shaped(s) && Queues(s) && Waits(s) && Tasks(s)
    requires z == s.(pending := z.pending, switching := z.switching)
    ensures Shaped(z) && Queues(z) && Waits(z) && Tasks(z)
  {
    hide QueueOk, ListOk, TaskOk, Apart;
    assert forall x :: Known(s, x) <==> Known(z, x);
    assert forall p: nat :: p < PRIOS ==> QueueOk(s, p, s.ready[p]);
    forall p: nat | p < PRIOS
      ensures QueueOk(z, p, z.ready[p])
    {
      QueueSame(s, z, p);
    }
    forall t | t in z.state && z.state[t] == Ready
      ensures OnQueue(z, t)
    {
      assert OnQueue(s, t);
    }
    forall w | w in z.waits
      ensures ListOk(z, z.waits[w])
    {
      ListSame(s, z, s.waits[w]);
    }
  }

  lemma QueueSame(s: Sched, z: Sched, p: nat)
    requires Shaped(s) && p < PRIOS && QueueOk(s, p, s.ready[p]) && z.state == s.state && z.prio == s.prio
    ensures QueueOk(z, p, s.ready[p])
  {
  }

  lemma ListSame(s: Sched, z: Sched, q: seq<nat>)
    requires ListOk(s, q) && z.state == s.state && z.prio == s.prio
    ensures ListOk(z, q)
  {
  }

  // ---------------------------------------------------------------------
  // Waking and sleeping
  // ---------------------------------------------------------------------

  /** Taking the first waiter off its list. */
  lemma PopWaits(s: Sched, w: nat)
    requires Waits(s) && WaitList(s, w) != []
    ensures var z := s.(waits := s.waits[w := WaitList(s, w)[1..]]);
      && Waits(z)
      && (forall v :: v in z.waits ==> WaitList(s, w)[0] !in z.waits[v])
  {
    hide Descending;
    var q := s.waits[w];
    var z := s.(waits := s.waits[w := q[1..]]);
    assert ListOk(s, q);
    TailDescending(s.prio, q);
    forall v | v in z.waits
      ensures ListOk(z, z.waits[v]) && q[0] !in z.waits[v]
    {
      if v != w {
        assert ListOk(s, s.waits[v]) && Apart(q, s.waits[v]);
      }
    }
    forall u, v | u in z.waits && v in z.waits && u != v
      ensures Apart(z.waits[u], z.waits[v])
    {
      assert Apart(s.waits[u], s.waits[v]);
    }
  }

  lemma TailDescending(key: map<nat, int>, q: seq<nat>)
    requires q != [] && Keyed(key, q) && Descending(key, q)
    ensures Keyed(key, q[1..]) && Descending(key, q[1..])
  {
  }

  lemma CoreWaits(s: Sched, waits: map<nat, seq<nat>>)
    requires Core(s) && Waits(s.(waits := waits))
    ensures Core(s.(waits := waits))
  {
    hide Waits, BitsOk, TaskOk, QueueOk, OnQueue;
    var z := s.(waits := waits);
    assert forall x :: Known(s, x) <==> Known(z, x);
    forall p: nat | p < PRIOS
      ensures QueueOk(z, p, z.ready[p])
    {
      QueueSame(s, z, p);
    }
    forall t | t in z.state && z.state[t] == Ready
      ensures OnQueue(z, t)
    {
      OnQueueSame(s, z, t);
    }
  }

  lemma OnQueueSame(s: Sched, z: Sched, t: nat)
    requires Shaped(s) && Shaped(z) && OnQueue(s, t) && z == s.(waits := z.waits)
    ensures OnQueue(z, t)
  {
  }

  lemma RouseCore(s: Sched, t: nat)
    requires Core(s) && Known(s, t) && s.state[t] == Sleeping
    requires forall w :: w in s.waits ==> t !in s.waits[w]
    ensures Core(Rouse(s, t))
  {
    hide Queues, BitsOk, Waits;
    if t != s.current {
      EnqueueCore(s, t);
    } else {
      var z := s.(state := s.state[t := Running]);
      RunsWaits(s, t);
      RestatedCore(s, z, t, Running);
    }
  }

  lemma RunsWaits(s: Sched, t: nat)
    requires Waits(s) && forall w :: w in s.waits ==> t !in s.waits[w]
    ensures Waits(s.(state := s.state[t := Running]))
  {
    hide Apart, Distinct, Descending;
  }

  lemma FirstWaiter(s: Sched, w: nat)
    requires Core(s) && WaitList(s, w) != []
    ensures var t := WaitList(s, w)[0]; Known(s, t) && s.state[t] == Sleeping
    ensures KnownAll(s, WaitList(s, w))
  {
    hide Queues, BitsOk, Tasks, Apart, Distinct, Descending;
    assert ListOk(s, s.waits[w]);
  }

  lemma ListKnown(s: Sched, w: nat)
    requires Core(s)
    ensures KnownAll(s, WaitList(s, w))
  {
    if WaitList(s, w) != [] { FirstWaiter(s, w); }
  }

  /** Nothing ready outranks the current thread unless that was so before or t
      is the one that does. */
  lemma RouseOrdered(s: Sched, t: nat)
    requires Shaped(s) && Ordered(s) && Known(s, t) && s.state[t] == Sleeping && t != s.current
    requires s.prio[t] <= s.prio[s.current] || s.pending
    ensures Shaped(Rouse(s, t)) && Ordered(Rouse(s, t))
  {
    EnqueueShaped(s, t);
  }

  lemma PendingOrdered(s: Sched)
    requires Shaped(s) && s.pending
    ensures Ordered(s)
  {
  }

  lemma InvOf(s: Sched)
    requires Core(s) && Ordered(s)
    ensures Inv(s)
  {
    hide Shaped, Queues, Waits, Tasks, BitsOk, OneRuns, Ordered;
  }

  lemma WakeKeeps(s: Sched, w: nat)
    requires Inv(s) && WaitList(s, w) != []
    ensures Known(s, WaitList(s, w)[0]) && Inv(WakeFirst(s, w))
  {
    hide Queues, BitsOk, Tasks, Waits, Rouse, OneRuns;
    FirstWaiter(s, w);
    var t := WaitList(s, w)[0];
    var s1 := s.(waits := s.waits[w := WaitList(s, w)[1..]]);
    PopWaits(s, w);
    CoreWaits(s, s1.waits);
    RouseCore(s1, t);
    var z := WakeFirst(s, w);
    SameCore(Rouse(s1, t), z);
    RouseFields(s1, t);
    if Outranks(s, t) {
      PendingOrdered(z);
    } else {
      WaitsOrdered(s, s1);
      RouseOrdered(s1, t);
    }
  }

  lemma RouseFields(s: Sched, t: nat)
    requires |s.ready| == PRIOS && Known(s, t)
    ensures var z := Rouse(s, t);
      z.current == s.current && z.idle == s.idle && z.pending == s.pending && z.switching == s.switching && z.waits == s.waits
      && z.prio == s.prio && z.info == s.info
  {
  }

  lemma WaitsOrdered(s: Sched, z: Sched)
    requires Shaped(s) && Ordered(s) && z == s.(waits := z.waits)
    ensures Shaped(z) && Ordered(z)
  {
    assert forall x :: Known(s, x) <==> Known(z, x);
  }

  lemma {:induction false} WakeAllKeeps(s: Sched, w: nat)
    requires Inv(s) && KnownAll(s, WaitList(s, w))
    ensures Inv(WakeAll(s, w))
    decreases |WaitList(s, w)|
  {
    hide Inv, WakeFirst;
    if WaitList(s, w) != [] {
      assert Shaped(s) by { InvShaped(s); }
      WakeKeeps(s, w);
      WakeShaped(s, w);
      WakeAllKeeps(WakeFirst(s, w), w);
    }
  }

  lemma InvShaped(s: Sched)
    requires Inv(s)
    ensures Shaped(s) && Core(s)
  {
    hide Queues, Waits, Tasks, BitsOk, OneRuns, Ordered;
  }

  /** Going to sleep on a list keeps it sorted, behind its equals. */
  lemma SleepWaits(s: Sched, w: nat)
    requires Waits(s) && Shaped(s) && s.state[s.current] == Running
    ensures Keyed(s.prio, WaitList(s, w)) && Waits(SleepOn(s, w))
  {
    hide Descending, Distinct, Insert, Place;
    var t, q := s.current, WaitList(s, w);
    NotListed(s, t);
    if w in s.waits {
      assert ListOk(s, q);
    } else {
      EmptyList(s);
    }
    InsertSorted(s.prio, q, t);
    InsertDistinct(s.prio, q, t);
    var z := SleepOn(s, w);
    forall v | v in z.waits
      ensures ListOk(z, z.waits[v])
    {
      if v != w {
        assert ListOk(s, s.waits[v]);
      } else {
        forall i | 0 <= i < |z.waits[w]|
          ensures z.waits[w][i] in z.state && z.state[z.waits[w][i]] == Sleeping
        {
          assert z.waits[w][i] in z.waits[w];
        }
      }
    }
    forall u, v | u in z.waits && v in z.waits && u != v
      ensures Apart(z.waits[u], z.waits[v])
    {
      if u in s.waits && v in s.waits {
        assert Apart(s.waits[u], s.waits[v]);
      }
    }
  }

  lemma EmptyList(s: Sched)
    ensures Keyed(s.prio, []) && Descending(s.prio, []) && Distinct([])
  {
  }

  /** An awake thread may be on its way to sleep. */
  predicate MaySleep(s: Sched) {
    s.current in s.state && !s.switching && s.state[s.current] == Running && s.current != s.idle
  }

  lemma SleepKeeps(s: Sched, w: nat)
    requires Inv(s) && MaySleep(s)
    ensures Keyed(s.prio, WaitList(s, w)) && Inv(SleepOn(s, w))
  {
    hide Queues, BitsOk, Waits, Insert;
    SleepWaits(s, w);
    var z := SleepOn(s, w);
    RunnerIsThread(s);
    RestatedCore(s, z, s.current, Sleeping);
  }

  lemma RunnerIsThread(s: Sched)
    requires Core(s) && s.current != s.idle && s.state[s.current] == Running
    ensures Known(s, s.current) && s.info[s.current].thread && s.info[s.current].base && s.info[s.current].refs >= 1
    ensures s.prio[s.current] >= 1
    ensures TaskOk(s.idle, s.current, Sleeping, s.prio[s.current], s.info[s.current])
  {
    hide Queues, BitsOk, Waits;
    assert Known(s, s.current);
  }

  lemma SleepUntilKeeps(s: Sched)
    requires Inv(s) && MaySleep(s)
    ensures Inv(SleepUntil(s))
  {
    hide Queues, BitsOk, Waits;
    NotListed(s, s.current);
    StillWaits(s, s.current, Sleeping);
    RunnerIsThread(s);
    RestatedWaits(s, SleepUntil(s));
    RestatedCore(s, SleepUntil(s), s.current, Sleeping);
  }

  lemma StillWaits(s: Sched, t: nat, st: State)
    requires Waits(s) && forall w :: w in s.waits ==> t !in s.waits[w]
    ensures Waits(s.(state := s.state[t := st]))
  {
    hide Apart, Distinct, Descending;
  }

  lemma RestatedWaits(s: Sched, z: Sched)
    requires Waits(s.(state := z.state)) && z.waits == s.waits && z.prio == s.prio
    ensures Waits(z)
  {
    hide Apart, Distinct, Descending;
  }

  lemma UnlistedWaits(s: Sched, t: nat)
    requires Waits(s)
    ensures Waits(s.(waits := Unlisted(s.waits, t)))
    ensures forall w :: w in Unlisted(s.waits, t) ==> t !in Unlisted(s.waits, t)[w]
  {
    hide Descending, Distinct;
    var z := s.(waits := Unlisted(s.waits, t));
    forall w | w in z.waits
      ensures ListOk(z, z.waits[w]) && t !in z.waits[w]
    {
      assert ListOk(s, s.waits[w]);
      RemoveDistinct(s.waits[w], t);
      RemoveDescending(s.prio, s.waits[w], t);
      forall i | 0 <= i < |z.waits[w]|
        ensures z.waits[w][i] in s.state && s.state[z.waits[w][i]] == Sleeping
      {
        assert z.waits[w][i] in z.waits[w];
        assert z.waits[w][i] in s.waits[w];
      }
    }
    forall u, v | u in z.waits && v in z.waits && u != v
      ensures Apart(z.waits[u], z.waits[v])
    {
      assert Apart(s.waits[u], s.waits[v]) && ListOk(s, s.waits[u]) && ListOk(s, s.waits[v]);
      RemoveDistinct(s.waits[u], t);
      RemoveDistinct(s.waits[v], t);
    }
  }

  lemma RemoveDescending(key: map<nat, int>, q: seq<nat>, t: nat)
    requires Keyed(key, q) && Descending(key, q)
    ensures Keyed(key, Remove(q, t)) && Descending(key, Remove(q, t))
  {
    if t in q {
      var k := FirstIndex(q, t);
      RemoveIs(q, t, k);
    } else {
      RemoveAbsent(q, t);
    }
  }

  lemma TimeoutKeeps(s: Sched, t: nat)
    requires Inv(s) && t in s.state
    ensures Known(s, t) && Inv(Timeout(s, t))
  {
    hide Queues, BitsOk, Waits, Rouse, Tasks, OneRuns, Unlisted;
    assert Known(s, t);
    if s.state[t] == Sleeping {
      var s1 := s.(waits := Unlisted(s.waits, t));
      UnlistedWaits(s, t);
      CoreWaits(s, s1.waits);
      RouseCore(s1, t);
      SameCore(Rouse(s1, t), Timeout(s, t));
    }
  }

  // ---------------------------------------------------------------------
  // Switching
  // ---------------------------------------------------------------------

  lemma RequeueCore(s: Sched)
    requires Core(s)
    ensures Known(s, s.current) && Core(Requeue(s)) && Requeue(s).state[s.current] != Running
    ensures forall t :: t in Requeue(s).state ==> Requeue(s).state[t] != Running
    ensures Requeue(s).idle == s.idle
  {
    hide Queues, BitsOk, Waits, Tasks, Enqueue;
    assert Known(s, s.current);
    if s.state[s.current] == Running {
      NotListed(s, s.current);
      EnqueueCore(s, s.current);
      EnqueueShaped(s, s.current);
      EnqueueIdle(s, s.current);
    }
  }

  lemma EnqueueIdle(s: Sched, t: nat)
    requires |s.ready| == PRIOS && Known(s, t)
    ensures Enqueue(s, t).idle == s.idle && Enqueue(s, t).current == s.current
  {
  }

  lemma ReadyActive(s: Sched)
    requires Core(s)
    ensures forall t :: t in s.state && s.state[t] == Ready ==> t in s.prio && s.prio[t] in s.active
  {
    hide QueueOk, Waits, Tasks, OneRuns;
    forall t | t in s.state && s.state[t] == Ready
      ensures t in s.prio && s.prio[t] in s.active
    {
      assert OnQueue(s, t);
    }
  }

  lemma IdleKeeps(s: Sched)
    requires Core(s) && s.active == {} && forall t :: t in s.state ==> s.state[t] != Running
    ensures s.idle in s.info && Inv(Dispatch(s, s.idle))
  {
    hide Queues, BitsOk, Waits;
    ReadyActive(s);
    assert Known(s, s.idle);
    NotListed(s, s.idle);
    StillWaits(s, s.idle, Running);
    var z := Dispatch(s, s.idle);
    RestatedWaits(s, z);
    RestatedCore(s, z, s.idle, Running);
  }

  /** The head of a queue leaves it and stops being ready. */
  predicate Left(s: Sched, z: Sched, p: nat, st: State)
    requires p < |s.ready| && s.ready[p] != []
  {
    var t, rest := s.ready[p][0], s.ready[p][1..];
    && t in s.state && st != Ready
    && z.state == s.state[t := st] && z.prio == s.prio && z.info == s.info && z.idle == s.idle && z.doubled == s.doubled
    && z.ready == s.ready[p := rest] && z.active == (if rest == [] then s.active - {p} else s.active) && z.waits == s.waits
  }

  lemma LeftQueue(s: Sched, z: Sched, p: nat, st: State, q: nat)
    requires Shaped(s) && p < PRIOS && s.ready[p] != [] && Left(s, z, p, st) && q < PRIOS
    requires QueueOk(s, p, s.ready[p]) && QueueOk(s, q, s.ready[q])
    ensures QueueOk(z, q, z.ready[q])
  {
    var t := s.ready[p][0];
    assert Placed(s, p, t);
    forall i | 0 <= i < |z.ready[q]|
      ensures Placed(z, q, z.ready[q][i])
    {
      if q == p {
        assert Placed(s, q, s.ready[q][i + 1]);
      } else {
        assert Placed(s, q, s.ready[q][i]);
      }
    }
  }

  lemma LeftShape(s: Sched, z: Sched, p: nat, st: State)
    requires Shaped(s) && BitsOk(s.ready, s.active) && p < PRIOS && s.ready[p] != [] && Left(s, z, p, st) && z.current in z.state
    ensures Shaped(z) && BitsOk(z.ready, z.active) && forall x :: Known(s, x) <==> Known(z, x)
  {
  }

  lemma LeftQueues(s: Sched, z: Sched, p: nat, st: State)
    requires Shaped(s) && Shaped(z) && Queues(s) && p < PRIOS && s.ready[p] != [] && Left(s, z, p, st)
    requires forall x :: Known(s, x) <==> Known(z, x)
    ensures Queues(z)
  {
    hide QueueOk;
    forall q: nat | q < PRIOS
      ensures QueueOk(z, q, z.ready[q])
    {
      LeftQueue(s, z, p, st, q);
    }
    forall x | x in z.state && z.state[x] == Ready
      ensures OnQueue(z, x)
    {
      assert OnQueue(s, x);
      if s.prio[x] == p {
        LeftOthers(s.ready[p], x);
      }
    }
  }

  lemma LeftTasks(s: Sched, z: Sched, p: nat, st: State)
    requires Shaped(s) && Shaped(z) && Tasks(s) && p < PRIOS && s.ready[p] != [] && Left(s, z, p, st)
    requires forall x :: Known(s, x) <==> Known(z, x)
    requires var t := s.ready[p][0]; t in s.prio && t in s.info && TaskOk(s.idle, t, st, s.prio[t], s.info[t])
    ensures Tasks(z)
  {
    hide TaskOk;
  }

  lemma LeftCore(s: Sched, z: Sched, p: nat, st: State)
    requires Core(s) && p < PRIOS && s.ready[p] != [] && Left(s, z, p, st) && z.current in z.state
    requires var t := s.ready[p][0]; t in s.prio && t in s.info && TaskOk(s.idle, t, st, s.prio[t], s.info[t])
    requires OneRuns(z)
    ensures Core(z)
  {
    hide Waits, TaskOk, Queues, Tasks, BitsOk, Known, OneRuns;
    var t := s.ready[p][0];
    LeftShape(s, z, p, st);
    LeftQueues(s, z, p, st);
    LeftTasks(s, z, p, st);
    HeadReady(s, p);
    NotListed(s, t);
    StillWaits(s, t, st);
    RestatedWaits(s, z);
  }

  lemma HeadReady(s: Sched, p: nat)
    requires Shaped(s) && Queues(s) && p < PRIOS && s.ready[p] != []
    ensures s.ready[p][0] in s.state && s.state[s.ready[p][0]] == Ready
  {
    hide Distinct;
    assert QueueOk(s, p, s.ready[p]) && Placed(s, p, s.ready[p][0]);
  }

  lemma LeftOthers(q: seq<nat>, x: nat)
    requires q != [] && x in q && x != q[0]
    ensures x in q[1..]
  {
  }

  /** The thread taken from the highest queue is at least the rank of all. */
  lemma HighestBelow(s: Sched, p: nat)
    requires Core(s) && p in s.active && (forall q :: q in s.active ==> q <= p)
    ensures Below(s, p)
  {
    hide Core;
    ReadyActive(s);
  }

  lemma TakeKeeps(s: Sched, p: nat)
    requires Core(s) && p < PRIOS && s.ready[p] != [] && forall t :: t in s.state ==> s.state[t] != Running
    requires p in s.active && (forall q :: q in s.active ==> q <= p)
    ensures s.ready[p][0] in s.info && Inv(Dispatch(Dequeue(s, p), s.ready[p][0]))
  {
    hide BitsOk, Waits, OneRuns, Distinct;
    var t := s.ready[p][0];
    assert QueueOk(s, p, s.ready[p]) && Placed(s, p, t) && Known(s, t);
    var z := Dispatch(Dequeue(s, p), t);
    HighestBelow(s, p);
    TakenRuns(s, z, t);
    LeftCore(s, z, p, if s.info[t].thread then Running else Inert);
  }

  lemma TakenRuns(s: Sched, z: Sched, t: nat)
    requires t in s.state && forall x :: x in s.state ==> s.state[x] != Running
    requires (z.state == s.state[t := Running] && z.current == t) || z.state == s.state[t := Inert]
    ensures OneRuns(z)
  {
  }

  lemma QueuedInfo(s: Sched)
    requires Core(s)
    ensures forall p, i :: 0 <= p < PRIOS && 0 <= i < |s.ready[p]| ==> s.ready[p][i] in s.info
  {
    hide BitsOk, Waits, OneRuns, Distinct, Tasks;
    forall p, i | 0 <= p < PRIOS && 0 <= i < |s.ready[p]|
      ensures s.ready[p][i] in s.info
    {
      assert QueueOk(s, p, s.ready[p]) && Placed(s, p, s.ready[p][i]) && Known(s, s.ready[p][i]);
    }
  }

  /** One turn of the switch. */
  lemma PickKeeps(s: Sched)
    requires Core(s)
    ensures forall p, i :: 0 <= p < PRIOS && 0 <= i < |s.ready[p]| ==> s.ready[p][i] in s.info
    ensures Inv(Pick(s))
  {
    hide Inv, Queues, Waits, Tasks, OneRuns, Dispatch, Requeue;
    QueuedInfo(s);
    RequeueCore(s);
    RequeueBits(s);
    var s1 := Requeue(s);
    if s1.active == {} {
      IdleKeeps(s1);
    } else {
      TakeKeeps(s1, Highest(s1.active, PRIOS));
    }
  }

  // ---------------------------------------------------------------------
  // Threads coming and going
  // ---------------------------------------------------------------------

  /** A task is added, not yet runnable. */
  predicate Added(s: Sched, z: Sched, t: nat) {
    && t !in s.state && z.idle == s.idle && z.current == s.current
    && t in z.state && t in z.prio && t in z.info
    && z.state == s.state[t := z.state[t]] && z.prio == s.prio[t := z.prio[t]] && z.info == s.info[t := z.info[t]]
    && z.state[t] == Inert && 0 <= z.prio[t] < PRIOS
    && z.ready == s.ready && z.active == s.active && z.waits == s.waits && z.doubled == s.doubled
  }

  lemma AddedParts(s: Sched, z: Sched, t: nat)
    requires Core(s) && Added(s, z, t)
    ensures Shaped(z) && Queues(z) && Waits(z) && OneRuns(z)
    ensures forall w :: w in z.waits ==> t !in z.waits[w]
    ensures forall x :: x in s.state ==> Known(z, x) && Known(s, x)
    ensures Known(z, t)
  {
    hide BitsOk, Tasks, Distinct, Apart, Descending;
    forall x | x in z.state
      ensures Known(z, x)
    {
      assert x != t ==> Known(s, x);
    }
    forall p: nat | p < PRIOS
      ensures QueueOk(z, p, z.ready[p])
    {
      assert QueueOk(s, p, s.ready[p]);
      forall i | 0 <= i < |z.ready[p]|
        ensures Placed(z, p, z.ready[p][i])
      {
        assert Placed(s, p, s.ready[p][i]);
      }
    }
    forall x | x in z.state && z.state[x] == Ready
      ensures OnQueue(z, x)
    {
      assert OnQueue(s, x);
    }
    forall w | w in z.waits
      ensures ListOk(z, z.waits[w]) && t !in z.waits[w]
    {
      assert ListOk(s, s.waits[w]);
      AddedList(s, z, t, s.waits[w]);
    }
  }

  lemma AddedList(s: Sched, z: Sched, t: nat, q: seq<nat>)
    requires ListOk(s, q) && Added(s, z, t)
    ensures ListOk(z, q) && t !in q
  {
  }

  lemma DeclareKeeps(s: Sched, t: nat, prio: nat)
    requires Inv(s) && t !in s.state && prio < PRIOS
    ensures Inv(Declare(s, t, prio))
  {
    hide Queues, Waits, BitsOk, QueueOk, ListOk;
    var z := Declare(s, t, prio);
    AddedParts(s, z, t);
    assert s.current in s.state && Known(s, s.current);
  }

  lemma NewThreadCore(s: Sched, z: Sched, t: nat)
    requires Core(s) && Added(s, z, t) && t != s.idle && z.info[t].thread && z.prio[t] >= 1
    requires z.info[t].base && z.info[t].refs >= 1
    ensures Shaped(z) && Core(Enqueue(z, t))
  {
    hide Queues, Waits, BitsOk, Added;
    AddedParts(s, z, t);
    EnqueueQueues2(s, z, t);
    EnqueueWaits(z, t);
    EnqueueShaped(z, t);
    NewTasks(s, z, t);
  }

  lemma EnqueueQueues2(s: Sched, z: Sched, t: nat)
    requires Shaped(z) && Queues(z) && BitsOk(s.ready, s.active) && Added(s, z, t) && !s.doubled && Known(z, t)
    ensures var y := Enqueue(z, t); Shaped(y) && Queues(y) && BitsOk(y.ready, y.active) && !y.doubled
    ensures Enqueue(z, t).current == s.current && Enqueue(z, t).idle == s.idle && t !in s.state
    ensures Enqueue(z, t).state == s.state[t := Ready] && Enqueue(z, t).prio == z.prio && Enqueue(z, t).info == z.info
  {
    hide Queues;
    EnqueueQueues(z, t);
  }

  lemma NewTasks(s: Sched, z: Sched, t: nat)
    requires Shaped(s) && Tasks(s) && Added(s, z, t) && t != s.idle && z.info[t].thread && z.prio[t] >= 1
    requires z.info[t].base && z.info[t].refs >= 1 && Shaped(z) && Known(z, t)
    ensures Shaped(Enqueue(z, t)) && Tasks(Enqueue(z, t))
  {
    EnqueueShaped(z, t);
    forall x | x in Enqueue(z, t).state
      ensures Known(Enqueue(z, t), x) && TaskOk(s.idle, x, Enqueue(z, t).state[x], z.prio[x], z.info[x])
    {
      if x != t {
        assert Known(s, x);
      }
    }
  }

  lemma CreateKeeps(s: Sched, t: nat, prio: nat, detached: bool)
    requires Inv(s) && t !in s.state
    ensures Inv(Create(s, t, prio, detached))
  {
    hide Queues, Waits, BitsOk, Enqueue, Tasks, Core;
    var z := s.(state := s.state[t := Inert], prio := s.prio[t := ThreadPrio(prio)], info := s.info[t := Info(true, detached, true, 1)]);
    assert Core(s) by { InvShaped(s); }
    NewThreadCore(s, z, t);
    SameCore(Enqueue(z, t), Create(s, t, prio, detached));
    CoreShaped(Create(s, t, prio, detached));
    InvOf(Create(s, t, prio, detached));
  }

  lemma CoreShaped(s: Sched)
    requires Core(s)
    ensures Shaped(s)
  {
    hide Queues, Waits, BitsOk, Tasks;
  }

  lemma TaskRunKeeps(s: Sched, t: nat)
    requires Inv(s) && t in s.state && Known(s, t) && !s.info[t].thread
    ensures Inv(TaskRun(s, t))
  {
    hide Queues, Waits, BitsOk, Enqueue, Ordered, OneRuns;
    var z := TaskRun(s, t);
    if s.state[t] == Inert {
      NotListed(s, t);
      EnqueueCore(s, t);
      SameCore(Enqueue(s, t), z);
    } else {
      SameCore(s, z);
    }
    CoreShaped(z);
    PendingOrdered(z);
  }

  /** A freeing task that could not free yet queues itself again. */
  lemma AgainKeeps(s: Sched, t: nat)
    requires Inv(s) && s.switching && t in s.state && Known(s, t) && !s.info[t].thread && s.state[t] == Inert
    ensures Inv(Enqueue(s, t))
  {
    hide Queues, Waits, BitsOk, Tasks, OneRuns;
    NotListed(s, t);
    EnqueueCore(s, t);
  }

  /** Only what is known about t changed, and t is neither queued nor listed. */
  predicate Reclassed(s: Sched, z: Sched, t: nat) {
    && t in s.state && t in z.prio && t in z.info && s.state[t] != Ready
    && (forall w :: w in s.waits ==> t !in s.waits[w])
    && z.prio == s.prio[t := z.prio[t]] && z.info == s.info[t := z.info[t]] && 0 <= z.prio[t] < PRIOS
    && z.state == s.state && z.ready == s.ready && z.active == s.active && z.waits == s.waits
    && z.doubled == s.doubled && z.current == s.current && z.idle == s.idle
  }

  lemma ReclassedParts(s: Sched, z: Sched, t: nat)
    requires Core(s) && Reclassed(s, z, t)
    ensures Shaped(z) && Queues(z) && Waits(z) && OneRuns(z) && Known(z, t)
  {
    hide BitsOk, Tasks, Distinct, Apart, Descending;
    forall x | x in z.state
      ensures Known(z, x)
    {
      assert Known(s, x);
    }
    forall p: nat | p < PRIOS
      ensures QueueOk(z, p, z.ready[p])
    {
      assert QueueOk(s, p, s.ready[p]);
      forall i | 0 <= i < |z.ready[p]|
        ensures Placed(z, p, z.ready[p][i])
      {
        assert Placed(s, p, s.ready[p][i]);
      }
    }
    forall x | x in z.state && z.state[x] == Ready
      ensures OnQueue(z, x)
    {
      assert OnQueue(s, x);
    }
    forall w | w in z.waits
      ensures ListOk(z, z.waits[w])
    {
      assert ListOk(s, s.waits[w]);
      ReclassedList(s, z, t, s.waits[w]);
    }
  }

  lemma ReclassedList(s: Sched, z: Sched, t: nat, q: seq<nat>)
    requires ListOk(s, q) && t !in q && t in z.prio && z.prio == s.prio[t := z.prio[t]] && z.state == s.state
    ensures ListOk(z, q)
  {
  }

  /** The last reference is gone: the thread is queued to be freed. */
  lemma FreedCore(s: Sched, z: Sched, t: nat)
    requires Core(s) && Reclassed(s, z, t) && t != s.idle && !z.info[t].thread && !z.info[t].base
    ensures Known(z, t) && Shaped(z) && Core(Enqueue(z, t))
  {
    hide Queues, Waits, BitsOk, Reclassed;
    ReclassedParts(s, z, t);
    ReclassedFacts(s, z, t);
    EnqueueQueues(z, t);
    EnqueueWaits(z, t);
    FreedTasks(s, z, t);
  }

  lemma ReclassedFacts(s: Sched, z: Sched, t: nat)
    requires Reclassed(s, z, t) && BitsOk(s.ready, s.active) && !s.doubled && OneRuns(s)
    ensures t in z.state && z.state[t] != Ready && BitsOk(z.ready, z.active) && !z.doubled
    ensures forall w :: w in z.waits ==> t !in z.waits[w]
    ensures |z.ready| == PRIOS && Known(z, t) ==> OneRuns(Enqueue(z, t))
  {
  }

  lemma FreedTasks(s: Sched, z: Sched, t: nat)
    requires Shaped(s) && Tasks(s) && Reclassed(s, z, t) && t != s.idle && !z.info[t].thread && !z.info[t].base
    requires Shaped(z) && Known(z, t)
    ensures Shaped(Enqueue(z, t)) && Tasks(Enqueue(z, t))
  {
    EnqueueShaped(z, t);
    var y := Enqueue(z, t);
    forall x | x in y.state
      ensures Known(y, x) && TaskOk(y.idle, x, y.state[x], y.prio[x], y.info[x])
    {
      assert Known(s, x);
    }
  }

  lemma ExitDetachedKeeps(s: Sched)
    requires Inv(s) && MaySleep(s) && Known(s, s.current) && s.info[s.current].detached && s.info[s.current].refs == 1
    requires KnownAll(s, WaitList(s, JOIN))
    ensures Inv(Exit(s))
  {
    hide Queues, Waits, BitsOk, Enqueue, Tasks, Ordered, OneRuns;
    var t := s.current;
    NotListed(s, t);
    var z := s.(info := s.info[t := s.info[t].(base := false, thread := false, refs := 0)], prio := s.prio[t := 1]);
    FreedCore(s, z, t);
    assert Exit(s) == Enqueue(z, t).(pending := true) by {
      var i := s.info[t].(base := false);
      assert s.info[t := i][t := i.(thread := false, refs := 0)] == z.info;
    }
    SameCore(Enqueue(z, t), Exit(s));
    CoreShaped(Exit(s));
    PendingOrdered(Exit(s));
  }

  lemma ZombieCore(s: Sched)
    requires Core(s) && MaySleep(s) && Known(s, s.current) && !s.info[s.current].detached
    ensures Inv(s.(state := s.state[s.current := Zombie], pending := true))
  {
    hide Queues, BitsOk, Waits;
    var z := s.(state := s.state[s.current := Zombie], pending := true);
    NotListed(s, s.current);
    StillWaits(s, s.current, Zombie);
    RunnerIsThread(s);
    RestatedWaits(s, z);
    RestatedCore(s, z, s.current, Zombie);
  }

  lemma ExitKeeps(s: Sched)
    requires Inv(s) && MaySleep(s) && Known(s, s.current)
    requires s.info[s.current].detached ==> s.info[s.current].refs == 1
    ensures KnownAll(s, WaitList(s, JOIN)) && Inv(Exit(s))
  {
    hide Inv, Release;
    InvShaped(s);
    ListKnown(s, JOIN);
    if s.info[s.current].detached {
      ExitDetachedKeeps(s);
    } else {
      ZombieCore(s);
      ZombieShaped(s);
      WakeAllKeeps(s.(state := s.state[s.current := Zombie], pending := true), JOIN);
    }
  }

  lemma FreedOrdered(s: Sched, z: Sched, t: nat)
    requires Core(s) && Ordered(s) && MaySleep(s) && Reclassed(s, z, t) && t != s.current && z.prio[t] == 1
    requires z.pending == s.pending && z.switching == s.switching && Shaped(z) && Known(z, t) && Shaped(Enqueue(z, t))
    ensures Ordered(Enqueue(z, t))
  {
    hide Queues, Waits, BitsOk, Tasks;
    RunnerIsThread(s);
  }

  /** Giving up a reference, by a running thread, to a thread that has one to
      spare or is a zombie. */
  lemma ReleaseKeeps(s: Sched, t: nat, base: bool)
    requires Inv(s) && MaySleep(s) && Known(s, t) && t != s.idle && s.info[t].thread
    requires !base ==> s.state[t] == Zombie
    requires base ==> s.info[t].base && s.info[t].refs >= 2
    ensures Inv(Release(s.(info := s.info[t := s.info[t].(base := base)]), t))
  {
    hide Queues, Waits, BitsOk, Enqueue, Ordered, OneRuns;
    assert Known(s, t);
    var refs := s.info[t].refs - 1;
    var i := s.info[t].(base := base);
    if refs > 0 {
      var z := s.(info := s.info[t := i.(refs := refs)]);
      assert s.info[t := i][t := i.(refs := refs)] == z.info;
      ReleaseSome(s, z, t);
    } else {
      var z := s.(info := s.info[t := i.(thread := false, refs := 0)], prio := s.prio[t := 1]);
      assert s.info[t := i][t := i.(thread := false, refs := 0)] == z.info;
      NotListed(s, t);
      FreedCore(s, z, t);
      CoreShaped(Enqueue(z, t));
      FreedOrdered(s, z, t);
    }
  }

  /** Counting references changes nothing the scheduler looks at. */
  lemma ReleaseSome(s: Sched, z: Sched, t: nat)
    requires Inv(s) && Known(s, t) && t in z.info && z == s.(info := s.info[t := z.info[t]])
    requires TaskOk(s.idle, t, s.state[t], s.prio[t], z.info[t])
    ensures Inv(z)
  {
    hide TaskOk, QueueOk, ListOk, Apart, BitsOk;
    forall x | x in z.state
      ensures Known(z, x)
    {
      assert Known(s, x);
    }
    forall p: nat | p < PRIOS
      ensures QueueOk(z, p, z.ready[p])
    {
      QueueSame(s, z, p);
    }
    forall x | x in z.state && z.state[x] == Ready
      ensures OnQueue(z, x)
    {
      assert OnQueue(s, x);
    }
    forall w | w in z.waits
      ensures ListOk(z, z.waits[w])
    {
      ListSame(s, z, s.waits[w]);
    }
  }

  lemma RetainKeeps(s: Sched, t: nat)
    requires Inv(s) && Known(s, t) && s.info[t].thread && t != s.idle
    ensures Inv(Retain(s, t))
  {
    hide Queues, Waits, BitsOk, OneRuns, Ordered;
    ReleaseSome(s, Retain(s, t), t);
  }

  // ---------------------------------------------------------------------
  // Runs
  // ---------------------------------------------------------------------

  datatype Action =
    | Spawn(t: nat, prio: nat, detached: bool) | Define(t: nat, prio: nat) | RunTask(t: nat) | RunAgain(t: nat)
    | SleepList(w: nat) | SleepTime | Wake(w: nat, all: bool) | TimeUp(t: nat)
    | Switch | Leave | JoinThread(t: nat) | Hold(t: nat) | Drop(t: nat)

  /** What every operation needs: the tables cover all that is queued or waits. */
  predicate Sound(s: Sched) {
    && Shaped(s) && BitsOk(s.ready, s.active)
    && (forall p: nat :: p < PRIOS ==> KnownAll(s, s.ready[p]))
    && (forall w :: w in s.waits ==> KnownAll(s, s.waits[w]))
  }

  /** A step whose guard is false changes nothing. A switch goes round again
      while it runs callbacks. */
  function Act(s: Sched, a: Action): Sched
    requires Sound(s)
  {
    SoundReady(s);
    match a
    case Spawn(t, prio, detached) => if t in s.state then s else Create(s, t, prio, detached)
    case Define(t, prio) => if t in s.state || prio >= PRIOS then s else Declare(s, t, prio)
    case RunTask(t) => if t in s.state && Known(s, t) && !s.info[t].thread then TaskRun(s, t) else s
    case RunAgain(t) =>
      if s.switching && t in s.state && Known(s, t) && !s.info[t].thread && s.state[t] == Inert then Enqueue(s, t) else s
    case SleepList(w) => if MaySleep(s) then SleepOn(s, w) else s
    case SleepTime => if MaySleep(s) then SleepUntil(s) else s
    case Wake(w, all) => Wakeup(s, w, all)
    case TimeUp(t) => if t in s.state && Known(s, t) then Timeout(s, t) else s
    case Switch => Pick(if s.switching then s else s.(pending := false))
    case Leave => if MaySleep(s) then Exit(s) else s
    case JoinThread(t) => if MaySleep(s) && Joinable(s, t) then Join(s, t) else s
    case Hold(t) => if t in s.state && Known(s, t) && s.info[t].thread && t != s.idle && s.state[t] != Zombie then Retain(s, t) else s
    case Drop(t) => if MaySleep(s) && Droppable(s, t) then Release(s, t) else s
  }

  lemma SoundReady(s: Sched)
    requires Sound(s)
    ensures |s.ready| == PRIOS && Shaped(s.(pending := false))
    ensures forall p, i :: 0 <= p < PRIOS && 0 <= i < |s.ready[p]| ==> s.ready[p][i] in s.info
    ensures forall w :: KnownAll(s, WaitList(s, w)) && Keyed(s.prio, WaitList(s, w))
  {
    forall p, i | 0 <= p < PRIOS && 0 <= i < |s.ready[p]|
      ensures s.ready[p][i] in s.info
    {
      assert KnownAll(s, s.ready[p]);
    }
  }

  lemma CoreSound(s: Sched)
    requires Core(s)
    ensures Sound(s)
  {
    hide Tasks, OneRuns, BitsOk, Distinct, Descending, Apart;
    forall p: nat | p < PRIOS
      ensures KnownAll(s, s.ready[p])
    {
      assert QueueOk(s, p, s.ready[p]);
      forall i | 0 <= i < |s.ready[p]|
        ensures Known(s, s.ready[p][i])
      {
        assert Placed(s, p, s.ready[p][i]);
      }
    }
    forall w | w in s.waits
      ensures KnownAll(s, s.waits[w])
    {
      assert ListOk(s, s.waits[w]);
    }
  }

  function Step(s: Sched, a: Action): Sched
    requires Core(s)
  {
    CoreSound(s);
    Act(s, a)
  }

  predicate Joinable(s: Sched, t: nat) {
    t in s.state && Known(s, t) && t != s.idle && s.info[t].thread && s.info[t].base && s.state[t] == Zombie
  }

  /** Somebody other than the thread itself holds a reference. */
  predicate Droppable(s: Sched, t: nat) {
    t in s.state && Known(s, t) && t != s.idle && s.info[t].thread && s.info[t].refs >= if s.info[t].base then 2 else 1
  }

  lemma ListDistinct(s: Sched, w: nat)
    requires Core(s)
    ensures Distinct(WaitList(s, w))
  {
    hide Queues, BitsOk, Tasks, OneRuns, Apart, Descending;
    if w in s.waits { assert ListOk(s, s.waits[w]); }
  }

  lemma ListKeyed(s: Sched, w: nat)
    requires Core(s)
    ensures Keyed(s.prio, WaitList(s, w)) && Shaped(s)
  {
    hide Queues, BitsOk, Tasks, Apart, Distinct, Descending;
    if w in s.waits { assert ListOk(s, s.waits[w]); }
  }

  lemma SwitchReady(s: Sched)
    requires Core(s)
    ensures forall p, i :: 0 <= p < PRIOS && 0 <= i < |s.ready[p]| ==> s.ready[p][i] in s.info
    ensures Core(s.(pending := false)) && Shaped(s) && Shaped(s.(pending := false)) && BitsOk(s.ready, s.active)
  {
    hide Queues, Waits, Tasks, OneRuns;
    QueuedInfo(s);
    SameCore(s, s.(pending := false));
  }

  /** A detached thread does not exit while somebody else holds a reference. */
  predicate Admissible(s: Sched, a: Action) {
    a.Leave? && MaySleep(s) && Known(s, s.current) && s.info[s.current].detached ==> s.info[s.current].refs == 1
  }

  lemma StepKeeps(s: Sched, a: Action)
    requires Core(s) && Inv(s) && Admissible(s, a)
    ensures Inv(Step(s, a))
  {
    hide Inv, Core, Create, Declare, TaskRun, Enqueue, SleepOn, SleepUntil, WakeFirst, WakeAll, Timeout, Pick, Exit;
    CoreShaped(s);
    match a
    case Spawn(t, prio, detached) => if t !in s.state { CreateKeeps(s, t, prio, detached); }
    case Define(t, prio) => if t !in s.state && prio < PRIOS { DeclareKeeps(s, t, prio); }
    case RunTask(t) => if t in s.state && Known(s, t) && !s.info[t].thread { TaskRunKeeps(s, t); }
    case RunAgain(t) =>
      if s.switching && t in s.state && Known(s, t) && !s.info[t].thread && s.state[t] == Inert { AgainKeeps(s, t); }
    case SleepList(w) => if MaySleep(s) { SleepKeeps(s, w); }
    case SleepTime => if MaySleep(s) { SleepUntilKeeps(s); }
    case Wake(w, all) =>
      ListKnown(s, w);
      WakeAllKeeps(s, w);
      if WaitList(s, w) != [] { WakeKeeps(s, w); }
    case TimeUp(t) => if t in s.state { TimeoutKeeps(s, t); }
    case Switch =>
      SwitchReady(s);
      PickKeeps(if s.switching then s else s.(pending := false));
    case Leave =>
      if MaySleep(s) {
        assert Known(s, s.current);
        ExitKeeps(s);
      }
    case JoinThread(t) => if MaySleep(s) && Joinable(s, t) { ReleaseKeeps(s, t, false); }
    case Hold(t) =>
      if t in s.state && Known(s, t) && s.info[t].thread && t != s.idle && s.state[t] != Zombie { RetainKeeps(s, t); }
    case Drop(t) =>
      if MaySleep(s) && Droppable(s, t) {
        DropIsZombie(s, t);
        ReleaseKeeps(s, t, s.info[t].base);
        assert s.info[t := s.info[t].(base := s.info[t].base)] == s.info;
      }
  }

  lemma DropIsZombie(s: Sched, t: nat)
    requires Core(s) && Droppable(s, t)
    ensures !s.info[t].base ==> s.state[t] == Zombie
  {
    hide Queues, Waits, BitsOk;
  }

  function Next(s: Sched, a: Action): Sched { if Sound(s) then Act(s, a) else s }

  lemma NextIsStep(s: Sched, a: Action)
    requires Core(s)
    ensures Next(s, a) == Step(s, a)
  {
    hide Act, Core, Sound;
    CoreSound(s);
  }

  function Run(s: Sched, actions: seq<Action>): Sched
    decreases actions
  {
    if actions == [] then s else Next(Run(s, actions[..|actions| - 1]), actions[|actions| - 1])
  }

  predicate AdmissibleRun(s: Sched, actions: seq<Action>)
    decreases actions
  {
    actions != [] ==>
      AdmissibleRun(s, actions[..|actions| - 1]) && Admissible(Run(s, actions[..|actions| - 1]), actions[|actions| - 1])
  }

  lemma {:induction false} RunKeeps(s: Sched, actions: seq<Action>)
    requires Inv(s) && AdmissibleRun(s, actions)
    ensures Inv(Run(s, actions))
    decreases actions
  {
    hide Inv, Core, Step, Next, Admissible;
    if actions != [] {
      var s1 := Run(s, actions[..|actions| - 1]);
      RunKeeps(s, actions[..|actions| - 1]);
      InvShaped(s1);
      NextIsStep(s1, actions[|actions| - 1]);
      StepKeeps(s1, actions[|actions| - 1]);
    }
  }

  // ---------------------------------------------------------------------
  // Guarantees
  // ---------------------------------------------------------------------

  lemma Reached(idle: nat, actions: seq<Action>)
    requires AdmissibleRun(Boot(idle), actions)
    ensures Inv(Run(Boot(idle), actions))
  {
    hide Inv, AdmissibleRun;
    BootInv(idle);
    RunKeeps(Boot(idle), actions);
  }

  /** In every run: bit p is set exactly when queue p is not empty; a task is
      ready exactly when it is on the queue of its priority, where it occurs
      once, and on no other; and no queued task was ever queued again. */
  lemma StructureHolds(idle: nat, actions: seq<Action>, p: nat, t: nat)
    requires AdmissibleRun(Boot(idle), actions) && p < PRIOS
    ensures var s := Run(Boot(idle), actions);
      && |s.ready| == PRIOS && !s.doubled
      && (p in s.active <==> s.ready[p] != [])
      && Distinct(s.ready[p])
      && (t in s.ready[p] <==> t in s.state && t in s.prio && s.state[t] == Ready && s.prio[t] == p)
  {
    hide Waits, Tasks, OneRuns, Ordered, Distinct, AdmissibleRun, Boot, Run;
    Reached(idle, actions);
    var s := Run(Boot(idle), actions);
    assert QueueOk(s, p, s.ready[p]);
    if t in s.ready[p] {
      var i :| 0 <= i < |s.ready[p]| && s.ready[p][i] == t;
      assert Placed(s, p, s.ready[p][i]);
    }
    if t in s.state && s.state[t] == Ready {
      assert OnQueue(s, t);
    }
  }

  /** At all times outside a switch, a ready task that outranks the current
      thread has a reschedule pending; without one the current thread runs. */
  lemma PreemptionPending(idle: nat, actions: seq<Action>, t: nat)
    requires AdmissibleRun(Boot(idle), actions)
    ensures var s := Run(Boot(idle), actions);
      && s.current in s.state && s.current in s.prio
      && (!s.switching && t in s.state && s.state[t] == Ready && t in s.prio && s.prio[t] > s.prio[s.current] ==> s.pending)
      && (!s.switching && s.state[s.current] != Running && !(s.current == s.idle && s.state[s.idle] == Zombie) ==> s.pending)
  {
    hide Waits, Queues, OneRuns, BitsOk, Tasks, AdmissibleRun, Boot, Run;
    Reached(idle, actions);
    var s := Run(Boot(idle), actions);
    assert Known(s, s.current);
  }

  /** A switch ends on a thread at least as high as everything ready. */
  lemma SwitchOrders(s: Sched)
    requires Core(s)
    ensures Core(Step(s, Switch))
    ensures var z := Step(s, Switch);
      !z.switching ==>
        && z.current in z.state && z.state[z.current] == Running && z.current in z.prio && Below(z, z.prio[z.current])
  {
    hide Core, Queues, Waits, BitsOk, Tasks, OneRuns, Pick;
    SwitchReady(s);
    var s1 := if s.switching then s else s.(pending := false);
    PickKeeps(s1);
    InvShaped(Pick(s1));
    PickEnds(s1);
  }

  lemma PickEnds(s: Sched)
    requires Core(s)
    requires forall p, i :: 0 <= p < PRIOS && 0 <= i < |s.ready[p]| ==> s.ready[p][i] in s.info
    ensures var z := Pick(s);
      !z.switching ==> z.current in z.state && z.state[z.current] == Running && z.current in z.prio && Below(z, z.prio[z.current])
  {
    hide Queues, Waits, Tasks, OneRuns, Requeue, BitsOk, Below, Core;
    CoreShaped(s);
    RequeueCore(s);
    RequeueBits2(s);
    var s1 := Requeue(s);
    CoreShaped(s1);
    if s1.active == {} {
      ReadyActive(s1);
      IdleBelow(s1);
    } else {
      var p := Highest(s1.active, PRIOS);
      HighestBelow(s1, p);
      HeadPrio(s1, p);
      TakenBelow(s1, Dispatch(Dequeue(s1, p), s1.ready[p][0]), s1.ready[p][0], p);
    }
  }

  lemma RequeueBits2(s: Sched)
    requires Core(s)
    ensures Shaped(s) && BitsOk(s.ready, s.active)
    ensures Shaped(Requeue(s)) && BitsOk(Requeue(s).ready, Requeue(s).active)
    ensures forall q :: q in Requeue(s).active ==> q < PRIOS && Requeue(s).ready[q] != []
  {
    hide Queues, Waits, Tasks, OneRuns;
    RequeueBits(s);
  }

  lemma IdleBelow(s: Sched)
    requires Shaped(s) && forall t :: t in s.state ==> s.state[t] != Ready
    ensures var z := Dispatch(s, s.idle); !z.switching ==> z.current in z.prio && Below(z, z.prio[z.current])
  {
    assert Known(s, s.idle);
  }

  lemma HeadPrio(s: Sched, p: nat)
    requires Core(s) && p < PRIOS && s.ready[p] != []
    ensures var t := s.ready[p][0]; Known(s, t) && s.prio[t] == p
  {
    hide Waits, Tasks, OneRuns, BitsOk, Distinct;
    assert QueueOk(s, p, s.ready[p]) && Placed(s, p, s.ready[p][0]) && Known(s, s.ready[p][0]);
  }

  lemma TakenBelow(s: Sched, z: Sched, t: nat, p: int)
    requires Below(s, p) && t in s.state && t in s.prio && t in s.info && s.prio[t] == p
    requires z.prio == s.prio && (z.state == s.state[t := Running] || z.state == s.state[t := Inert])
    requires !z.switching ==> z.current == t
    ensures !z.switching ==> Below(z, z.prio[z.current])
  {
  }

  /** A single wakeup picks a waiter of the highest priority on the list. */
  lemma WakesHighest(s: Sched, w: nat, i: nat)
    requires Core(s) && i < |WaitList(s, w)|
    ensures Keyed(s.prio, WaitList(s, w)) && s.prio[WaitList(s, w)[i]] <= s.prio[WaitList(s, w)[0]]
  {
    hide Queues, BitsOk, Tasks, OneRuns, Apart, Distinct;
    assert ListOk(s, s.waits[w]);
  }

  /** Going to sleep puts a thread behind all its equals and betters, and ahead
      of all below it, without disturbing their order. */
  lemma SleepsInTurn(s: Sched, w: nat)
    requires Core(s) && MaySleep(s)
    ensures Keyed(s.prio, WaitList(s, w)) && s.current in s.prio
    ensures var q := WaitList(s, w);
      var k := Place(s.prio, q, s.current);
      && k <= |q| && WaitList(SleepOn(s, w), w) == q[..k] + [s.current] + q[k..]
      && (forall i :: 0 <= i < |q| ==> (s.prio[q[i]] >= s.prio[s.current] <==> i < k))
  {
    hide Queues, BitsOk, Tasks, OneRuns, Apart, Distinct, Place;
    ListKeyed(s, w);
    assert Known(s, s.current);
    if w in s.waits {
      assert ListOk(s, s.waits[w]);
    } else {
      EmptyList(s);
    }
    InsertSorted(s.prio, WaitList(s, w), s.current);
  }

  lemma ShapedReady(s: Sched)
    requires Shaped(s)
    ensures |s.ready| == PRIOS
  {
  }
}
