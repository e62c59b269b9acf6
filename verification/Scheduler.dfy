/** The kernel's scheduler: ready queues by priority with a bitmap of the
    non-empty ones, wait lists, and the switch to the next thread. Every
    function here is one run of kernel code with the scheduler interrupt
    blocked. */
module Scheduler {
  import opened WaitLists

  const PRIOS: nat := 32

  /** The list that joining threads wait on. */
  const JOIN: nat := 0

  datatype State = Inert | Running | Ready | Sleeping | Zombie

  /** `base` is the reference that exiting or joining gives up. */
  datatype Info = Info(thread: bool, detached: bool, base: bool, refs: nat)

  /** `pending` says a reschedule has been requested; `switching`, that the
      switch is running the callback of a task without a stack; `doubled`, that
      a task was queued while already queued. */
  datatype Sched = Sched(
    state: map<nat, State>, prio: map<nat, int>, info: map<nat, Info>,
    ready: seq<seq<nat>>, active: set<nat>,
    current: nat, idle: nat, pending: bool, switching: bool,
    waits: map<nat, seq<nat>>, doubled: bool)

  function WaitList(s: Sched, w: nat): seq<nat> { if w in s.waits then s.waits[w] else [] }

  predicate Known(s: Sched, t: nat) {
    t in s.state && t in s.prio && t in s.info && 0 <= s.prio[t] < PRIOS
  }

  predicate KnownAll(s: Sched, q: seq<nat>) { forall i :: 0 <= i < |q| ==> Known(s, q[i]) }

  /** Tables cover the same tasks, and there is a queue for every priority. */
  predicate Shaped(s: Sched) {
    && |s.ready| == PRIOS
    && (forall t :: t in s.state ==> Known(s, t))
    && s.current in s.state && s.idle in s.state
  }

  // ---------------------------------------------------------------------
  // Queueing
  // ---------------------------------------------------------------------

  /** `readyqueue_insert`. */
  function Enqueue(s: Sched, t: nat): Sched
    requires |s.ready| == PRIOS && Known(s, t)
  {
    var p := s.prio[t];
    s.(ready := s.ready[p := s.ready[p] + [t]], active := s.active + {p},
       state := s.state[t := Ready], doubled := s.doubled || s.state[t] == Ready)
  }

  /** A sleeping task becomes runnable; the current thread, still on its way to
      sleep, just goes on running. */
  function Rouse(s: Sched, t: nat): Sched
    requires |s.ready| == PRIOS && Known(s, t)
  {
    if t != s.current then Enqueue(s, t) else s.(state := s.state[t := Running])
  }

  /** Whether waking t asks for a reschedule. */
  predicate Outranks(s: Sched, t: nat)
    requires Known(s, t) && Known(s, s.current)
  {
    t == s.current || s.prio[t] >= s.prio[s.current]
  }

  /** The first waiter of a list is woken. */
  function WakeFirst(s: Sched, w: nat): Sched
    requires Shaped(s) && WaitList(s, w) != [] && Known(s, WaitList(s, w)[0])
  {
    var t := WaitList(s, w)[0];
    var s1 := s.(waits := s.waits[w := WaitList(s, w)[1..]]);
    Rouse(s1, t).(pending := s.pending || Outranks(s, t))
  }

  /** `task_wakeup_sched_locked` for all waiters. */
  function WakeAll(s: Sched, w: nat): Sched
    requires Shaped(s) && KnownAll(s, WaitList(s, w))
    decreases |WaitList(s, w)|
  {
    if WaitList(s, w) == [] then s
    else
      WakeShaped(s, w);
      WakeAll(WakeFirst(s, w), w)
  }

  lemma WakeShaped(s: Sched, w: nat)
    requires Shaped(s) && WaitList(s, w) != [] && Known(s, WaitList(s, w)[0])
    ensures var z := WakeFirst(s, w);
      && Shaped(z) && z.prio == s.prio && z.info == s.info && z.state.Keys == s.state.Keys
      && WaitList(z, w) == WaitList(s, w)[1..]
      && (forall t :: Known(s, t) ==> Known(z, t))
  {
  }

  function Wakeup(s: Sched, w: nat, all: bool): Sched
    requires Shaped(s) && KnownAll(s, WaitList(s, w))
  {
    if all then WakeAll(s, w) else if WaitList(s, w) == [] then s else WakeFirst(s, w)
  }

  /** The current thread goes to sleep on a list, in priority order. */
  function SleepOn(s: Sched, w: nat): Sched
    requires Known(s, s.current) && Keyed(s.prio, WaitList(s, w))
  {
    s.(state := s.state[s.current := Sleeping], pending := true,
       waits := s.waits[w := Insert(s.prio, WaitList(s, w), s.current)])
  }

  /** The current thread goes to sleep until a time. */
  function SleepUntil(s: Sched): Sched
    requires s.current in s.state
  {
    s.(state := s.state[s.current := Sleeping], pending := true)
  }

  function Unlisted(waits: map<nat, seq<nat>>, t: nat): map<nat, seq<nat>> {
    map w | w in waits :: Remove(waits[w], t)
  }

  /** A sleeping thread's time is up. */
  function Timeout(s: Sched, t: nat): Sched
    requires |s.ready| == PRIOS && Known(s, t)
  {
    if s.state[t] != Sleeping then s
    else Rouse(s.(waits := Unlisted(s.waits, t)), t).(pending := true)
  }

  // ---------------------------------------------------------------------
  // Switching
  // ---------------------------------------------------------------------

  /** The highest set bit of the bitmap. */
  function Highest(active: set<nat>, p: nat): (r: nat)
    requires active != {} && forall q :: q in active ==> q < p
    ensures r in active && forall q :: q in active ==> q <= r
    decreases p
  {
    if p - 1 in active then p - 1 else Highest(active, p - 1)
  }

  /** The switch puts a running thread back on its queue. */
  function Requeue(s: Sched): Sched
    requires |s.ready| == PRIOS && Known(s, s.current)
  {
    if s.state[s.current] == Running then Enqueue(s, s.current) else s
  }

  function Dequeue(s: Sched, p: nat): Sched
    requires p < |s.ready| && s.ready[p] != []
  {
    var rest := s.ready[p][1..];
    s.(ready := s.ready[p := rest], active := if rest == [] then s.active - {p} else s.active)
  }

  /** The chosen thread runs; a task without a stack has its callback run, and
      the switch goes round again. */
  function Dispatch(s: Sched, t: nat): Sched
    requires t in s.info
  {
    if s.info[t].thread then s.(state := s.state[t := Running], current := t, switching := false)
    else s.(state := s.state[t := Inert], switching := true)
  }

  predicate BitsOk(ready: seq<seq<nat>>, active: set<nat>) {
    && (forall p :: p in active ==> p < |ready| && ready[p] != [])
    && (forall p: nat :: p < |ready| && ready[p] != [] ==> p in active)
  }

  /** One turn of the loop in `task_switch`. */
  function Pick(s: Sched): Sched
    requires Shaped(s) && BitsOk(s.ready, s.active)
    requires forall p, i :: 0 <= p < PRIOS && 0 <= i < |s.ready[p]| ==> s.ready[p][i] in s.info
  {
    var s1 := Requeue(s);
    if s1.active == {} then Dispatch(s1, s1.idle)
    else
      RequeueBits(s);
      var p := Highest(s1.active, PRIOS);
      Dispatch(Dequeue(s1, p), s1.ready[p][0])
  }

  lemma RequeueBits(s: Sched)
    requires Shaped(s) && BitsOk(s.ready, s.active)
    ensures Shaped(Requeue(s)) && BitsOk(Requeue(s).ready, Requeue(s).active)
    ensures forall q :: q in Requeue(s).active ==> q < PRIOS
  {
  }

  // ---------------------------------------------------------------------
  // Threads
  // ---------------------------------------------------------------------

  /** Priorities wrap at 32, and zero is left to the idle thread. */
  function ThreadPrio(prio: nat): nat { if prio % PRIOS == 0 then 1 else prio % PRIOS }

  function Create(s: Sched, t: nat, prio: nat, detached: bool): Sched
    requires |s.ready| == PRIOS
  {
    var s1 := s.(state := s.state[t := Inert], prio := s.prio[t := ThreadPrio(prio)],
                 info := s.info[t := Info(true, detached, true, 1)]);
    Enqueue(s1, t).(pending := true)
  }

  /** A task without a stack, such as a driver's deferred work. */
  function Declare(s: Sched, t: nat, prio: nat): Sched {
    s.(state := s.state[t := Inert], prio := s.prio[t := prio], info := s.info[t := Info(false, false, false, 0)])
  }

  function TaskRun(s: Sched, t: nat): Sched
    requires |s.ready| == PRIOS && Known(s, t)
  {
    (if s.state[t] == Inert then Enqueue(s, t) else s).(pending := true)
  }

  /** A reference is given up; with the last one the thread becomes a task that
      frees it. */
  function Release(s: Sched, t: nat): Sched
    requires |s.ready| == PRIOS && Known(s, t)
  {
    var refs := if s.info[t].refs == 0 then 0 else s.info[t].refs - 1;
    if refs > 0 then s.(info := s.info[t := s.info[t].(refs := refs)])
    else
      Enqueue(s.(info := s.info[t := s.info[t].(thread := false, refs := 0)], prio := s.prio[t := 1]), t)
  }

  lemma ZombieShaped(s: Sched)
    requires Shaped(s)
    ensures var s1 := s.(state := s.state[s.current := Zombie], pending := true);
      Shaped(s1) && (forall q :: KnownAll(s, q) ==> KnownAll(s1, q))
  {
    var s1 := s.(state := s.state[s.current := Zombie], pending := true);
    assert forall x :: Known(s, x) ==> Known(s1, x);
  }

  /** `thread_exit`, by the current thread. The reschedule it ends with is
      requested up front; no switch can come between. */
  function Exit(s: Sched): Sched
    requires Shaped(s) && KnownAll(s, WaitList(s, JOIN))
  {
    var t := s.current;
    if s.info[t].detached then
      Release(s.(info := s.info[t := s.info[t].(base := false)]), t).(pending := true)
    else
      ZombieShaped(s);
      WakeAll(s.(state := s.state[t := Zombie], pending := true), JOIN)
  }

  /** The end of `thread_join`: the target is a zombie. */
  function Join(s: Sched, t: nat): Sched
    requires |s.ready| == PRIOS && Known(s, t)
  {
    Release(s.(info := s.info[t := s.info[t].(base := false)]), t)
  }

  function Retain(s: Sched, t: nat): Sched
    requires t in s.info
  {
    s.(info := s.info[t := s.info[t].(refs := s.info[t].refs + 1)])
  }
}
