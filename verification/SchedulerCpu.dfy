/** The scheduler's tables as the kernel updates them in place. Each method is
    one stretch of kernel code and is proved to do what `Scheduler` says. */
module SchedulerCpu {
  import opened WaitLists
  import opened Scheduler
  import S = Scheduler

  class Cpu {
    var state: map<nat, State>
    var prio: map<nat, int>
    var info: map<nat, Info>
    var ready: seq<seq<nat>>
    var active: set<nat>
    var current: nat
    var idle: nat
    var pending: bool
    var switching: bool
    var waits: map<nat, seq<nat>>
    ghost var doubled: bool

    ghost function Value(): Sched
      reads this
    {
      Sched(state, prio, info, ready, active, current, idle, pending, switching, waits, doubled)
    }

    constructor (idle: nat)
      ensures Value() == Sched(map[idle := Zombie], map[idle := 0], map[idle := Info(true, false, false, 0)],
                               seq(PRIOS, _ => []), {}, idle, idle, false, false, map[], false)
    {
      state, prio, info := map[idle := Zombie], map[idle := 0], map[idle := Info(true, false, false, 0)];
      ready, active := seq(PRIOS, _ => []), {};
      this.current, this.idle, pending, switching := idle, idle, false, false;
      waits, doubled := map[], false;
    }

    /** `readyqueue_insert`. */
    method ReadyQueueInsert(t: nat)
      requires |ready| == PRIOS && Known(Value(), t)
      modifies this`ready, this`active, this`state, this`doubled
      ensures Value() == Enqueue(old(Value()), t)
    {
      var p := prio[t];
      doubled := doubled || state[t] == Ready;
      ready := ready[p := ready[p] + [t]];
      active := active + {p};
      state := state[t := Ready];
    }

    /** `task_wakeup_sched_locked`, without poll entries. */
    method Wakeup(w: nat, all: bool)
      requires Shaped(Value()) && KnownAll(Value(), WaitList(Value(), w))
      modifies this
      ensures Value() == S.Wakeup(old(Value()), w, all)
    {
      hide Shaped, Known;
      while w in waits && waits[w] != []
        invariant Shaped(Value()) && KnownAll(Value(), WaitList(Value(), w))
        invariant all ==> WakeAll(Value(), w) == WakeAll(old(Value()), w)
        invariant !all ==> Value() == old(Value())
        decreases |WaitList(Value(), w)|
      {
        WakeShaped(Value(), w);
        WakeOne(w);
        if !all {
          return;
        }
      }
    }

    /** One turn of that loop. */
    method WakeOne(w: nat)
      requires Shaped(Value()) && WaitList(Value(), w) != [] && Known(Value(), WaitList(Value(), w)[0])
      modifies this
      ensures Value() == WakeFirst(old(Value()), w)
    {
      assert Known(Value(), current);
      var t := waits[w][0];
      waits := waits[w := waits[w][1..]];
      var sched := false;
      if t != current {
        if prio[t] >= prio[current] {
          sched := true;
        }
        ReadyQueueInsert(t);
      } else {
        sched := true;
        state := state[t := Running];
      }
      if sched {
        pending := true;
      }
    }

    /** `task_sleep_sched_locked`, up to the wait for a switch. */
    method Sleep(w: nat)
      requires Known(Value(), current) && Keyed(prio, WaitList(Value(), w))
      modifies this`state, this`waits, this`pending
      ensures Value() == SleepOn(old(Value()), w)
    {
      var list := if w in waits then waits[w] else [];
      state := state[current := Sleeping];
      list := InsertInOrder(prio, list, current);
      waits := waits[w := list];
      pending := true;
    }

    /** The callback of a timed sleep's timer. */
    method SleepTimeout(t: nat)
      requires |ready| == PRIOS && Known(Value(), t)
      modifies this
      ensures Value() == Timeout(old(Value()), t)
    {
      hide Remove;
      if state[t] == Sleeping {
        waits := Unlisted(waits, t);
        if t != current {
          ReadyQueueInsert(t);
        } else {
          state := state[t := Running];
        }
        pending := true;
      }
    }

    /** The index of the highest set bit. */
    method HighestActive() returns (which: nat)
      requires active != {} && forall q :: q in active ==> q < PRIOS
      ensures which == Highest(active, PRIOS)
    {
      which := 31;
      while which !in active
        invariant which < PRIOS && forall q :: q in active ==> q <= which
        decreases which
      {
        which := which - 1;
      }
    }

    method RequeueCurrent()
      requires |ready| == PRIOS && Known(Value(), current)
      modifies this
      ensures Value() == Requeue(old(Value()))
    {
      if state[current] == Running {
        ReadyQueueInsert(current);
      }
    }

    method TakeFrom(which: nat) returns (task: nat)
      requires which < |ready| && ready[which] != []
      modifies this`ready, this`active
      ensures Value() == Dequeue(old(Value()), which) && task == old(ready)[which][0]
    {
      task := ready[which][0];
      ready := ready[which := ready[which][1..]];
      if ready[which] == [] {
        active := active - {which};
      }
    }

    method RunNext(task: nat)
      requires task in info
      modifies this`state, this`current, this`switching
      ensures Value() == Dispatch(old(Value()), task)
    {
      if info[task].thread {
        state := state[task := Running];
        current := task;
        switching := false;
      } else {
        state := state[task := Inert];
        switching := true;
      }
    }

    /** One turn of the loop in `task_switch`. */
    method SwitchOnce()
      requires Shaped(Value()) && BitsOk(ready, active)
      requires forall p, i :: 0 <= p < PRIOS && 0 <= i < |ready[p]| ==> ready[p][i] in info
      modifies this
      ensures Value() == Pick(old(Value()))
    {
      hide Highest, Requeue, Dispatch, Known;
      RequeueBits(Value());
      RequeueInfo(Value());
      assert Known(Value(), current) && Known(Value(), idle);
      RequeueCurrent();
      var task := idle;
      if active != {} {
        var which := HighestActive();
        task := TakeFrom(which);
      }
      RunNext(task);
    }

    /** `task_run`. */
    method RunTask(t: nat)
      requires |ready| == PRIOS && Known(Value(), t)
      modifies this
      ensures Value() == TaskRun(old(Value()), t)
    {
      if state[t] == Inert {
        ReadyQueueInsert(t);
      }
      pending := true;
    }

    /** `thread_create_va`, given a new thread. */
    method CreateThread(t: nat, p: nat, detached: bool)
      requires |ready| == PRIOS && t !in state
      modifies this
      ensures Value() == Create(old(Value()), t, p, detached)
    {
      var q := p % PRIOS;
      if q == 0 {
        q := 1;
      }
      state := state[t := Inert];
      prio := prio[t := q];
      info := info[t := Info(true, detached, true, 1)];
      ReadyQueueInsert(t);
      pending := true;
    }

    /** `thread_release`. */
    method ReleaseThread(t: nat)
      requires |ready| == PRIOS && Known(Value(), t) && info[t].refs > 0
      modifies this
      ensures Value() == Release(old(Value()), t)
    {
      info := info[t := info[t].(refs := info[t].refs - 1)];
      if info[t].refs != 0 {
        return;
      }
      info := info[t := info[t].(thread := false)];
      prio := prio[t := 1];
      ReadyQueueInsert(t);
    }

    /** `thread_exit`. */
    method ExitThread()
      requires Shaped(Value()) && KnownAll(Value(), WaitList(Value(), JOIN)) && info[current].refs > 0
      modifies this
      ensures Value() == Exit(old(Value()))
    {
      hide S.Wakeup, WakeAll, Release;
      ZombieShaped(Value());
      assert Known(Value(), current);
      pending := true;
      if info[current].detached {
        info := info[current := info[current].(base := false)];
        ReleasePending(Value(), old(pending), current);
        ReleaseThread(current);
      } else {
        state := state[current := Zombie];
        assert WaitList(Value(), JOIN) == WaitList(old(Value()), JOIN);
        WakeupAllIs(Value(), JOIN);
        Wakeup(JOIN, true);
      }
    }
  }

  lemma ReleasePending(s: Sched, pending: bool, t: nat)
    requires |s.ready| == PRIOS && Known(s, t) && s.pending
    ensures Release(s, t) == Release(s.(pending := pending), t).(pending := true)
  {
  }

  lemma WakeupAllIs(s: Sched, w: nat)
    requires Shaped(s) && KnownAll(s, WaitList(s, w))
    ensures S.Wakeup(s, w, true) == WakeAll(s, w)
  {
  }

  lemma RequeueInfo(s: Sched)
    requires Shaped(s) && forall p, i :: 0 <= p < PRIOS && 0 <= i < |s.ready[p]| ==> s.ready[p][i] in s.info
    ensures Known(s, s.current) && Requeue(s).info == s.info && Requeue(s).idle == s.idle && s.idle in s.info
    ensures |Requeue(s).ready| == PRIOS
    ensures forall p, i :: 0 <= p < PRIOS && 0 <= i < |Requeue(s).ready[p]| ==> Requeue(s).ready[p][i] in s.info
  {
    assert Known(s, s.idle);
  }
}
