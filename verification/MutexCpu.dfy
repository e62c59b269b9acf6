/** The slow paths of mutexes and condition variables as the kernel runs them,
    with the scheduler interrupt blocked. */
module MutexCpu {
  import opened WaitLists
  import opened Scheduler
  import opened SchedulerRuns
  import opened SchedulerCpu
  import opened Mutex

  class Locks {
    const cpu: Cpu
    const mutexes: set<nat>
    var bit: set<nat>
    ghost var pc: map<nat, Pc>
    ghost var holds: map<nat, set<nat>>

    ghost function Value(): Kernel
      reads this, cpu
    {
      Kernel(cpu.Value(), mutexes, bit, pc, holds)
    }

    constructor (cpu: Cpu, mutexes: set<nat>)
      ensures this.cpu == cpu && Value() == Kernel(cpu.Value(), mutexes, {}, map[], map[])
    {
      this.cpu, this.mutexes := cpu, mutexes;
      bit, pc, holds := {}, map[], map[];
    }

    /** One test of the loop in `mutex_lock_sched_locked`; the caller waits for a
        switch when it is put to sleep. */
    method LockOnce(m: nat) returns (locked: bool)
      requires Core(cpu.Value()) && MaySleep(cpu.Value())
      modifies this, cpu
      ensures Value() == LockTurn(old(Value()), m)
      ensures locked == (m !in old(bit))
    {
      hide Core, Insert;
      if m in bit {
        ListKeyed(cpu.Value(), m);
        CurrentKnown(cpu.Value());
        cpu.Sleep(m);
        return false;
      }
      bit := bit + {m};
      pc := pc[cpu.current := Out];
      holds := holds[cpu.current := HeldBy(old(Value()), cpu.current) + {m}];
      return true;
    }

    /** `mutex_trylock_slow`. */
    method TryLockSlow(m: nat) returns (failed: bool)
      modifies this
      ensures failed == (m in old(bit))
      ensures Value() == if failed then old(Value()) else Take(old(Value()), m)
    {
      failed := m in bit;
      if !failed {
        bit := bit + {m};
        pc := pc[cpu.current := Out];
        holds := holds[cpu.current := HeldBy(old(Value()), cpu.current) + {m}];
      }
    }

    /** `mutex_unlock_sched_locked`. */
    method UnlockSchedLocked(m: nat)
      requires Core(cpu.Value()) && MaySleep(cpu.Value())
      modifies this, cpu
      ensures Value() == UnlockSlow(old(Value()), m)
    {
      hide Core, WakeFirst;
      CoreShaped(cpu.Value());
      ghost var k := Value();
      bit := bit - {m};
      holds := holds[cpu.current := HeldBy(k, cpu.current) - {m}];
      if m in cpu.waits && cpu.waits[m] != [] {
        FirstWaiter(cpu.Value(), m);
        cpu.WakeOne(m);
      }
    }
  }
}
