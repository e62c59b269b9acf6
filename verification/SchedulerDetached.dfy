/** What becomes of a detached thread that exits while somebody else holds a
    reference: runs go on, and a task can be queued twice. */
module SchedulerDetached {
  import opened WaitLists
  import opened Scheduler
  import opened SchedulerRuns

  // ---------------------------------------------------------------------
  // Every step can be followed by another
  // ---------------------------------------------------------------------

  lemma SoundLike(s: Sched, z: Sched)
    requires Sound(s) && z.ready == s.ready && z.active == s.active
    requires forall x :: Known(s, x) ==> Known(z, x)
    requires forall x :: x in z.state ==> Known(z, x)
    requires z.current in z.state && z.idle in z.state
    requires forall w :: w in z.waits ==> KnownAll(s, z.waits[w])
    ensures Sound(z)
  {
    hide Known, BitsOk;
  }

  lemma EnqueueSound(s: Sched, t: nat)
    requires Sound(s) && Known(s, t)
    ensures Sound(Enqueue(s, t))
    ensures forall x :: Known(Enqueue(s, t), x) <==> Known(s, x)
  {
    EnqueueShaped(s, t);
    EnqueueBits(s, t);
  }

  lemma RemoveFrom(q: seq<nat>, t: nat, i: nat)
    requires i < |Remove(q, t)|
    ensures Remove(q, t)[i] in q
  {
    if t in q {
      var k := FirstIndex(q, t);
      RemoveIs(q, t, k);
    } else {
      RemoveAbsent(q, t);
    }
  }

  lemma RouseSound(s: Sched, t: nat, pending: bool)
    requires Sound(s) && Known(s, t)
    ensures Sound(Rouse(s, t).(pending := pending))
  {
    hide Enqueue, Sound;
    SoundParts(s);
    EnqueueSound(s, t);
    SoundFields(Enqueue(s, t), pending);
    var z := s.(state := s.state[t := Running], pending := pending);
    assert forall x :: Known(s, x) ==> Known(z, x);
    SoundLike(s, z);
  }

  lemma SoundParts(s: Sched)
    requires Sound(s)
    ensures |s.ready| == PRIOS && s.current in s.state && s.idle in s.state
    ensures forall x :: x in s.state ==> Known(s, x)
    ensures forall w :: w in s.waits ==> KnownAll(s, s.waits[w])
  {
    hide Known, BitsOk, KnownAll;
  }

  lemma SoundFields(s: Sched, pending: bool)
    requires Sound(s)
    ensures Sound(s.(pending := pending))
  {
    hide BitsOk;
    SoundLike(s, s.(pending := pending));
  }

  lemma WakeSound(s: Sched, w: nat)
    requires Sound(s) && Shaped(s) && WaitList(s, w) != [] && Known(s, WaitList(s, w)[0])
    ensures Sound(WakeFirst(s, w))
  {
    hide Rouse, Sound, Outranks;
    SoundParts(s);
    var q := WaitList(s, w);
    var s1 := s.(waits := s.waits[w := q[1..]]);
    SoundLike(s, s1);
    RouseSound(s1, q[0], s.pending || Outranks(s, q[0]));
  }

  lemma {:induction false} WakeAllSound(s: Sched, w: nat)
    requires Sound(s) && Shaped(s) && KnownAll(s, WaitList(s, w))
    ensures Sound(WakeAll(s, w))
    decreases |WaitList(s, w)|
  {
    hide Sound, WakeFirst, Shaped;
    if WaitList(s, w) != [] {
      WakeShaped(s, w);
      WakeSound(s, w);
      WakeAllSound(WakeFirst(s, w), w);
    }
  }

  lemma SleepSound(s: Sched, w: nat)
    requires Sound(s) && Known(s, s.current) && Keyed(s.prio, WaitList(s, w)) && KnownAll(s, WaitList(s, w))
    ensures Sound(SleepOn(s, w))
  {
    hide Sound, Place;
    SoundParts(s);
    SoundLike(s, SleepOn(s, w));
  }

  lemma TimeoutSound(s: Sched, t: nat)
    requires Sound(s) && |s.ready| == PRIOS && Known(s, t)
    ensures Sound(Timeout(s, t))
  {
    hide Sound, Rouse, Remove;
    if s.state[t] == Sleeping {
      SoundParts(s);
      var s1 := s.(waits := Unlisted(s.waits, t));
      forall w, i | w in s1.waits && 0 <= i < |s1.waits[w]|
        ensures Known(s, s1.waits[w][i])
      {
        RemoveFrom(s.waits[w], t, i);
      }
      SoundLike(s, s1);
      RouseSound(s1, t, true);
    }
  }

  lemma PickSound(s: Sched)
    requires Sound(s) && Shaped(s) && BitsOk(s.ready, s.active)
    requires forall p, i :: 0 <= p < PRIOS && 0 <= i < |s.ready[p]| ==> s.ready[p][i] in s.info
    ensures Sound(Pick(s))
  {
    hide Sound, Requeue, Dequeue, Dispatch, BitsOk;
    RequeueSound(s);
    var s1 := Requeue(s);
    RequeueBits(s);
    SoundParts(s1);
    if s1.active == {} {
      DispatchSound(s1, s1.idle);
    } else {
      var p := Highest(s1.active, PRIOS);
      DequeueSound(s1, p);
      DispatchSound(Dequeue(s1, p), s1.ready[p][0]);
    }
  }

  lemma RequeueSound(s: Sched)
    requires Sound(s)
    ensures |s.ready| == PRIOS && Known(s, s.current) && Sound(Requeue(s))
  {
    hide Sound, Enqueue;
    SoundParts(s);
    EnqueueSound(s, s.current);
  }

  lemma DequeueSound(s: Sched, p: nat)
    requires Sound(s) && p in s.active
    ensures p < PRIOS && |s.ready| == PRIOS && s.ready[p] != [] && Known(s, s.ready[p][0])
    ensures Sound(Dequeue(s, p)) && Known(Dequeue(s, p), s.ready[p][0])
  {
    var z := Dequeue(s, p);
    assert KnownAll(s, s.ready[p]);
    forall q: nat | q < PRIOS
      ensures KnownAll(z, z.ready[q])
    {
      assert KnownAll(s, s.ready[q]);
    }
  }

  lemma DispatchSound(s: Sched, t: nat)
    requires Sound(s) && Known(s, t)
    ensures Sound(Dispatch(s, t))
  {
    hide Sound;
    SoundParts(s);
    SoundLike(s, Dispatch(s, t));
  }

  lemma ReleaseSound(s: Sched, t: nat)
    requires Sound(s) && |s.ready| == PRIOS && Known(s, t)
    ensures Sound(Release(s, t))
  {
    hide Sound, Enqueue;
    SoundParts(s);
    var refs := if s.info[t].refs == 0 then 0 else s.info[t].refs - 1;
    var z := s.(info := s.info[t := s.info[t].(refs := refs)]);
    SoundLike(s, z);
    var z1 := s.(info := s.info[t := s.info[t].(thread := false, refs := 0)], prio := s.prio[t := 1]);
    SoundLike(s, z1);
    EnqueueSound(z1, t);
  }

  lemma ExitSound(s: Sched)
    requires Sound(s) && Shaped(s) && KnownAll(s, WaitList(s, JOIN))
    ensures Sound(Exit(s))
  {
    hide Sound, WakeAll, Release;
    SoundParts(s);
    var t := s.current;
    if s.info[t].detached {
      var z := s.(info := s.info[t := s.info[t].(base := false)]);
      SoundLike(s, z);
      ReleaseSound(z, t);
      SoundFields(Release(z, t), true);
    } else {
      var z := s.(state := s.state[t := Zombie], pending := true);
      ZombieShaped(s);
      SoundLike(s, z);
      WakeAllSound(z, JOIN);
    }
  }

  lemma CreateSound(s: Sched, t: nat, prio: nat, detached: bool)
    requires Sound(s) && |s.ready| == PRIOS && t !in s.state
    ensures Sound(Create(s, t, prio, detached))
  {
    hide Sound, Enqueue;
    SoundParts(s);
    var s1 := s.(state := s.state[t := Inert], prio := s.prio[t := ThreadPrio(prio)],
                 info := s.info[t := Info(true, detached, true, 1)]);
    SoundLike(s, s1);
    EnqueueSound(s1, t);
    SoundFields(Enqueue(s1, t), true);
  }

  lemma HandlesSound(s: Sched, a: Action)
    requires Sound(s) && (a.JoinThread? || a.Hold? || a.Drop? || a.RunTask? || a.RunAgain?)
    ensures Sound(Act(s, a))
  {
    hide Sound, Enqueue, Release, Shaped;
    SoundReady(s);
    SoundParts(s);
    if a.t in s.state {
      EnqueueSound(s, a.t);
      SoundFields(s, true);
      SoundFields(Enqueue(s, a.t), true);
      ReleaseSound(s, a.t);
      GivenUpSound(s, a.t);
      RetainSound(s, a.t);
    }
  }

  lemma GivenUpSound(s: Sched, t: nat)
    requires Sound(s) && |s.ready| == PRIOS && Known(s, t)
    ensures Sound(Join(s, t))
  {
    hide Sound, Release;
    SoundParts(s);
    var z := s.(info := s.info[t := s.info[t].(base := false)]);
    SoundLike(s, z);
    ReleaseSound(z, t);
  }

  lemma RetainSound(s: Sched, t: nat)
    requires Sound(s) && Known(s, t)
    ensures Sound(Retain(s, t))
  {
    hide Sound;
    SoundParts(s);
    SoundLike(s, Retain(s, t));
  }

  /** Whatever its users do, the scheduler's tables go on covering all that is
      queued or waits, so that a run never has to stop. */
  lemma SoundKeeps(s: Sched, a: Action)
    requires Sound(s)
    ensures Sound(Act(s, a))
  {
    hide Sound, Create, Declare, Enqueue, SleepOn, WakeFirst, WakeAll, Timeout, Pick, Exit, Release, Join, Retain, Shaped, TaskRun;
    SoundReady(s);
    SoundParts(s);
    SoundShaped(s);
    match a
    case Spawn(t, prio, detached) => if t !in s.state { CreateSound(s, t, prio, detached); }
    case Define(t, prio) => if t !in s.state && prio < PRIOS { DeclareSound(s, t, prio); }
    case SleepList(w) => if MaySleep(s) { SleepSound(s, w); }
    case SleepTime => if MaySleep(s) { SoundLike(s, SleepUntil(s)); }
    case Wake(w, all) =>
      WakeAllSound(s, w);
      if WaitList(s, w) != [] { WakeSound(s, w); }
    case TimeUp(t) => if t in s.state { TimeoutSound(s, t); }
    case Switch =>
      SoundFields(s, false);
      PickSound(if s.switching then s else s.(pending := false));
    case Leave => if MaySleep(s) { ExitSound(s); }
    case _ => HandlesSound(s, a);
  }

  lemma SoundShaped(s: Sched)
    requires Sound(s)
    ensures Shaped(s) && Shaped(s.(pending := false)) && BitsOk(s.ready, s.active)
  {
    hide BitsOk;
  }

  lemma DeclareSound(s: Sched, t: nat, prio: nat)
    requires Sound(s) && t !in s.state && prio < PRIOS
    ensures Sound(Declare(s, t, prio))
  {
    hide Sound;
    SoundParts(s);
    SoundLike(s, Declare(s, t, prio));
  }

  // ---------------------------------------------------------------------
  // A detached thread somebody else holds
  // ---------------------------------------------------------------------

  /** Exiting ends a detached thread exactly when nobody else holds it. */
  lemma DetachedEndsIff(s: Sched)
    requires Inv(s) && MaySleep(s) && Known(s, s.current) && s.info[s.current].detached && KnownAll(s, WaitList(s, JOIN))
    ensures !Exit(s).info[s.current].thread <==> s.info[s.current].refs == 1
  {
    hide Queues, Waits, BitsOk, Ordered, OneRuns;
    RunnerIsThread(s);
  }


  /** Held once more when it exits, the thread stays on the scheduler's hands as
      an ordinary running one. */
  lemma ExitsRunning(s: Sched)
    requires Sound(s) && MaySleep(s) && s.current in s.info && s.info[s.current].detached && s.info[s.current].refs == 2
    ensures var t := s.current;
      Act(s, Leave) == s.(info := s.info[t := s.info[t].(base := false, refs := 1)], pending := true)
  {
    hide Enqueue, WakeAll;
    SoundReady(s);
    assert Known(s, s.current);
    var t := s.current;
    assert s.info[t := s.info[t].(base := false)][t := s.info[t].(base := false, refs := 1)] == s.info[t := s.info[t].(base := false, refs := 1)];
  }

  /** Where a switch leaves the thread it found running. */
  lemma SwitchedAway(s: Sched)
    requires Sound(s) && !s.switching && s.current in s.info && s.info[s.current].thread && s.state[s.current] == Running
    ensures var z := Act(s, Switch);
      && z.info == s.info && z.idle == s.idle && s.current in z.state && Known(z, s.current)
      && (z.switching || z.current != s.current ==> z.state[s.current] == Ready)
      && (!z.switching && z.current == s.current ==> z.state[s.current] == Running)
      && (!z.switching ==> z.current in z.state && z.state[z.current] == Running)
      && z.doubled == s.doubled
  {
    hide Sound, Highest, Shaped, BitsOk;
    SoundReady(s);
    SoundShaped(s);
    SoundParts(s);
    var s0 := s.(pending := false);
    RequeueBits(s0);
    var s1 := Requeue(s0);
    assert s1.active != {};
    var p := Highest(s1.active, PRIOS);
    SoundFields(s, false);
    RequeueSound(s0);
    DequeueSound(s1, p);
  }

  /** A detached thread that exits while held once more: after the next switch,
      giving up that reference queues it a second time exactly when another
      thread is running by then. */
  lemma HeldDetachedDoubles(s: Sched)
    requires Sound(s) && !s.doubled && MaySleep(s) && s.current in s.info && s.info[s.current].thread
    requires s.info[s.current].detached && s.info[s.current].refs == 2
    ensures var z := Next(Next(s, Leave), Switch);
      Next(z, Drop(s.current)).doubled <==> MaySleep(z) && z.current != s.current
  {
    hide Sound, Pick, Exit, Highest;
    var t := s.current;
    ExitsRunning(s);
    SoundKeeps(s, Leave);
    var s1 := Act(s, Leave);
    SwitchedAway(s1);
    SoundKeeps(s1, Switch);
    var z := Act(s1, Switch);
    SoundParts(z);
    assert z.info[t] == s.info[t].(base := false, refs := 1);
  }

  lemma PickIs(s: Sched, p: nat, t: nat)
    requires Sound(s) && Shaped(s) && BitsOk(s.ready, s.active) && p < PRIOS
    requires forall p, i :: 0 <= p < PRIOS && 0 <= i < |s.ready[p]| ==> s.ready[p][i] in s.info
    requires Known(s, s.current) && Requeue(s).active == {p} && Requeue(s).ready[p] != [] && Requeue(s).ready[p][0] == t && t in Requeue(s).info
    ensures Pick(s) == Dispatch(Dequeue(Requeue(s), p), t)
  {
    hide Sound, Requeue, Dequeue, Dispatch, BitsOk, Shaped;
  }

  function NoneReady(): seq<seq<nat>> { seq(PRIOS, _ => []) }

  function Idle(): Info { Info(true, false, false, 0) }

  function First(refs: nat): Info { Info(true, true, true, refs) }

  function Second(): Info { Info(true, false, true, 1) }

  /** Thread 1, detached, is made and first runs. */
  function Made(): Sched {
    Sched(map[0 := Zombie, 1 := Ready], map[0 := 0, 1 := 4], map[0 := Idle(), 1 := First(1)],
          NoneReady()[4 := [1]], {4}, 0, 0, true, false, map[], false)
  }

  function Started(): Sched {
    Sched(map[0 := Zombie, 1 := Running], map[0 := 0, 1 := 4], map[0 := Idle(), 1 := First(1)],
          NoneReady(), {}, 1, 0, false, false, map[], false)
  }

  /** Thread 2 is made ready at its priority, and thread 1 held. */
  function Joined(): Sched {
    Sched(map[0 := Zombie, 1 := Running, 2 := Ready], map[0 := 0, 1 := 4, 2 := 4],
          map[0 := Idle(), 1 := First(1), 2 := Second()],
          NoneReady()[4 := [2]], {4}, 1, 0, true, false, map[], false)
  }

  function Watched(): Sched { Joined().(info := map[0 := Idle(), 1 := First(2), 2 := Second()]) }

  lemma MakesFirst()
    ensures Next(Boot(0), Spawn(1, 4, true)) == Made() && Sound(Made())
  {
    BootInv(0);
    InvShaped(Boot(0));
    CoreSound(Boot(0));
    SoundKeeps(Boot(0), Spawn(1, 4, true));
    var s := Act(Boot(0), Spawn(1, 4, true));
    assert Boot(0).ready == NoneReady() && NoneReady()[4] + [1] == [1];
    assert s.ready == NoneReady()[4 := [1]] && s.active == {4};
    assert s.info == Made().info && s.state == Made().state && s.prio == Made().prio;
  }

  lemma StartsFirst()
    requires Sound(Made())
    ensures Next(Made(), Switch) == Started() && Sound(Started())
  {
    hide Sound, Pick;
    SoundKeeps(Made(), Switch);
    SoundReady(Made());
    SoundFields(Made(), false);
    SoundShaped(Made());
    PickIs(Made().(pending := false), 4, 1);
    assert NoneReady()[4 := [1]][4 := []] == NoneReady();
  }

  lemma MakesSecond()
    requires Sound(Started())
    ensures Next(Started(), Spawn(2, 4, false)) == Joined() && Sound(Joined())
  {
    hide Sound;
    SoundKeeps(Started(), Spawn(2, 4, false));
    var s := Act(Started(), Spawn(2, 4, false));
    assert NoneReady()[4] + [2] == [2];
    assert s.ready == NoneReady()[4 := [2]] && s.active == {4};
    assert s.info == Joined().info && s.state == Joined().state && s.prio == Joined().prio;
  }

  lemma HoldsFirst()
    requires Sound(Joined())
    ensures Next(Joined(), Hold(1)) == Watched() && Sound(Watched())
  {
    hide Sound;
    SoundKeeps(Joined(), Hold(1));
    assert Retain(Joined(), 1).info == Watched().info;
  }

  lemma GoesToSecond()
    requires Sound(Watched())
    ensures var z := Next(Next(Watched(), Leave), Switch); MaySleep(z) && z.current == 2
  {
    hide Sound, Pick, Exit;
    ExitsRunning(Watched());
    SoundKeeps(Watched(), Leave);
    var s := Act(Watched(), Leave);
    SoundReady(s);
    SoundFields(s, false);
    SoundShaped(s);
    PickIs(s.(pending := false), 4, 2);
  }

  lemma {:induction false} RunHead(s: Sched, actions: seq<Action>)
    requires actions != []
    ensures Run(s, actions) == Run(Next(s, actions[0]), actions[1..])
    decreases |actions|
  {
    hide Next;
    var n := |actions| - 1;
    if n > 0 {
      RunHead(s, actions[..n]);
      assert actions[..n][1..] == actions[1..][..n - 1];
    }
  }

  /** The run that shows it: thread 1 is detached, held by another and exits; the
      switch goes to thread 2, which gives up the reference. */
  lemma DoublesRun()
    ensures Run(Boot(0), [Spawn(1, 4, true), Switch, Spawn(2, 4, false), Hold(1), Leave, Switch, Drop(1)]).doubled
  {
    hide Next, Boot, Run, Sound, Watched, Joined, Made, Started, MaySleep;
    MakesFirst();
    StartsFirst();
    MakesSecond();
    HoldsFirst();
    GoesToSecond();
    Doubled(Watched());
    RunHead(Boot(0), [Spawn(1, 4, true), Switch, Spawn(2, 4, false), Hold(1), Leave, Switch, Drop(1)]);
    RunHead(Made(), [Switch, Spawn(2, 4, false), Hold(1), Leave, Switch, Drop(1)]);
    RunHead(Started(), [Spawn(2, 4, false), Hold(1), Leave, Switch, Drop(1)]);
    RunHead(Joined(), [Hold(1), Leave, Switch, Drop(1)]);
    assert [Spawn(1, 4, true), Switch, Spawn(2, 4, false), Hold(1), Leave, Switch, Drop(1)][1..] ==
      [Switch, Spawn(2, 4, false), Hold(1), Leave, Switch, Drop(1)];
    assert [Switch, Spawn(2, 4, false), Hold(1), Leave, Switch, Drop(1)][1..] == [Spawn(2, 4, false), Hold(1), Leave, Switch, Drop(1)];
    assert [Spawn(2, 4, false), Hold(1), Leave, Switch, Drop(1)][1..] == [Hold(1), Leave, Switch, Drop(1)];
    assert [Hold(1), Leave, Switch, Drop(1)][1..] == [Leave, Switch, Drop(1)];
  }

  lemma Doubled(s: Sched)
    requires s == Watched() && Sound(s)
    requires var z := Next(Next(s, Leave), Switch); MaySleep(z) && z.current == 2
    ensures Run(s, [Leave, Switch, Drop(1)]).doubled
  {
    hide Next, Sound;
    HeldDetachedDoubles(s);
    RunHead(s, [Leave, Switch, Drop(1)]);
    RunHead(Next(s, Leave), [Switch, Drop(1)]);
    assert [Leave, Switch, Drop(1)][1..] == [Switch, Drop(1)] && [Switch, Drop(1)][1..] == [Drop(1)];
  }
}
