/** The kernel's timer list: sorted by expiry, each armed timer on it once, and
    dispatched in order. A timer is armed while its expiry is not zero. */
module Timers {
  import opened Common
  import opened WaitLists

  datatype Timers = Timers(expire: map<nat, nat>, list: seq<nat>)

  function Expiry(q: Timers, t: nat): nat { if t in q.expire then q.expire[t] else 0 }

  // ---------------------------------------------------------------------
  // Operations
  // ---------------------------------------------------------------------

  /** The first timer that expires no earlier, or the end. */
  function Spot(expire: map<nat, nat>, list: seq<nat>, e: nat): (k: nat)
    ensures k <= |list|
    ensures forall i :: 0 <= i < k ==> (if list[i] in expire then expire[list[i]] else 0) < e
    ensures k < |list| ==> (if list[k] in expire then expire[list[k]] else 0) >= e
    decreases list
  {
    if list == [] || (if list[0] in expire then expire[list[0]] else 0) >= e then 0
    else 1 + Spot(expire, list[1..], e)
  }

  /** `timer_disarm`; the flag says that the timer was not armed. */
  function Disarm(q: Timers, t: nat): (Timers, bool) {
    if Expiry(q, t) == 0 then (q, true)
    else (Timers(q.expire[t := 0], Remove(q.list, t)), false)
  }

  /** `timer_arm_on_queue`. */
  function Arm(q: Timers, t: nat, e: nat): Timers {
    var list := if Expiry(q, t) != 0 then Remove(q.list, t) else q.list;
    var expire := q.expire[t := e];
    var k := Spot(expire, list, e);
    Timers(expire, list[..k] + [t] + list[k..])
  }

  function ArmAll(q: Timers, arms: seq<(nat, nat)>): Timers
    decreases arms
  {
    if arms == [] then q else ArmAll(Arm(q, arms[0].0, arms[0].1), arms[1..])
  }

  function Fire(q: Timers): Timers
    requires q.list != []
  {
    Timers(q.expire[q.list[0] := 0], q.list[1..])
  }

  // ---------------------------------------------------------------------
  // Invariant
  // ---------------------------------------------------------------------

  predicate Ascending(q: Timers) {
    forall i, j :: 0 <= i < j < |q.list| ==> Expiry(q, q.list[i]) <= Expiry(q, q.list[j])
  }

  /** Sorted, and on the list exactly the armed timers, once each. */
  ghost predicate Valid(q: Timers) {
    Distinct(q.list) && Ascending(q) && forall t :: t in q.list <==> Expiry(q, t) != 0
  }

  lemma ListTail(q: seq<nat>)
    requires q != [] && Distinct(q)
    ensures Distinct(q[1..]) && q[0] !in q[1..]
    ensures forall t :: t in q && t != q[0] ==> t in q[1..]
  {
  }

  lemma FireValid(q: Timers)
    requires Valid(q) && q.list != []
    ensures Valid(Fire(q))
  {
    hide Distinct;
    ListTail(q.list);
    var z := Fire(q);
    assert forall t :: t != q.list[0] ==> Expiry(z, t) == Expiry(q, t);
  }

  lemma RemoveAscending(q: Timers, t: nat)
    requires t in q.list
    ensures var k := FirstAt(q.list, t);
      k < |q.list| && Remove(q.list, t) == q.list[..k] + q.list[k + 1..] && q.list[k] == t
  {
    hide Remove, FirstAt;
    var k := FirstIndex(q.list, t);
    RemoveIs(q.list, t, k);
    FirstAtIs(q.list, t, k);
  }

  function FirstAt(q: seq<nat>, t: nat): (k: nat)
    ensures k <= |q|
    decreases q
  {
    if q == [] || q[0] == t then 0 else 1 + FirstAt(q[1..], t)
  }

  lemma {:induction false} FirstAtIs(q: seq<nat>, t: nat, k: nat)
    requires k < |q| && q[k] == t && t !in q[..k]
    ensures FirstAt(q, t) == k
    decreases q
  {
    if k > 0 {
      assert q[..k][0] == q[0] && q[..k][1..] == q[1..][..k - 1];
      FirstAtIs(q[1..], t, k - 1);
    }
  }

  lemma RemovedOrders(q: Timers, z: Timers, k: nat)
    requires Ascending(q) && k < |q.list| && z.list == q.list[..k] + q.list[k + 1..]
    requires forall i :: 0 <= i < |q.list| && i != k ==> Expiry(z, q.list[i]) == Expiry(q, q.list[i])
    ensures Ascending(z)
  {
    hide Expiry;
    assert forall i :: 0 <= i < |z.list| ==> z.list[i] == if i < k then q.list[i] else q.list[i + 1];
  }

  lemma OthersApart(q: seq<nat>, k: nat, i: nat)
    requires Distinct(q) && k < |q| && i < |q| && i != k
    ensures q[i] != q[k]
  {
  }

  lemma DisarmAscending(q: Timers, t: nat)
    requires Distinct(q.list) && Ascending(q) && t in q.list
    ensures Ascending(Timers(q.expire[t := 0], Remove(q.list, t)))
  {
    hide Distinct, Ascending, Remove, FirstAt;
    var z := Timers(q.expire[t := 0], Remove(q.list, t));
    RemoveAscending(q, t);
    var k := FirstAt(q.list, t);
    forall i | 0 <= i < |q.list| && i != k
      ensures Expiry(z, q.list[i]) == Expiry(q, q.list[i])
    {
      OthersApart(q.list, k, i);
    }
    RemovedOrders(q, z, k);
  }

  lemma DisarmValid(q: Timers, t: nat)
    requires Valid(q)
    ensures Valid(Disarm(q, t).0) && Expiry(Disarm(q, t).0, t) == 0 && t !in Disarm(q, t).0.list
    ensures Disarm(q, t).1 <==> t !in q.list
    ensures forall x :: x != t ==> Expiry(Disarm(q, t).0, x) == Expiry(q, x)
  {
    hide Distinct, Ascending, Remove;
    if t in q.list {
      RemoveDistinct(q.list, t);
      DisarmAscending(q, t);
    }
  }

  lemma PutDistinct(list: seq<nat>, t: nat, k: nat)
    requires Distinct(list) && t !in list && k <= |list|
    ensures Distinct(list[..k] + [t] + list[k..])
    ensures forall x :: x in list[..k] + [t] + list[k..] <==> x == t || x in list
  {
    var r := list[..k] + [t] + list[k..];
    assert r[k] == t;
    forall x
      ensures x in r <==> x == t || x in list
    {
      if x in list {
        var j :| 0 <= j < |list| && list[j] == x;
        if j < k { assert r[j] == x; } else { assert r[j + 1] == x; }
      }
    }
  }

  /** Putting a timer that is not on the list where its expiry says. */
  lemma PutSorted(q: Timers, t: nat, d: nat)
    requires Distinct(q.list) && Ascending(q) && t !in q.list && Expiry(q, t) == 0
    ensures var z := Arm(q, t, d);
      && Distinct(z.list) && Ascending(z) && Expiry(z, t) == d
      && (forall x :: x in z.list <==> x == t || x in q.list)
      && (forall x :: x != t ==> Expiry(z, x) == Expiry(q, x))
  {
    hide Distinct, Ascending, Spot;
    var z := Arm(q, t, d);
    var k := Spot(z.expire, q.list, d);
    PutDistinct(q.list, t, k);
    assert forall i :: 0 <= i < |q.list| ==> q.list[i] in q.list;
    SpotOrders(q, z, t, d, k);
  }

  /** Inserting a timer that is not on the list. */
  lemma InsertValid(q: Timers, t: nat, e: nat)
    requires Valid(q) && Expiry(q, t) == 0 && e != 0
    ensures Valid(Arm(q, t, e)) && Expiry(Arm(q, t, e), t) == e
    ensures forall x :: x != t ==> Expiry(Arm(q, t, e), x) == Expiry(q, x)
  {
    hide Distinct, Ascending, Arm;
    PutSorted(q, t, e);
  }

  lemma SpotOrders(q: Timers, z: Timers, t: nat, e: nat, k: nat)
    requires Ascending(q) && t !in q.list && k <= |q.list| && z.list == q.list[..k] + [t] + q.list[k..] && Expiry(z, t) == e
    requires forall i :: 0 <= i < |q.list| ==> Expiry(z, q.list[i]) == Expiry(q, q.list[i])
    requires forall i :: 0 <= i < k ==> Expiry(z, q.list[i]) < e
    requires k < |q.list| ==> Expiry(z, q.list[k]) >= e
    ensures Ascending(z)
  {
    hide Expiry;
    assert forall i :: 0 <= i < |z.list| ==> z.list[i] == if i < k then q.list[i] else if i == k then t else q.list[i - 1];
    forall i, j | 0 <= i < j < |z.list|
      ensures Expiry(z, z.list[i]) <= Expiry(z, z.list[j])
    {
      if i == k && j > k + 1 {
        assert Expiry(q, q.list[k]) <= Expiry(q, q.list[j - 1]);
      }
    }
  }

  lemma ArmIsDisarmThenInsert(q: Timers, t: nat, e: nat)
    ensures Arm(q, t, e) == Arm(Disarm(q, t).0, t, e)
  {
    assert q.expire[t := 0][t := e] == q.expire[t := e];
  }

  /** Arming, or arming again, keeps the list in order; the timer is then on it
      with its new expiry. */
  lemma ArmValid(q: Timers, t: nat, e: nat)
    requires Valid(q) && e != 0
    ensures Valid(Arm(q, t, e)) && Expiry(Arm(q, t, e), t) == e && t in Arm(q, t, e).list
    ensures forall x :: x != t ==> Expiry(Arm(q, t, e), x) == Expiry(q, x)
  {
    hide Distinct, Arm, Disarm;
    ArmIsDisarmThenInsert(q, t, e);
    DisarmValid(q, t);
    InsertValid(Disarm(q, t).0, t, e);
  }

  // ---------------------------------------------------------------------
  // Dispatch
  // ---------------------------------------------------------------------

  /** What the callback of each timer arms. */
  type Callbacks = map<nat, seq<(nat, nat)>>

  function Arms(cb: Callbacks, t: nat): seq<(nat, nat)> { if t in cb then cb[t] else [] }

  predicate Later(arms: seq<(nat, nat)>, now: nat) { forall i :: 0 <= i < |arms| ==> arms[i].1 > now }

  /** Callbacks do not arm in the past. */
  predicate Tame(cb: Callbacks, now: nat) { forall t :: t in cb ==> Later(cb[t], now) }

  /** Timers due by `now`. */
  function Due(q: Timers, now: nat): set<nat> { set t | t in q.list && Expiry(q, t) <= now }

  lemma ArmDue(q: Timers, t: nat, e: nat, now: nat)
    requires Valid(q) && e > now
    ensures Due(Arm(q, t, e), now) <= Due(q, now)
  {
    hide Distinct, Arm, Ascending;
    ArmValid(q, t, e);
  }

  lemma {:induction false} ArmAllValid(q: Timers, arms: seq<(nat, nat)>, now: nat)
    requires Valid(q) && Later(arms, now)
    ensures Valid(ArmAll(q, arms)) && Due(ArmAll(q, arms), now) <= Due(q, now)
    decreases arms
  {
    hide Valid, Arm, Due;
    if arms != [] {
      ArmValid(q, arms[0].0, arms[0].1);
      ArmDue(q, arms[0].0, arms[0].1, now);
      ArmAllValid(Arm(q, arms[0].0, arms[0].1), arms[1..], now);
    }
  }

  lemma FireDue(q: Timers, now: nat)
    requires Valid(q) && q.list != [] && Expiry(q, q.list[0]) <= now
    ensures q.list[0] in Due(q, now) && Due(Fire(q), now) <= Due(q, now) - {q.list[0]}
  {
    hide Distinct, Ascending;
    ListTail(q.list);
  }

  /** The state when dispatching ends, and the timers fired with their expiry. */
  ghost function Dispatch(q: Timers, now: nat, cb: Callbacks): (Timers, seq<(nat, nat)>)
    requires Valid(q) && Tame(cb, now)
    decreases |Due(q, now)|
  {
    if q.list == [] || Expiry(q, q.list[0]) > now then (q, [])
    else
      DispatchSmaller(q, now, cb);
      var t := q.list[0];
      var (z, fired) := Dispatch(ArmAll(Fire(q), Arms(cb, t)), now, cb);
      (z, [(t, Expiry(q, t))] + fired)
  }

  lemma DispatchSmaller(q: Timers, now: nat, cb: Callbacks)
    requires Valid(q) && Tame(cb, now) && q.list != [] && Expiry(q, q.list[0]) <= now
    ensures var z := ArmAll(Fire(q), Arms(cb, q.list[0])); Valid(z) && |Due(z, now)| < |Due(q, now)|
  {
    hide Valid, Due;
    FireValid(q);
    ArmAllValid(Fire(q), Arms(cb, q.list[0]), now);
    FireDue(q, now);
    var z := ArmAll(Fire(q), Arms(cb, q.list[0]));
    SubsetSize(Due(z, now), Due(q, now) - {q.list[0]});
  }

  lemma {:induction false} SubsetSize(a: set<nat>, b: set<nat>)
    requires a <= b
    ensures |a| <= |b|
    decreases a
  {
    if a != {} {
      var x :| x in a;
      SubsetSize(a - {x}, b - {x});
    }
  }

  lemma DispatchUnfolds(q: Timers, now: nat, cb: Callbacks)
    requires Valid(q) && Tame(cb, now)
    ensures q.list == [] || Expiry(q, q.list[0]) > now ==> Dispatch(q, now, cb) == (q, [])
    ensures q.list != [] && Expiry(q, q.list[0]) <= now ==>
      var z := ArmAll(Fire(q), Arms(cb, q.list[0]));
      && Valid(z)
      && Dispatch(q, now, cb).0 == Dispatch(z, now, cb).0
      && Dispatch(q, now, cb).1 == [(q.list[0], Expiry(q, q.list[0]))] + Dispatch(z, now, cb).1
  {
    hide Valid, ArmAll, Due;
    if q.list != [] && Expiry(q, q.list[0]) <= now {
      DispatchSmaller(q, now, cb);
    }
  }

  /** Everything listed expires no earlier than e. */
  predicate NoEarlier(q: Timers, e: nat) { forall i :: 0 <= i < |q.list| ==> Expiry(q, q.list[i]) >= e }

  predicate InOrder(fired: seq<(nat, nat)>, from: nat, now: nat) {
    && (forall i :: 0 <= i < |fired| ==> from <= fired[i].1 <= now)
    && (forall i, j :: 0 <= i < j < |fired| ==> fired[i].1 <= fired[j].1)
  }

  lemma {:induction false} ArmAllNoEarlier(q: Timers, arms: seq<(nat, nat)>, e: nat)
    requires Valid(q) && NoEarlier(q, e) && (forall i :: 0 <= i < |arms| ==> arms[i].1 >= e && arms[i].1 != 0)
    ensures NoEarlier(ArmAll(q, arms), e)
    decreases arms
  {
    hide Valid, Arm;
    if arms != [] {
      var z := Arm(q, arms[0].0, arms[0].1);
      ArmValid(q, arms[0].0, arms[0].1);
      ArmListed(q, arms[0].0, arms[0].1);
      assert forall i :: 0 <= i < |z.list| ==> z.list[i] in z.list;
      assert NoEarlier(z, e);
      ArmAllNoEarlier(z, arms[1..], e);
    }
  }

  lemma ArmListed(q: Timers, t: nat, e: nat)
    requires Valid(q) && e != 0
    ensures forall x :: x in Arm(q, t, e).list && x != t ==> x in q.list
  {
    hide Distinct, Arm, Ascending;
    ArmValid(q, t, e);
  }

  lemma FireNoEarlier(q: Timers)
    requires Valid(q) && q.list != []
    ensures NoEarlier(Fire(q), Expiry(q, q.list[0]))
  {
    hide Distinct;
    ListTail(q.list);
    var z := Fire(q);
    forall i | 0 <= i < |z.list|
      ensures Expiry(z, z.list[i]) >= Expiry(q, q.list[0])
    {
      assert z.list[i] == q.list[i + 1] && z.list[i] in q.list[1..];
    }
  }

  /** Dispatching fires in order of expiry, nothing early, and leaves nothing
      due. */
  lemma {:induction false} DispatchInOrder(q: Timers, now: nat, cb: Callbacks, from: nat)
    requires Valid(q) && Tame(cb, now) && NoEarlier(q, from)
    ensures var (z, fired) := Dispatch(q, now, cb);
      Valid(z) && Due(z, now) == {} && InOrder(fired, from, now)
    decreases |Due(q, now)|
  {
    hide Valid, Arm, ArmAll, Due;
    if q.list == [] || Expiry(q, q.list[0]) > now {
      NothingDue(q, now);
    } else {
      var t := q.list[0];
      var e := Expiry(q, t);
      DispatchSmaller(q, now, cb);
      FireValid(q);
      FireNoEarlier(q);
      ArmAllNoEarlier(Fire(q), Arms(cb, t), e);
      DispatchInOrder(ArmAll(Fire(q), Arms(cb, t)), now, cb, e);
    }
  }

  lemma NothingDue(q: Timers, now: nat)
    requires Valid(q) && (q.list == [] || Expiry(q, q.list[0]) > now)
    ensures Due(q, now) == {}
  {
    hide Distinct;
    forall t | t in q.list
      ensures Expiry(q, t) > now
    {
      var i :| 0 <= i < |q.list| && q.list[i] == t;
    }
  }

  /** Every timer due at the start fires, unless a callback arms it anew first. */
  lemma {:induction false} DispatchFiresDue(q: Timers, now: nat, cb: Callbacks, t: nat)
    requires Valid(q) && Tame(cb, now) && t in Due(q, now)
    requires forall x, i :: x in cb && 0 <= i < |cb[x]| ==> cb[x][i].0 != t
    ensures (t, Expiry(q, t)) in Dispatch(q, now, cb).1
    decreases |Due(q, now)|
  {
    hide Valid, Arm, ArmAll, Due;
    DueFirst(q, now, t);
    var h := q.list[0];
    DispatchSmaller(q, now, cb);
    if h != t {
      FireValid(q);
      FireKeeps(q, now, t);
      ArmAllKeeps(Fire(q), Arms(cb, h), now, t);
      DispatchFiresDue(ArmAll(Fire(q), Arms(cb, h)), now, cb, t);
    }
  }

  lemma DueFirst(q: Timers, now: nat, t: nat)
    requires Valid(q) && t in Due(q, now)
    ensures q.list != [] && Expiry(q, q.list[0]) <= now
  {
    hide Distinct;
    var i :| 0 <= i < |q.list| && q.list[i] == t;
  }

  lemma FireKeeps(q: Timers, now: nat, t: nat)
    requires Valid(q) && t in Due(q, now) && q.list != [] && t != q.list[0]
    ensures t in Due(Fire(q), now) && Expiry(Fire(q), t) == Expiry(q, t)
  {
    hide Ascending;
    ListTail(q.list);
  }

  lemma {:induction false} ArmAllKeeps(q: Timers, arms: seq<(nat, nat)>, now: nat, t: nat)
    requires Valid(q) && Later(arms, now) && t in Due(q, now) && forall i :: 0 <= i < |arms| ==> arms[i].0 != t
    ensures t in Due(ArmAll(q, arms), now) && Expiry(ArmAll(q, arms), t) == Expiry(q, t)
    decreases arms
  {
    hide Distinct, Arm, Ascending;
    if arms != [] {
      ArmValid(q, arms[0].0, arms[0].1);
      ArmAllKeeps(Arm(q, arms[0].0, arms[0].1), arms[1..], now, t);
    }
  }

  // ---------------------------------------------------------------------
  // The code
  // ---------------------------------------------------------------------

  class TimerQueue {
    var expire: map<nat, nat>
    var list: seq<nat>

    ghost function Value(): Timers
      reads this
    {
      Timers(expire, list)
    }

    constructor ()
      ensures Value() == Timers(map[], [])
    {
      expire, list := map[], [];
    }

    /** The search of `LIST_INSERT_SORTED`. */
    method FindSpot(e: nat) returns (k: nat)
      ensures k == Spot(expire, list, e)
    {
      k := 0;
      while k < |list| && (if list[k] in expire then expire[list[k]] else 0) < e
        invariant k <= |list|
        invariant forall i :: 0 <= i < k ==> (if list[i] in expire then expire[list[i]] else 0) < e
      {
        k := k + 1;
      }
    }

    /** `timer_arm_on_queue`. */
    method ArmOnQueue(t: nat, e: nat)
      modifies this
      ensures Value() == Arm(old(Value()), t, e)
    {
      hide Remove, Spot;
      if t in expire && expire[t] != 0 {
        list := Remove(list, t);
      }
      expire := expire[t := e];
      var k := FindSpot(e);
      list := list[..k] + [t] + list[k..];
    }

    /** `timer_disarm`. */
    method DisarmTimer(t: nat) returns (idle: bool)
      modifies this
      ensures (Value(), idle) == Disarm(old(Value()), t)
    {
      if !(t in expire && expire[t] != 0) {
        return true;
      }
      list := Remove(list, t);
      expire := expire[t := 0];
      return false;
    }

    method ArmEach(arms: seq<(nat, nat)>)
      modifies this
      ensures Value() == ArmAll(old(Value()), arms)
    {
      hide Arm;
      var i := 0;
      while i < |arms|
        invariant i <= |arms| && ArmAll(Value(), arms[i..]) == ArmAll(old(Value()), arms)
      {
        assert arms[i..][1..] == arms[i + 1..];
        ArmOnQueue(arms[i].0, arms[i].1);
        i := i + 1;
      }
    }

    /** `timer_dispatch`: callbacks run as each timer comes off the list. */
    method DispatchTimers(now: nat, cb: Callbacks) returns (fired: seq<(nat, nat)>)
      requires Valid(Value()) && Tame(cb, now)
      modifies this
      ensures (Value(), fired) == Dispatch(old(Value()), now, cb)
    {
      hide Valid, Arm, ArmAll, Due, Dispatch;
      fired := [];
      while true
        invariant Valid(Value())
        invariant Dispatch(old(Value()), now, cb).0 == Dispatch(Value(), now, cb).0
        invariant Dispatch(old(Value()), now, cb).1 == fired + Dispatch(Value(), now, cb).1
        decreases |Due(Value(), now)|
      {
        assert fired + [] == fired;
        DispatchUnfolds(Value(), now, cb);
        if list == [] {
          return;
        }
        var t := list[0];
        var e := if t in expire then expire[t] else 0;
        if e > now {
          return;
        }
        DispatchSmaller(Value(), now, cb);
        ghost var q := Value();
        list := list[1..];
        expire := expire[t := 0];
        assert Value() == Fire(q);
        ArmEach(Arms(cb, t));
        ghost var rest := Dispatch(Value(), now, cb).1;
        assert fired + ([(t, e)] + rest) == (fired + [(t, e)]) + rest;
        fired := fired + [(t, e)];
      }
    }
  }

  // ---------------------------------------------------------------------
  // Timed sleeps
  // ---------------------------------------------------------------------

  /** Threads inside a timed sleep, each with a timer on its own stack: true for
      one that also waits on a list. `asleep` are those neither woken nor timed
      out. */
  datatype Sleepers = Sleepers(timers: Timers, inside: map<nat, bool>, asleep: set<nat>)

  datatype Action =
    | Begin(t: nat, deadline: nat, listed: bool) | Tick(now: nat) | Wakeup(t: nat) | Return(t: nat)

  function Names(fired: seq<(nat, nat)>): set<nat> { set i | 0 <= i < |fired| :: fired[i].0 }

  /** A tick: every timer due comes off the list, with no callback to arm others. */
  function Sweep(q: Timers, now: nat): (Timers, seq<(nat, nat)>)
    decreases |q.list|
  {
    if q.list == [] || Expiry(q, q.list[0]) > now then (q, [])
    else
      var (z, fired) := Sweep(Fire(q), now);
      (z, [(q.list[0], Expiry(q, q.list[0]))] + fired)
  }

  /** It is what dispatching does when callbacks arm nothing. */
  lemma {:induction false} SweepIsDispatch(q: Timers, now: nat)
    requires Valid(q)
    ensures Sweep(q, now) == Dispatch(q, now, map[])
    decreases |q.list|
  {
    hide Valid, Due;
    DispatchUnfolds(q, now, map[]);
    if q.list != [] && Expiry(q, q.list[0]) <= now {
      assert ArmAll(Fire(q), Arms(map[], q.list[0])) == Fire(q);
      SweepIsDispatch(Fire(q), now);
    }
  }

  /** A sleep arms the thread's timer; ticks fire what is due and wake whose timer
      it was; a wakeup reaches only those on a list. A thread returns when it is
      awake: from a list it disarms its timer first, from `thread_sleep_until` it
      does not. */
  function Step(s: Sleepers, a: Action): Sleepers {
    match a
    case Begin(t, d, listed) =>
      if t in s.inside then s
      else Sleepers(Arm(Timers(s.timers.expire[t := 0], s.timers.list), t, d), s.inside[t := listed], s.asleep + {t})
    case Tick(now) =>
      var (q, fired) := Sweep(s.timers, now);
      s.(timers := q, asleep := s.asleep - Names(fired))
    case Wakeup(t) => if t in s.inside && s.inside[t] then s.(asleep := s.asleep - {t}) else s
    case Return(t) =>
      if t !in s.inside || t in s.asleep then s
      else Sleepers(if s.inside[t] then Disarm(s.timers, t).0 else s.timers, s.inside - {t}, s.asleep)
  }

  predicate PlainSleep(s: Sleepers, t: nat) { t in s.inside && !s.inside[t] && t in s.asleep }

  /** The list is sorted and holds every armed timer once; besides those, it may
      hold timers set to zero, but only of threads in a plain sleep. No timer is
      on it of a thread outside a timed sleep, and none of one that only slept
      until a time and is awake. */
  ghost predicate StacksClean(s: Sleepers) {
    && Distinct(s.timers.list) && Ascending(s.timers)
    && (forall t :: Expiry(s.timers, t) != 0 ==> t in s.timers.list)
    && (forall t :: t in s.timers.list ==> Expiry(s.timers, t) != 0 || PlainSleep(s, t))
    && (forall t :: t in s.timers.list ==> t in s.inside)
    && (forall t :: t in s.inside && !s.inside[t] && t !in s.asleep ==> t !in s.timers.list)
  }

  /** What a tick fires is the front of the list. */
  lemma {:induction false} SweepFires(q: Timers, now: nat)
    requires Distinct(q.list)
    ensures var (z, fired) := Sweep(q, now);
      && |fired| <= |q.list| && z.list == q.list[|fired|..]
      && (forall t :: t in Names(fired) <==> t in q.list[..|fired|])
      && (forall t :: Expiry(z, t) == if t in Names(fired) then 0 else Expiry(q, t))
    decreases |q.list|
  {
    hide Distinct;
    if q.list != [] && Expiry(q, q.list[0]) <= now {
      ListTail(q.list);
      SweepFires(Fire(q), now);
      var (z, rest) := Sweep(Fire(q), now);
      NamesCons((q.list[0], Expiry(q, q.list[0])), rest);
      assert q.list[..|rest| + 1] == [q.list[0]] + q.list[1..][..|rest|];
    }
  }

  lemma NamesCons(x: (nat, nat), rest: seq<(nat, nat)>)
    ensures Names([x] + rest) == {x.0} + Names(rest)
  {
    var all := [x] + rest;
    assert all[0] == x;
    forall t | t in Names(rest)
      ensures t in Names(all)
    {
      var i :| 0 <= i < |rest| && rest[i].0 == t;
      assert all[i + 1] == rest[i];
    }
  }

  lemma SuffixDistinct(q: seq<nat>, k: nat)
    requires Distinct(q) && k <= |q|
    ensures Distinct(q[k..]) && forall t :: t in q <==> t in q[..k] || t in q[k..]
    ensures forall t :: t in q[..k] ==> t !in q[k..]
  {
    assert q == q[..k] + q[k..];
  }

  lemma TickClean(s: Sleepers, now: nat)
    requires StacksClean(s)
    ensures StacksClean(Step(s, Tick(now)))
  {
    hide Distinct, Sweep, Names;
    SweepFires(s.timers, now);
    var (z, fired) := Sweep(s.timers, now);
    SuffixDistinct(s.timers.list, |fired|);
    assert forall i :: 0 <= i < |z.list| ==> z.list[i] == s.timers.list[i + |fired|] && z.list[i] in z.list;
  }

  lemma DropsAscending(q: Timers, t: nat, e: nat)
    requires Ascending(q) && t !in q.list
    ensures Ascending(Timers(q.expire[t := e], q.list))
  {
  }

  lemma BeginClean(s: Sleepers, t: nat, d: nat, listed: bool)
    requires StacksClean(s) && (listed ==> d != 0)
    ensures StacksClean(Step(s, Begin(t, d, listed)))
  {
    hide Distinct, Ascending, Arm;
    if t !in s.inside {
      var q := Timers(s.timers.expire[t := 0], s.timers.list);
      DropsAscending(s.timers, t, 0);
      PutSorted(q, t, d);
    }
  }

  lemma ReturnClean(s: Sleepers, t: nat)
    requires StacksClean(s)
    ensures StacksClean(Step(s, Return(t)))
  {
    hide Distinct, Ascending, Remove;
    if t in s.inside && t !in s.asleep && s.inside[t] && Expiry(s.timers, t) != 0 {
      RemoveDistinct(s.timers.list, t);
      DisarmAscending(s.timers, t);
    }
  }

  lemma StepClean(s: Sleepers, a: Action)
    requires StacksClean(s) && (a.Begin? && a.listed ==> a.deadline != 0)
    ensures StacksClean(Step(s, a))
  {
    hide Distinct, Ascending, Arm, Disarm, Sweep, Names;
    match a
    case Begin(t, d, listed) => BeginClean(s, t, d, listed);
    case Tick(now) => TickClean(s, now);
    case Wakeup(t) =>
    case Return(t) => ReturnClean(s, t);
  }

  /** A sleep on a list has a deadline other than zero. */
  predicate NoZeroDeadline(actions: seq<Action>) {
    forall i :: 0 <= i < |actions| ==> actions[i].Begin? && actions[i].listed ==> actions[i].deadline != 0
  }

  function Run(s: Sleepers, actions: seq<Action>): Sleepers
    decreases actions
  {
    if actions == [] then s else Run(Step(s, actions[0]), actions[1..])
  }

  lemma {:induction false} RunKeeps(s: Sleepers, actions: seq<Action>)
    requires StacksClean(s) && NoZeroDeadline(actions)
    ensures StacksClean(Run(s, actions))
    decreases actions
  {
    hide Step, StacksClean;
    if actions != [] {
      StepClean(s, actions[0]);
      RunKeeps(Step(s, actions[0]), actions[1..]);
    }
  }

  /** Over every run in which no sleep on a list has deadline zero, the list is
      sorted, holds each armed timer once, and never the stack timer of a thread
      that is not in a timed sleep, whichever of wakeup and timeout came first,
      and although a plain sleep never disarms its timer. */
  lemma ReturnedIsOff(actions: seq<Action>, t: nat)
    requires NoZeroDeadline(actions)
    ensures var s := Run(Sleepers(Timers(map[], []), map[], {}), actions);
      && Distinct(s.timers.list) && Ascending(s.timers)
      && (Expiry(s.timers, t) != 0 ==> t in s.timers.list)
      && (t in s.timers.list && Expiry(s.timers, t) == 0 ==> PlainSleep(s, t))
      && (t !in s.inside ==> t !in s.timers.list)
  {
    hide Run;
    var s := Sleepers(Timers(map[], []), map[], {});
    assert StacksClean(s);
    RunKeeps(s, actions);
  }

  /** A thread that sleeps on a list and is woken before the next tick takes its
      timer along exactly when its deadline was not zero. */
  lemma WokenCleanIff(s: Sleepers, t: nat, deadline: nat)
    requires StacksClean(s) && t !in s.inside
    ensures var z := Run(s, [Begin(t, deadline, true), Wakeup(t), Return(t)]);
      t !in z.inside && (t !in z.timers.list <==> deadline != 0)
  {
    hide Distinct, Ascending, Remove, Arm;
    var a := [Begin(t, deadline, true), Wakeup(t), Return(t)];
    assert a[1..] == [Wakeup(t), Return(t)] && [Wakeup(t), Return(t)][1..] == [Return(t)] && [Return(t)][1..] == [];
    var s1 := Step(s, Begin(t, deadline, true));
    var s2 := Step(s1, Wakeup(t));
    assert Run(s2, [Return(t)]) == Step(s2, Return(t));
    assert Run(s1, [Wakeup(t), Return(t)]) == Step(s2, Return(t));
    assert Run(s, a) == Step(s2, Return(t));
    var q := Timers(s.timers.expire[t := 0], s.timers.list);
    DropsAscending(s.timers, t, 0);
    PutSorted(q, t, deadline);
    ReturnCleanIff(Arm(q, t, deadline), t);
  }

  /** Returning leaves the thread's timer off the list exactly when its expiry
      is not zero while it is on it. */
  lemma ReturnCleanIff(q: Timers, t: nat)
    requires Distinct(q.list)
    ensures t !in Disarm(q, t).0.list <==> (t in q.list ==> Expiry(q, t) != 0)
  {
    hide Distinct, Remove;
    RemoveDistinct(q.list, t);
  }
}
