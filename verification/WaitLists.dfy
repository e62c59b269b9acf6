/** The kernel's sorted lists: waiting tasks by descending priority and timers by
    ascending expiry, both built by one sorted insertion. */
module WaitLists {
  import opened Common

  function Remove(s: seq<nat>, x: nat): (r: seq<nat>)
    decreases s
  {
    if s == [] then [] else if s[0] == x then s[1..] else [s[0]] + Remove(s[1..], x)
  }

  lemma {:induction false} RemoveIs(s: seq<nat>, x: nat, k: nat)
    requires k < |s| && s[k] == x && x !in s[..k]
    ensures Remove(s, x) == s[..k] + s[k + 1..]
    decreases s
  {
    if k > 0 {
      assert s[..k][0] == s[0] && s[..k][1..] == s[1..][..k - 1];
      RemoveIs(s[1..], x, k - 1);
    }
  }

  lemma {:induction false} RemoveAbsent(s: seq<nat>, x: nat)
    requires x !in s
    ensures Remove(s, x) == s
    decreases s
  {
    if s != [] { RemoveAbsent(s[1..], x); }
  }

  lemma {:induction false} FirstIndex(s: seq<nat>, x: nat) returns (k: nat)
    requires x in s
    ensures k < |s| && s[k] == x && x !in s[..k]
    decreases s
  {
    if s[0] == x {
      k := 0;
    } else {
      var k1 := FirstIndex(s[1..], x);
      k := k1 + 1;
      assert s[..k] == [s[0]] + s[1..][..k1];
    }
  }

  /** Removal from a list without repetitions takes exactly that element. */
  lemma RemoveDistinct(s: seq<nat>, x: nat)
    requires Distinct(s)
    ensures Distinct(Remove(s, x)) && x !in Remove(s, x)
    ensures forall y :: y != x ==> (y in Remove(s, x) <==> y in s)
  {
    if x in s {
      var k := FirstIndex(s, x);
      RemoveIs(s, x, k);
      var r := Remove(s, x);
      forall y | y != x
        ensures y in r <==> y in s
      {
        if y in s {
          var j :| 0 <= j < |s| && s[j] == y;
          if j < k { assert r[j] == y; } else { assert r[j - 1] == y; }
        }
      }
    } else {
      RemoveAbsent(s, x);
    }
  }

  // ---------------------------------------------------------------------
  // Sorted insertion
  // ---------------------------------------------------------------------

  predicate Keyed(key: map<nat, int>, s: seq<nat>) { forall i :: 0 <= i < |s| ==> s[i] in key }

  /** The first element with a smaller key than x, or the end. */
  function Place(key: map<nat, int>, s: seq<nat>, x: nat): (k: nat)
    requires x in key && Keyed(key, s)
    ensures k <= |s|
    ensures forall i :: 0 <= i < k ==> key[s[i]] >= key[x]
    ensures k < |s| ==> key[s[k]] < key[x]
    decreases s
  {
    if s == [] || key[x] > key[s[0]] then 0 else 1 + Place(key, s[1..], x)
  }

  function Insert(key: map<nat, int>, s: seq<nat>, x: nat): (r: seq<nat>)
    requires x in key && Keyed(key, s)
    ensures |r| == |s| + 1
  {
    s[..Place(key, s, x)] + [x] + s[Place(key, s, x)..]
  }

  predicate Descending(key: map<nat, int>, s: seq<nat>)
    requires Keyed(key, s)
  {
    forall i, j :: 0 <= i < j < |s| ==> key[s[i]] >= key[s[j]]
  }

  lemma InsertAt(key: map<nat, int>, s: seq<nat>, x: nat)
    requires x in key && Keyed(key, s)
    ensures var k, r := Place(key, s, x), Insert(key, s, x);
      forall i :: 0 <= i < |r| ==> r[i] == if i < k then s[i] else if i == k then x else s[i - 1]
  {
    hide Place;
  }

  /** Insertion keeps the order, and is stable: of equal keys the newcomer is
      last. */
  lemma InsertSorted(key: map<nat, int>, s: seq<nat>, x: nat)
    requires x in key && Keyed(key, s) && Descending(key, s)
    ensures Keyed(key, Insert(key, s, x)) && Descending(key, Insert(key, s, x))
    ensures forall i :: 0 <= i < |s| ==> (key[s[i]] >= key[x] <==> i < Place(key, s, x))
  {
    var k := Place(key, s, x);
    var r := Insert(key, s, x);
    InsertAt(key, s, x);
    assert forall i :: 0 <= i < |s| ==> s[i] in key;
    assert Keyed(key, r);
    forall i, j | 0 <= i < j < |r|
      ensures key[r[i]] >= key[r[j]]
    {
      if j > k + 1 && i == k {
        assert key[s[k]] >= key[s[j - 1]];
      }
    }
  }

  lemma InsertDistinct(key: map<nat, int>, s: seq<nat>, x: nat)
    requires x in key && Keyed(key, s) && Distinct(s) && x !in s
    ensures Distinct(Insert(key, s, x))
    ensures forall y :: y in Insert(key, s, x) <==> y == x || y in s
  {
    var k := Place(key, s, x);
    var r := Insert(key, s, x);
    assert r[k] == x;
    forall y
      ensures y in r <==> y == x || y in s
    {
      if y in s {
        var j :| 0 <= j < |s| && s[j] == y;
        if j < k { assert r[j] == y; } else { assert r[j + 1] == y; }
      }
    }
  }

  /** `LIST_INSERT_SORTED`: before the first element that compares greater, else
      after the last. */
  method InsertInOrder(key: map<nat, int>, s: seq<nat>, x: nat) returns (r: seq<nat>)
    requires x in key && Keyed(key, s)
    ensures r == Insert(key, s, x)
  {
    if s == [] {
      return [x];
    }
    var k := 0;
    while true
      invariant k < |s| && forall i :: 0 <= i < k ==> key[s[i]] >= key[x]
      decreases |s| - k
    {
      if key[s[k]] < key[x] {
        return s[..k] + [x] + s[k..];
      }
      if k + 1 == |s| {
        return s + [x];
      }
      k := k + 1;
    }
  }
}
