/** The event log's ring of bytes. Sixteen-bit pointers run freely and select
    bytes by their remainder; lengths and flags are read from the bytes. The
    ring behaves as the list of records in `EventLog`. */
module EventLogRing {
  import opened Common
  import opened EventLog

  // ---------------------------------------------------------------------
  // Positions
  // ---------------------------------------------------------------------

  function Slot(size: nat, pos: nat): (r: nat)
    requires size > 0
    ensures r < size
  {
    pos % size
  }

  function Short(pos: int): (r: nat)
    ensures r < 65536
  {
    pos % 65536
  }

  lemma SlotApart(size: nat, a: nat, b: nat)
    requires size > 0 && a < b < a + size
    ensures Slot(size, a) != Slot(size, b)
  {
    var q, r, d := a / size, a % size, b - a;
    assert a == q * size + r;
    if r + d < size {
      DivUnique(b, size, q, r + d);
    } else {
      assert (q + 1) * size == q * size + size;
      DivUnique(b, size, q + 1, r + d - size);
    }
  }

  /** Sixteen-bit wrap-around does not disturb the slots. */
  lemma SlotShort(size: nat, pos: nat)
    requires SizeOk(size)
    ensures Slot(size, Short(pos)) == Slot(size, pos)
  {
    var k, q := 65536 / size, pos / 65536;
    assert 65536 == k * size;
    assert pos == 65536 * q + pos % 65536;
    assert 65536 * q == (k * q) * size;
    ModShift(pos % 65536, k * q, size);
  }

  lemma ModShift(a: nat, m: nat, size: nat)
    requires size > 0
    ensures (m * size + a) % size == a % size
    decreases m
  {
    if m > 0 {
      ModShift(a, m - 1, size);
      assert m * size + a == ((m - 1) * size + a) + size;
      ModOnce((m - 1) * size + a, size);
    }
  }

  lemma ModOnce(a: nat, size: nat)
    requires size > 0
    ensures (a + size) % size == a % size
  {
    var q := a / size;
    assert a + size == (q + 1) * size + a % size;
    DivUnique(a + size, size, q + 1, a % size);
  }

  lemma MulAtLeast(k: int, size: nat)
    requires k >= 1
    ensures k * size >= size
  {
  }

  lemma DivUnique(x: nat, size: nat, q: nat, r: nat)
    requires size > 0 && r < size && x == q * size + r
    ensures x % size == r
  {
    var q1, r1 := x / size, x % size;
    assert x == q1 * size + r1;
    if q1 > q {
      assert (q1 - q) * size == q1 * size - q * size;
      MulAtLeast(q1 - q, size);
    } else if q1 < q {
      assert (q - q1) * size == q * size - q1 * size;
      MulAtLeast(q - q1, size);
    }
  }

  /** Adding to a wrapped pointer and wrapping is wrapping the sum. */
  lemma ShortPlus(pos: nat, n: nat)
    ensures Short(Short(pos) + n) == Short(pos + n)
  {
  }

  /** Pointers less than 2^16 apart are equal only if the positions are. */
  lemma ShortApart(a: nat, b: nat)
    requires a <= b < a + 65536
    ensures Short(a) == Short(b) <==> a == b
    ensures Short(Short(b) - Short(a)) == b - a
  {
  }

  // ---------------------------------------------------------------------
  // Windows
  // ---------------------------------------------------------------------

  /** n bytes from a position on. */
  function Window(data: text, pos: nat, n: nat): (r: text)
    requires |data| > 0
    ensures |r| == n
    ensures forall i :: 0 <= i < n ==> r[i] == data[Slot(|data|, pos + i)]
  {
    seq(n, i requires 0 <= i < n => data[Slot(|data|, pos + i)])
  }

  lemma WindowJoin(data: text, pos: nat, m: nat, n: nat)
    requires |data| > 0
    ensures Window(data, pos, m + n) == Window(data, pos, m) + Window(data, pos + m, n)
  {
    hide Slot;
    var whole, parts := Window(data, pos, m + n), Window(data, pos, m) + Window(data, pos + m, n);
    forall i | 0 <= i < m + n
      ensures whole[i] == parts[i]
    {
      if i >= m {
        assert pos + i == (pos + m) + (i - m);
      }
    }
  }

  /** Writing past a window leaves it alone. */
  lemma WindowPast(data: text, pos: nat, n: nat, at: nat, v: octet)
    requires |data| > 0 && pos + n <= at < pos + |data|
    ensures Window(data[Slot(|data|, at) := v], pos, n) == Window(data, pos, n)
  {
    hide Slot;
    forall i | 0 <= i < n
      ensures Window(data[Slot(|data|, at) := v], pos, n)[i] == Window(data, pos, n)[i]
    {
      SlotApart(|data|, pos + i, at);
    }
  }

  /** Writing just past a window extends it. */
  lemma WindowGrow(data: text, pos: nat, n: nat, v: octet)
    requires n < |data|
    ensures Window(data[Slot(|data|, pos + n) := v], pos, n + 1) == Window(data, pos, n) + [v]
  {
    hide Slot;
    WindowPast(data, pos, n, pos + n, v);
    var d := data[Slot(|data|, pos + n) := v];
    assert Window(d, pos, n + 1) == Window(d, pos, n) + [v];
  }

  /** Writing before a window, but within one turn of its end, leaves it alone. */
  lemma WindowBefore(data: text, pos: nat, n: nat, at: nat, v: octet)
    requires |data| > 0 && at < pos && pos + n <= at + |data|
    ensures Window(data[Slot(|data|, at) := v], pos, n) == Window(data, pos, n)
  {
    hide Slot;
    forall i | 0 <= i < n
      ensures Window(data[Slot(|data|, at) := v], pos, n)[i] == Window(data, pos, n)[i]
    {
      SlotApart(|data|, at, pos + i);
    }
  }

  // ---------------------------------------------------------------------
  // Bytes of records
  // ---------------------------------------------------------------------

  /** What the readers make of a record's bytes. */
  predicate Reads(b: text, r: Record) {
    && |b| == Size(r) && |b| >= 2
    && b[0] == |b|
    && b[1] % 8 == r.level && b[1] / 8 % 8 == |LeBytes(r.delta)|
    && b[2..|b| - |LeBytes(r.delta)|] == r.message
    && b[|b| - |LeBytes(r.delta)|..] == LeBytes(r.delta)
  }

  /** The bytes split into exactly these records. */
  predicate Parses(b: text, rs: seq<Record>)
    decreases rs
  {
    if rs == [] then b == []
    else Size(rs[0]) <= |b| && Reads(b[..Size(rs[0])], rs[0]) && Parses(b[Size(rs[0])..], rs[1..])
  }

  lemma {:induction false} ParsesSnoc(b: text, rs: seq<Record>, c: text, r: Record)
    requires Parses(b, rs) && Reads(c, r)
    ensures Parses(b + c, rs + [r])
    decreases rs
  {
    hide Size, Reads;
    ReadsSize(c, r);
    if rs == [] {
      assert b + c == c && c[..|c|] == c && c[|c|..] == [];
      assert rs + [r] == [r] && [r][1..] == [];
      assert Parses([], []);
    } else {
      var n := Size(rs[0]);
      assert (b + c)[..n] == b[..n] && (b + c)[n..] == b[n..] + c;
      assert (rs + [r])[1..] == rs[1..] + [r];
      ParsesSnoc(b[n..], rs[1..], c, r);
    }
  }

  lemma ReadsSize(c: text, r: Record)
    requires Reads(c, r)
    ensures |c| == Size(r)
  {
  }

  lemma SliceSlice(b: text, n: nat, t: nat, m: nat)
    requires n + t + m <= |b|
    ensures b[n..][t..t + m] == b[n + t..n + t + m]
  {
  }

  lemma TotalCons(rs: seq<Record>, k: nat)
    requires 0 < k <= |rs|
    ensures Total(rs[..k]) == Size(rs[0]) + Total(rs[1..][..k - 1])
  {
    assert rs[..k][1..] == rs[1..][..k - 1];
  }

  lemma ParsesCons(b: text, rs: seq<Record>)
    requires Parses(b, rs) && rs != []
    ensures Size(rs[0]) <= |b| && Reads(b[..Size(rs[0])], rs[0]) && Parses(b[Size(rs[0])..], rs[1..])
  {
  }

  /** The record k of parsed bytes starts where the ones before it end. */
  lemma {:induction false} ParsesAt(b: text, rs: seq<Record>, k: nat)
    requires Parses(b, rs) && k < |rs|
    ensures Total(rs[..k]) + Size(rs[k]) <= |b|
    ensures Reads(b[Total(rs[..k])..Total(rs[..k]) + Size(rs[k])], rs[k])
    decreases k
  {
    hide Size, Reads, Parses;
    ParsesCons(b, rs);
    var n := Size(rs[0]);
    if k == 0 {
      assert rs[..0] == [];
      assert b[..n] == b[0..n];
    } else {
      hide Total;
      ParsesAt(b[n..], rs[1..], k - 1);
      TotalCons(rs, k);
      SliceSlice(b, n, Total(rs[1..][..k - 1]), Size(rs[k]));
    }
  }

  lemma {:induction false} TotalPrefix(rs: seq<Record>, k: nat)
    requires k <= |rs|
    ensures Total(rs[..k]) <= Total(rs)
    ensures k < |rs| ==> Total(rs[..k + 1]) == Total(rs[..k]) + Size(rs[k])
    ensures k > 0 ==> Total(rs[..k]) > 0
    decreases k
  {
    hide Size;
    if k == 0 {
      assert rs[..0] == [];
      if |rs| > 0 { assert rs[..1][1..] == []; }
    } else {
      TotalPrefix(rs[1..], k - 1);
      SizePositive(rs[0]);
      assert rs[..k][1..] == rs[1..][..k - 1];
      if k < |rs| {
        assert rs[..k + 1][1..] == rs[1..][..k];
      }
    }
  }

  /** The finished record: its length, its flags, its message and its delta. */
  function Entry(level: octet, message: text, delta: nat): text
    requires level < 8 && |LeBytes(delta)| <= 8 && |message| <= 192
  {
    [2 + |message| + |LeBytes(delta)|, level + 8 * |LeBytes(delta)|] + message + LeBytes(delta)
  }

  lemma EntryReads(level: octet, message: text, delta: nat)
    requires level < 8 && |LeBytes(delta)| <= 8 && |message| <= 192
    ensures Reads(Entry(level, message, delta), Stamp(level, message, delta))
  {
    hide LeBytes;
    var b := Entry(level, message, delta);
    if |LeBytes(delta)| == 8 {
      NoBytes();
      assert b[2..] == message + LeBytes(delta);
    } else {
      assert b[2..|b| - |LeBytes(delta)|] == message;
      assert b[|b| - |LeBytes(delta)|..] == LeBytes(delta);
    }
  }

  lemma NoBytes()
    ensures LeBytes(0) == []
  {
  }
}
