/** The log service's messages: how the device frames one record for a host, and
    how the host reads it and keeps count of the sequence. */
module EventLogWire {
  import opened Common
  import opened EventLog

  const SEQUENCES: nat := 0x1_0000_0000

  /** A 32-bit count in four bytes, low byte first. */
  function Le4(n: nat): (r: text)
    ensures |r| == 4
  {
    [n % 256, n / 256 % 256, n / 65536 % 256, n / 16777216 % 256]
  }

  function FromLe4(b: text): nat
    requires |b| == 4
  {
    (b[0] as int) + 256 * (b[1] as int) + 65536 * (b[2] as int) + 16777216 * (b[3] as int)
  }

  lemma Le4RoundTrip(n: nat)
    ensures FromLe4(Le4(n)) == n % SEQUENCES
  {
    var a, b, c := n / 256, n / 65536, n / 16777216;
    Quarter(n, a, b, c);
    Whole(n, c / 256, n % 256 + 256 * (a % 256) + 65536 * (b % 256) + 16777216 * (c % 256));
  }

  lemma Quarter(n: nat, a: nat, b: nat, c: nat)
    requires a == n / 256 && b == n / 65536 && c == n / 16777216
    ensures n == SEQUENCES * (c / 256) + (n % 256 + 256 * (a % 256) + 65536 * (b % 256) + 16777216 * (c % 256))
  {
    assert b == a / 256 && c == b / 256;
  }

  lemma Whole(n: nat, q: nat, r: nat)
    requires n == SEQUENCES * q + r && r < SEQUENCES
    ensures n % SEQUENCES == r
  {
  }

  /** Milliseconds between two 64-bit microsecond clocks. */
  function MsAgo(now: int, ts: int): nat { (now - ts) % 0x1_0000_0000_0000_0000 / 1000 }

  /** `rDTTTLLL`, the sequence if D is set, the age and the message. */
  function Frame(resync: bool, sequence: nat, ms: nat, level: octet, message: text): text
    requires level < 8 && |LeBytes(ms)| <= 7
  {
    [level + 8 * |LeBytes(ms)| + if resync then 64 else 0]
    + (if resync then Le4(sequence) else []) + LeBytes(ms) + message
  }

  /** An age of a 64-bit clock in milliseconds always fits its length field. */
  lemma AgeFits(now: int, ts: int)
    ensures |LeBytes(MsAgo(now, ts))| <= 7
  {
    LeLength(MsAgo(now, ts), 7);
    assert Pow256(7) == 256 * (256 * (256 * (256 * (256 * (256 * (256 * Pow256(0)))))));
  }

  // ---------------------------------------------------------------------
  // The host
  // ---------------------------------------------------------------------

  /** `ms` is absent where the host's shift leaves it undefined. */
  datatype Delivery = Delivery(level: octet, sequence: nat, ms: Option<int>, message: text)

  /** The host shifts a C `int`: the fourth byte carries into the sign, and
      further bytes are shifted by more than an `int` has bits. */
  function HostAge(b: text): Option<int> {
    if |b| > 4 then None
    else if |b| == 4 && b[3] >= 128 then Some(FromLe(b) - SEQUENCES)
    else Some(FromLe(b))
  }

  /** The host's sequence after a message, and what it hands to its user. */
  function HostRx(sequence: nat, data: text): (nat, Option<Delivery>) {
    if |data| < 1 then (sequence, None)
    else
      var level, resync, size := data[0] % 8, data[0] / 64 % 2 == 1, data[0] / 8 % 8;
      if resync && |data| < 5 then (sequence, None)
      else
        var sequence1 := (if resync then FromLe4(data[1..5]) + 1 else sequence + 1) % SEQUENCES;
        var rest := if resync then data[5..] else data[1..];
        if |rest| < size then (sequence1, None)
        else (sequence1, Some(Delivery(level, sequence1, HostAge(rest[..size]), rest[size..])))
  }

  lemma HeaderBits(level: octet, size: nat, resync: bool)
    requires level < 8 && size <= 7
    ensures var h := level + 8 * size + if resync then 64 else 0;
      h % 8 == level && h / 8 % 8 == size && (h / 64 % 2 == 1 <==> resync)
  {
  }

  /** The host reads back level, message and sequence of every frame. */
  lemma FrameRoundTrip(before: nat, resync: bool, sequence: nat, ms: nat, level: octet, message: text)
    requires level < 8 && |LeBytes(ms)| <= 7
    ensures var n := ((if resync then sequence else before) + 1) % SEQUENCES;
      HostRx(before, Frame(resync, sequence, ms, level, message)) ==
        (n, Some(Delivery(level, n, HostAge(LeBytes(ms)), message)))
  {
    hide LeBytes, Le4, FromLe4, HostAge;
    var age := LeBytes(ms);
    var data := Frame(resync, sequence, ms, level, message);
    HeaderBits(level, |age|, resync);
    if resync {
      assert data[1..5] == Le4(sequence);
      Le4RoundTrip(sequence);
      assert data[5..] == age + message;
      ModPlus(sequence);
    } else {
      assert data[1..] == age + message;
    }
    assert (age + message)[..|age|] == age && (age + message)[|age|..] == message;
  }

  lemma ModPlus(n: nat)
    ensures (n % SEQUENCES + 1) % SEQUENCES == (n + 1) % SEQUENCES
  {
  }

  /** The age arrives exactly when it is below 2^31 milliseconds. */
  lemma AgeExactIff(ms: nat)
    ensures HostAge(LeBytes(ms)) == Some(ms) <==> ms < 0x8000_0000
  {
    var b := LeBytes(ms);
    LeRoundTrip(ms);
    LeLength(ms, 4);
    LeLength(ms, 3);
    PowersUpTo4();
    if |b| == 4 {
      TopByte(ms);
    }
  }

  lemma PowersUpTo4()
    ensures Pow256(3) == 0x100_0000 && Pow256(4) == 0x1_0000_0000
  {
    assert Pow256(1) == 256 && Pow256(2) == 65536;
  }

  lemma TopByte(ms: nat)
    requires |LeBytes(ms)| == 4
    ensures LeBytes(ms)[3] == ms / 16777216
  {
    var a := ms / 256;
    var b := a / 256;
    var c := b / 256;
    assert LeBytes(ms) == [ms % 256] + LeBytes(a);
    assert LeBytes(a) == [a % 256] + LeBytes(b);
    assert LeBytes(b) == [b % 256] + LeBytes(c);
    assert LeBytes(c) == [c % 256] + LeBytes(c / 256);
    assert c == ms / 16777216;
  }

  // ---------------------------------------------------------------------
  // The host's loop
  // ---------------------------------------------------------------------

  /** `vllp_log_rx`: the sequence is kept between messages. */
  class LogStream {
    var sequence: nat

    constructor ()
      ensures sequence == 0
    {
      sequence := 0;
    }

    method Receive(data: text) returns (out: Option<Delivery>)
      modifies this
      ensures (sequence, out) == HostRx(old(sequence), data)
    {
      if |data| < 1 {
        return None;
      }
      var level, resync, size := data[0] % 8, data[0] / 64 % 2 == 1, data[0] / 8 % 8;
      var at := 1;
      if resync {
        if |data| < 5 {
          return None;
        }
        sequence := FromLe4(data[1..5]);
        at := 5;
      }
      sequence := (sequence + 1) % SEQUENCES;
      ghost var rest, counted := data[at..], sequence;
      var age: Option<int> := Some(0);
      for i := 0 to size
        invariant i <= |rest| && sequence == counted
        invariant age == HostAge(rest[..i])
      {
        if |data| - at - i < 1 {
          return None;
        }
        var b := data[at + i];
        HostAgeSnoc(rest[..i], b);
        assert rest[..i + 1] == rest[..i] + [b];
        age := ShiftIn(age, b, i);
      }
      assert data[at + size..] == rest[size..];
      return Some(Delivery(level, sequence, age, data[at + size..]));
    }
  }

  /** One byte shifted in as a C `int` and widened. */
  function ShiftIn(age: Option<int>, b: octet, i: nat): Option<int> {
    if age.None? || i >= 4 then None
    else if i == 3 && b >= 128 then Some(age.value + (b - 256) * 16777216)
    else Some(age.value + b * Pow256(i))
  }

  lemma {:induction false} FromLeSnoc(b: text, x: octet)
    ensures FromLe(b + [x]) == FromLe(b) + x * Pow256(|b|)
    decreases b
  {
    if b == [] {
      assert b + [x] == [x] && [x][1..] == [];
    } else {
      assert (b + [x])[1..] == b[1..] + [x];
      FromLeSnoc(b[1..], x);
    }
  }

  lemma HostAgeSnoc(b: text, x: octet)
    ensures HostAge(b + [x]) == ShiftIn(HostAge(b), x, |b|)
  {
    FromLeSnoc(b, x);
    PowersUpTo4();
  }
}
