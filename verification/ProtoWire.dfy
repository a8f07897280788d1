/** Varints ("Base 128 Varints" in the Protocol Buffers Encoding guide). */
module ProtoWire {
  import opened Wrappers
  import opened Int64
  import opened Bytes

  // ------------------------------------------------------------------ varints

  /** Seven bits at a time, least significant first; the top bit says that more follow. */
  function Varint(v: nat): seq<byte> {
    if v < 128 then [v] else [128 + v % 128] + Varint(v / 128)
  }

  /** How many values the bytes from index `i` on can add up to: 2 to the power 64 - 7i. */
  function Room(i: nat): (r: nat)
    requires i <= 9
    ensures r >= 2
    decreases 9 - i
  {
    if i == 9 then 2 else 128 * Room(i + 1)
  }

  /** What the byte at index `i` holds: seven bits, but only one in the tenth byte. */
  function Low(b: byte, i: nat): nat {
    if i == 9 then b % 2 else b % 128
  }

  /** The value of a varint whose first byte here is at index `i`. There
      is no eleventh byte. */
  function ReadFrom(raw: seq<byte>, i: nat): (r: Parsed<nat>)
    requires i <= 10
    ensures r.Good? ==> i <= 9 && r.value < Room(i) && |r.rest| < |raw|
    decreases 10 - i
  {
    if raw == [] || i == 10 then Bad(UnexpectedEof)
    else
      if raw[0] < 128 then
        Good(Low(raw[0], i), raw[1..])
      else
        var (high, rest) :- ReadFrom(raw[1..], i + 1);
        Good(Low(raw[0], i) + 128 * high, rest)
  }

  lemma RoomAtZero()
    ensures Room(0) == INT64_SPAN
  {
    assert Room(8) == 128 * Room(9);
    assert Room(7) == 128 * Room(8);
    assert Room(6) == 128 * Room(7);
    assert Room(5) == 128 * Room(6);
    assert Room(4) == 128 * Room(5);
    assert Room(3) == 128 * Room(4);
    assert Room(2) == 128 * Room(3);
    assert Room(1) == 128 * Room(2);
  }

  function ReadVarint(raw: seq<byte>): (r: Parsed<uint64>)
    ensures r.Good? ==> |r.rest| < |raw|
  {
    RoomAtZero();
    match ReadFrom(raw, 0)
    case Good(value, rest) => Good(value, rest)
    case Bad(error) => Bad(error)
  }

  lemma Split(v: nat, i: nat)
    requires i <= 9 && 128 <= v < Room(i)
    ensures i < 9 && v / 128 < Room(i + 1)
    ensures Low(128 + v % 128, i) + 128 * (v / 128) == v
  {
    assert i < 9 ==> Room(i) == 128 * Room(i + 1);
  }

  lemma {:induction false} ReadFromRoundTrip(v: nat, i: nat, rest: seq<byte>)
    requires i <= 9 && v < Room(i)
    ensures ReadFrom(Varint(v) + rest, i) == Good(v, rest)
    decreases v
  {
    var raw := Varint(v) + rest;
    if v < 128 {
      assert raw[1..] == rest;
    } else {
      Split(v, i);
      hide Low, Room;
      assert raw[0] == 128 + v % 128;
      assert raw[1..] == Varint(v / 128) + rest;
      ReadFromRoundTrip(v / 128, i + 1, rest);
    }
  }

  lemma VarintRoundTrip(v: uint64, rest: seq<byte>)
    ensures ReadVarint(Varint(v) + rest) == Good(v, rest)
  {
    RoomAtZero();
    ReadFromRoundTrip(v, 0, rest);
  }

  lemma {:induction false} OnlyEof(raw: seq<byte>, i: nat)
    requires i <= 10
    ensures ReadFrom(raw, i).Bad? ==> ReadFrom(raw, i).error == UnexpectedEof
    decreases 10 - i
  {
    if raw != [] && i < 10 {
      OnlyEof(raw[1..], i + 1);
    }
  }

  lemma {:induction false} ReadFromExtends(raw: seq<byte>, i: nat, more: seq<byte>)
    requires i <= 10
    ensures Extends(ReadFrom(raw, i), ReadFrom(raw + more, i), more)
    decreases 10 - i
  {
    if raw != [] && i < 10 {
      assert (raw + more)[1..] == raw[1..] + more;
      ReadFromExtends(raw[1..], i + 1, more);
    }
  }

  lemma VarintExtends(raw: seq<byte>, more: seq<byte>)
    ensures Extends(ReadVarint(raw), ReadVarint(raw + more), more)
  {
    ReadFromExtends(raw, 0, more);
  }

  method AppendVarintRaw(out: seq<byte>, value: uint64) returns (r: seq<byte>)
    ensures r == out + Varint(value)
  {
    r := out;
    var v: nat := value;
    while v >= 0x80
      invariant r + Varint(v) == out + Varint(value)
      decreases v
    {
      assert r + ([128 + v % 128] + Varint(v / 128)) == (r + [128 + v % 128]) + Varint(v / 128);
      r := r + [128 + v % 128];
      v := v / 128;
    }
    r := r + [v];
  }

  function Pow128(i: nat): (r: nat)
    ensures r > 0
  {
    if i == 0 then 1 else 128 * Pow128(i - 1)
  }

  lemma {:induction false} PowerFillsRoom(i: nat)
    requires i <= 9
    ensures Pow128(i) * Room(i) == INT64_SPAN
  {
    if i == 0 {
      RoomAtZero();
    } else {
      PowerFillsRoom(i - 1);
      Regroup(Pow128(i - 1), Room(i));
    }
  }

  lemma Regroup(a: int, b: int)
    ensures (128 * a) * b == a * (128 * b)
  {
  }

  /** Byte by byte: seven bits of the value each, and the top bit on all but the last. */
  lemma {:induction false} VarintByte(v: nat, i: nat)
    requires i < |Varint(v)|
    ensures Varint(v)[i] == v / Pow128(i) % 128 + (if i < |Varint(v)| - 1 then 128 else 0)
    ensures i == |Varint(v)| - 1 ==> v < Pow128(i + 1) && (i > 0 ==> Pow128(i) <= v)
    decreases v
  {
    if v < 128 {
      assert Pow128(1) == 128 * Pow128(0);
    } else if i > 0 {
      VarintByte(v / 128, i - 1);
      hide Varint;
      DividePast(v, Pow128(i - 1));
      assert Pow128(i) == 128 * Pow128(i - 1) && Pow128(i + 1) == 128 * Pow128(i);
    }
  }

  lemma DividePast(v: nat, p: nat)
    requires p > 0
    ensures v / 128 / p == v / (128 * p)
    ensures v / 128 < 128 * p ==> v < 128 * (128 * p)
    ensures p <= v / 128 ==> 128 * p <= v
  {
    var q := v / 128 / p;
    assert v / 128 == q * p + v / 128 % p;
    assert v == 128 * (v / 128) + v % 128;
    assert v == q * (128 * p) + (128 * (v / 128 % p) + v % 128);
    assert 128 * (v / 128 % p) + v % 128 < 128 * p;
    QuotientIs(v, 128 * p, q, 128 * (v / 128 % p) + v % 128);
  }

  lemma Multiples(m: int, d: int)
    requires d > 0
    ensures m >= 1 ==> m * d >= d
    ensures m <= -1 ==> m * d <= -d
  {
  }

  lemma QuotientIs(v: nat, d: nat, q: nat, r: nat)
    requires v == q * d + r && r < d
    ensures v / d == q
  {
    var k := v / d;
    assert v == k * d + v % d;
    assert (k - q) * d == k * d - q * d;
    Multiples(k - q, d);
  }

  /** What is known of a varint after its first `i` bytes gave `value`. */
  function Shifted(value: nat, i: nat, p: Parsed<nat>): Parsed<nat> {
    match p
    case Good(high, rest) => Good(value + Pow128(i) * high, rest)
    case Bad(error) => Bad(error)
  }

  /** Seven more bits at position `7 * i` of a word: nothing below is disturbed, and what
      does not fit in the word is lost. */
  function Contribution(b: byte, i: nat): uint64 {
    (b % 128) * Pow128(i) % INT64_SPAN
  }

  lemma ContributionIs(b: byte, i: nat)
    requires i <= 9
    ensures Contribution(b, i) == Pow128(i) * Low(b, i)
  {
    PowerFillsRoom(i);
    if i == 9 {
      NinthPower();
      hide Pow128, Room;
      TenthByte(b);
    } else {
      assert Room(i) == 128 * Room(i + 1);
      hide Pow128, Room;
      Unclipped(b % 128, Pow128(i), Room(i));
    }
  }

  lemma NinthPower()
    ensures Pow128(9) == 0x8000_0000_0000_0000
  {
    PowerFillsRoom(9);
  }

  lemma Unclipped(x: nat, p: nat, room: nat)
    requires x < room && p > 0 && p * room == INT64_SPAN
    ensures x * p % INT64_SPAN == p * x
  {
    Below(x, p, room);
  }

  lemma TenthByte(b: byte)
    ensures (b % 128) * 0x8000_0000_0000_0000 % INT64_SPAN == 0x8000_0000_0000_0000 * (b % 2)
  {
    var q := b % 128 / 2;
    assert b % 128 == 2 * q + b % 2;
    assert (b % 128) * 0x8000_0000_0000_0000 == q * INT64_SPAN + (b % 2) * 0x8000_0000_0000_0000;
  }

  lemma Below(x: nat, p: nat, room: nat)
    requires x < room && p > 0
    ensures x * p < p * room
  {
    assert (room - x) * p > 0;
  }

  lemma ShiftedStep(raw: seq<byte>, value: nat, i: nat)
    requires raw != [] && i <= 9 && raw[0] >= 128
    ensures Shifted(value, i, ReadFrom(raw, i)) ==
            Shifted(value + Contribution(raw[0], i), i + 1, ReadFrom(raw[1..], i + 1))
  {
    hide Contribution, Low, Room;
    ContributionIs(raw[0], i);
    var next := ReadFrom(raw[1..], i + 1);
    if next.Good? {
      hide Shifted, Pow128;
      ShiftedHigh(value, i, Low(raw[0], i), next.value, next.rest);
    }
  }

  lemma ShiftedHigh(value: nat, i: nat, low: nat, high: nat, rest: seq<byte>)
    ensures Shifted(value, i, Good(low + 128 * high, rest)) == Shifted(value + Pow128(i) * low, i + 1, Good(high, rest))
  {
    assert Pow128(i + 1) == 128 * Pow128(i);
    hide Pow128;
    Spread(Pow128(i), low, high);
  }

  lemma Spread(p: int, low: int, high: int)
    ensures p * (low + 128 * high) == p * low + (128 * p) * high
  {
  }

  lemma StaysBelow(total: nat, b: byte, i: nat)
    requires i <= 9 && total < Pow128(i)
    ensures total + Contribution(b, i) < Pow128(i + 1)
  {
    ContributionIs(b, i);
    assert Pow128(i + 1) == 128 * Pow128(i);
    var p, low := Pow128(i), Low(b, i);
    hide Pow128, Contribution, Low;
    assert low <= 127 by { LowIsSmall(b, i); }
    Times(p, low);
  }

  lemma LowIsSmall(b: byte, i: nat)
    ensures Low(b, i) <= 127
  {
  }

  lemma Times(p: nat, low: nat)
    requires low <= 127
    ensures p * low <= 127 * p
  {
  }

  /** The loop over the bytes; a negative count stands for a varint that cannot be read.
      Each step adds at position `7 * i`, and the total stays below that position, so adding
      and or-ing are the same. */
  method ScanVarint(raw: seq<byte>) returns (value: uint64, n: int)
    ensures match ReadVarint(raw)
            case Good(v, rest) => value == v && 0 < n <= |raw| && rest == raw[n..]
            case Bad(_) => n < 0
  {
    hide Contribution, Low, Room;
    RoomAtZero();
    var total: nat := 0;
    var i := 0;
    assert raw[0..] == raw;
    while i < |raw|
      invariant 0 <= i <= |raw| && i <= 10 && total < Pow128(i)
      invariant ReadFrom(raw, 0) == Shifted(total, i, ReadFrom(raw[i..], i))
    {
      if i == 10 {
        return 0, -1;
      }
      var b := raw[i];
      if b < 0x80 {
        ContributionIs(b, i);
        assert raw[i..][1..] == raw[i + 1..];
        return total + Contribution(b, i), i + 1;
      }
      ShiftedStep(raw[i..], total, i);
      StaysBelow(total, b, i);
      assert raw[i..][1..] == raw[i + 1..];
      total := total + Contribution(b, i);
      i := i + 1;
    }
    return 0, -1;
  }
}
