/** Bytes, byte strings and big-endian numbers, shared by the codecs. */
module Bytes {
  import opened Wrappers
  import opened Int64

  type byte = x: int | 0 <= x < 256

  type uint64 = x: int | 0 <= x < INT64_SPAN

  /** A string of the source: bytes, and a length that fits in an `int`. */
  type Str = s: seq<byte> | |s| <= INT64_MAX

  /** `uint64(x)`. */
  function ToUnsigned(x: int64): uint64 {
    if x < 0 then x + INT64_SPAN else x
  }

  /** `int64(u)`. */
  function ToSigned(u: uint64): int64 {
    if u > INT64_MAX then u - INT64_SPAN else u
  }

  lemma SignedRoundTrip(x: int64)
    ensures ToSigned(ToUnsigned(x)) == x
  {
  }

  datatype DecodeError =
    | UnexpectedEof
    | WrongType(found: nat)
    | Unsupported(info: nat)
    | WrongFieldCount(count: int)
    | TrailingBytes(left: nat)
    | TooLarge
    | NegativeLength

  /** What a reader makes of its input: a value and the bytes left, or an error. */
  datatype Parsed<+T> = Good(value: T, rest: seq<byte>) | Bad(error: DecodeError) {
    predicate IsFailure() {
      Bad?
    }

    function PropagateFailure<U>(): Parsed<U>
      requires Bad?
    {
      Bad(error)
    }

    function Extract(): (T, seq<byte>)
      requires Good?
    {
      (value, rest)
    }
  }

  // -------------------------------------------------------- reader methods

  /** A reader method did what the parsing function says. */
  predicate Follows<T(==)>(r: Result<T, DecodeError>, raw: seq<byte>, p: Parsed<T>) {
    match p
    case Good(value, rest) => r == Ok(value) && raw == rest
    case Bad(error) => r == Err(error)
  }

  function Prefixed(done: seq<Str>, p: Parsed<seq<Str>>): Parsed<seq<Str>> {
    match p
    case Good(value, rest) => Good(done + value, rest)
    case Bad(error) => Bad(error)
  }

  lemma PrefixedNone(p: Parsed<seq<Str>>)
    ensures Prefixed([], p) == p
  {
    if p.Good? {
      assert [] + p.value == p.value;
    }
  }

  lemma PrefixedStep(done: seq<Str>, s: Str)
    ensures forall value: seq<Str> :: done + ([s] + value) == (done + [s]) + value
  {
  }

  /** What a reader makes of `raw + more`, seen from what it made of `raw`: a value
      stays the same and `more` is left over, and an error stays the same
      unless it was that the input ended too soon. */
  predicate Extends<T(==)>(p: Parsed<T>, q: Parsed<T>, more: seq<byte>) {
    match p
    case Good(value, rest) => q == Good(value, rest + more)
    case Bad(error) => error == UnexpectedEof || q == p
  }

  /** `raw` starts with some encoding, `rest` follows it, and `best` is at most as long
      as that encoding, and is that encoding when it is as long. */
  predicate Shortest(raw: seq<byte>, best: seq<byte>, rest: seq<byte>) {
    && |best| + |rest| <= |raw|
    && (|best| + |rest| == |raw| ==> raw == best + rest)
  }

  lemma ShortestCompose(raw: seq<byte>, a: seq<byte>, mid: seq<byte>, b: seq<byte>, rest: seq<byte>)
    requires Shortest(raw, a, mid) && Shortest(mid, b, rest)
    ensures Shortest(raw, a + b, rest)
  {
    assert a + (b + rest) == (a + b) + rest;
  }

  lemma UnsignedRoundTrip(u: uint64)
    ensures ToUnsigned(ToSigned(u)) == u
  {
  }

  // -------------------------------------------------------------- big endian

  function Pow256(k: nat): (r: nat)
    ensures r > 0
  {
    if k == 0 then 1 else 256 * Pow256(k - 1)
  }

  /** `v` in `k` bytes, most significant first. */
  function ToBig(v: nat, k: nat): (r: seq<byte>)
    ensures |r| == k
  {
    if k == 0 then [] else ToBig(v / 256, k - 1) + [v % 256]
  }

  function FromBig(bytes: seq<byte>): nat {
    if bytes == [] then 0 else 256 * FromBig(bytes[..|bytes| - 1]) + bytes[|bytes| - 1]
  }

  lemma {:induction false} BigRoundTrip(v: nat, k: nat)
    requires v < Pow256(k)
    ensures FromBig(ToBig(v, k)) == v
  {
    if k > 0 {
      BigRoundTrip(v / 256, k - 1);
      assert ToBig(v, k)[..k - 1] == ToBig(v / 256, k - 1);
    }
  }

  lemma {:induction false} BigBounded(bytes: seq<byte>)
    ensures FromBig(bytes) < Pow256(|bytes|)
  {
    if bytes != [] {
      BigBounded(bytes[..|bytes| - 1]);
    }
  }

  /** The other way round: bytes read as a number are that number's bytes. */
  lemma {:induction false} BigUnique(bytes: seq<byte>)
    ensures ToBig(FromBig(bytes), |bytes|) == bytes
  {
    if bytes != [] {
      var init := bytes[..|bytes| - 1];
      BigUnique(init);
      assert FromBig(bytes) / 256 == FromBig(init);
      assert bytes == init + [bytes[|bytes| - 1]];
    }
  }

  lemma Powers()
    ensures Pow256(1) == 0x100 && Pow256(2) == 0x1_0000 && Pow256(4) == 0x1_0000_0000
    ensures Pow256(8) == INT64_SPAN
  {
    assert Pow256(2) == 256 * Pow256(1);
    assert Pow256(3) == 256 * Pow256(2);
    assert Pow256(4) == 256 * Pow256(3);
    assert Pow256(5) == 256 * Pow256(4);
    assert Pow256(6) == 256 * Pow256(5);
    assert Pow256(7) == 256 * Pow256(6);
    assert Pow256(8) == 256 * Pow256(7);
  }

  // ----------------------------------------------------------- concatenation

  /** Encodings laid end to end. */
  function Concat(parts: seq<seq<byte>>): seq<byte> {
    if parts == [] then [] else parts[0] + Concat(parts[1..])
  }

  /** The bytes from the i-th part on. */
  function From(parts: seq<seq<byte>>, i: nat): seq<byte>
    requires i <= |parts|
  {
    Concat(parts[i..])
  }

  lemma FromStep(parts: seq<seq<byte>>, i: nat)
    requires i < |parts|
    ensures From(parts, i) == parts[i] + From(parts, i + 1)
  {
    assert parts[i..][1..] == parts[i + 1..];
  }

  /** The bytes before the i-th part. */
  function Upto(parts: seq<seq<byte>>, i: nat): seq<byte>
    requires i <= |parts|
  {
    Concat(parts[..i])
  }

  /** Appending a part appends its bytes. */
  lemma {:induction false} ConcatSnoc(parts: seq<seq<byte>>, x: seq<byte>)
    ensures Concat(parts + [x]) == Concat(parts) + x
  {
    if parts == [] {
      assert parts + [x] == [x];
      assert Concat([x]) == x + Concat([x][1..]);
    } else {
      ConcatSnoc(parts[1..], x);
      assert (parts + [x])[1..] == parts[1..] + [x];
    }
  }

  lemma UptoStep(parts: seq<seq<byte>>, i: nat)
    requires i < |parts|
    ensures Upto(parts, i + 1) == Upto(parts, i) + parts[i]
  {
    assert parts[..i + 1] == parts[..i] + [parts[i]];
    ConcatSnoc(parts[..i], parts[i]);
  }

  lemma SevenParts(p: seq<seq<byte>>)
    requires |p| >= 7
    ensures Upto(p, 7) == p[0] + p[1] + p[2] + p[3] + p[4] + p[5] + p[6]
  {
    hide Upto;
    UptoOne(p);
    UptoStep(p, 1);
    UptoStep(p, 2);
    UptoStep(p, 3);
    UptoStep(p, 4);
    UptoStep(p, 5);
    UptoStep(p, 6);
  }

  lemma UptoOne(p: seq<seq<byte>>)
    requires |p| >= 1
    ensures Upto(p, 1) == p[0]
  {
    assert p[..1] == [p[0]];
    assert Concat([p[0]]) == p[0] + Concat([p[0]][1..]);
  }

  lemma FifteenParts(p: seq<seq<byte>>)
    requires |p| >= 15
    ensures Upto(p, 15) == p[0] + p[1] + p[2] + p[3] + p[4] + p[5] + p[6] + p[7]
                           + p[8] + p[9] + p[10] + p[11] + p[12] + p[13] + p[14]
  {
    hide Upto;
    SevenParts(p);
    UptoStep(p, 7);
    UptoStep(p, 8);
    UptoStep(p, 9);
    UptoStep(p, 10);
    UptoStep(p, 11);
    UptoStep(p, 12);
    UptoStep(p, 13);
    UptoStep(p, 14);
  }

  lemma ShortestPrepend(parts: seq<seq<byte>>, i: nat, raw: seq<byte>, mid: seq<byte>, rest: seq<byte>)
    requires i < |parts| && Shortest(raw, parts[i], mid) && Shortest(mid, From(parts, i + 1), rest)
    ensures Shortest(raw, From(parts, i), rest)
  {
    hide From;
    FromStep(parts, i);
    ShortestCompose(raw, parts[i], mid, From(parts, i + 1), rest);
  }

  lemma ShortestNone(parts: seq<seq<byte>>, rest: seq<byte>)
    ensures Shortest(rest, From(parts, |parts|), rest)
  {
    assert [] + rest == rest;
  }

  // ------------------------------------------------- big endian, byte by byte

  lemma BigOne(v: nat)
    requires v <= 0xff
    ensures ToBig(v, 1) == [v]
  {
    assert ToBig(v / 256, 0) == [];
  }

  lemma BigTwo(v: nat)
    ensures ToBig(v, 2) == [v / 0x100 % 0x100, v % 0x100]
  {
    assert ToBig(v / 256, 1) == ToBig(v / 256 / 256, 0) + [v / 256 % 256];
  }

  lemma BigFour(v: nat)
    ensures ToBig(v, 4) == [v / 0x100_0000 % 0x100, v / 0x1_0000 % 0x100, v / 0x100 % 0x100, v % 0x100]
  {
    BigTwo(v / 256 / 256);
    assert ToBig(v / 256, 3) == ToBig(v / 256 / 256, 2) + [v / 256 % 256];
    assert ToBig(v, 4) == ToBig(v / 256, 3) + [v % 256];
  }

  lemma BigEight(v: nat)
    ensures ToBig(v, 8) == ToBig(v / 0x1_0000_0000, 4) + [v / 0x100_0000 % 0x100, v / 0x1_0000 % 0x100, v / 0x100 % 0x100, v % 0x100]
  {
    var w := v / 256 / 256 / 256 / 256;
    assert w == v / 0x1_0000_0000;
    assert ToBig(v, 8) == ToBig(v / 256, 7) + [v % 256];
    assert ToBig(v / 256, 7) == ToBig(v / 256 / 256, 6) + [v / 256 % 256];
    assert ToBig(v / 256 / 256, 6) == ToBig(v / 256 / 256 / 256, 5) + [v / 256 / 256 % 256];
    assert ToBig(v / 256 / 256 / 256, 5) == ToBig(w, 4) + [v / 256 / 256 / 256 % 256];
  }

  lemma FromBigStep(bytes: seq<byte>, b: byte)
    ensures FromBig(bytes + [b]) == 256 * FromBig(bytes) + b
  {
    assert (bytes + [b])[..|bytes|] == bytes;
  }

  lemma FromBigOne(a: byte)
    ensures FromBig([a]) == a
  {
    FromBigStep([], a);
    assert [] + [a] == [a];
  }

  lemma FromBigTwo(a: byte, b: byte)
    ensures FromBig([a, b]) == 0x100 * a + b
  {
    FromBigOne(a);
    FromBigStep([a], b);
    assert [a] + [b] == [a, b];
  }

  lemma FromBigFour(a: byte, b: byte, c: byte, d: byte)
    ensures FromBig([a, b, c, d]) == 0x100_0000 * a + 0x1_0000 * b + 0x100 * c + d
  {
    FromBigTwo(a, b);
    FromBigStep([a, b], c);
    FromBigStep([a, b] + [c], d);
    assert [a, b] + [c] + [d] == [a, b, c, d];
  }

  /** Eight bytes are two words of four. */
  lemma FromBigEight(hi: seq<byte>, a: byte, b: byte, c: byte, d: byte)
    ensures FromBig(hi + [a, b, c, d]) == 0x1_0000_0000 * FromBig(hi) + 0x100_0000 * a + 0x1_0000 * b + 0x100 * c + d
  {
    FromBigStep(hi, a);
    FromBigStep(hi + [a], b);
    FromBigStep(hi + [a] + [b], c);
    FromBigStep(hi + [a] + [b] + [c], d);
    assert hi + [a] + [b] + [c] + [d] == hi + [a, b, c, d];
  }
}
