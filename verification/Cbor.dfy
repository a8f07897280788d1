/** The CBOR subset of the codecs: unsigned integers, text strings and arrays,
    each behind a variable-length head (sections 3 and 3.1 of RFC 8949). */
module Cbor {
  import opened Wrappers
  import opened Int64
  import opened Bytes

  type Major = m: int | 0 <= m < 8

  const UINT: Major := 0
  const TEXT: Major := 3
  const ARRAY: Major := 4

  function Head(major: Major, value: uint64): seq<byte> {
    if value < 24 then [32 * major + value]
    else if value <= 0xff then [32 * major + 24] + ToBig(value, 1)
    else if value <= 0xffff then [32 * major + 25] + ToBig(value, 2)
    else if value <= 0xffff_ffff then [32 * major + 26] + ToBig(value, 4)
    else [32 * major + 27] + ToBig(value, 8)
  }

  function Text(s: Str): seq<byte> {
    Head(TEXT, |s|) + s
  }

  function Texts(ss: seq<Str>): seq<byte> {
    if ss == [] then [] else Text(ss[0]) + Texts(ss[1..])
  }

  lemma TextsNone(ss: seq<Str>)
    requires ss == []
    ensures Texts(ss) == []
  {
  }

  /** One more string at the end is one more encoded string at the end. */
  lemma {:induction false} TextsSnoc(ss: seq<Str>, s: Str)
    ensures Texts(ss + [s]) == Texts(ss) + Text(s)
  {
    hide Text;
    if ss == [] {
      assert ss + [s] == [s];
      assert Texts([s]) == Text(s) + Texts([s][1..]);
    } else {
      TextsSnoc(ss[1..], s);
      assert (ss + [s])[1..] == ss[1..] + [s];
    }
  }

  /** The length is converted to `uint64`. */
  function ArrayHead(length: nat): seq<byte> {
    Head(ARRAY, length % INT64_SPAN)
  }

  function TextArray(ss: seq<Str>): seq<byte> {
    ArrayHead(|ss|) + Texts(ss)
  }

  // ----------------------------------------------------------------- reading

  datatype HeadValue = HeadValue(major: Major, value: uint64)

  /** How many bytes follow the first, for each additional-information value. */
  function Width(info: nat): nat
    requires 24 <= info <= 27
  {
    if info == 24 then 1 else if info == 25 then 2 else if info == 26 then 4 else 8
  }

  function Fixed(major: Major, raw: seq<byte>, k: nat): Parsed<HeadValue>
    requires k in {1, 2, 4, 8}
  {
    if |raw| < k then Bad(UnexpectedEof)
    else
      var v := FromBig(raw[..k]);
      FixedFits(raw[..k]);
      Good(HeadValue(major, v), raw[k..])
  }

  lemma FixedFits(bytes: seq<byte>)
    requires |bytes| in {1, 2, 4, 8}
    ensures FromBig(bytes) < INT64_SPAN
  {
    BigBounded(bytes);
    Powers();
  }

  function ReadHead(raw: seq<byte>): Parsed<HeadValue> {
    if raw == [] then Bad(UnexpectedEof)
    else
      var major, info := raw[0] / 32, raw[0] % 32;
      if info < 24 then Good(HeadValue(major, info), raw[1..])
      else if info > 27 then Bad(Unsupported(info))
      else Fixed(major, raw[1..], Width(info))
  }

  function ReadUint(raw: seq<byte>): Parsed<uint64> {
    var (h, rest) :- ReadHead(raw);
    if h.major != UINT then Bad(WrongType(h.major)) else Good(h.value, rest)
  }

  function ReadText(raw: seq<byte>): Parsed<Str> {
    var (h, rest) :- ReadHead(raw);
    if h.major != TEXT then Bad(WrongType(h.major))
    else if |rest| < h.value then Bad(UnexpectedEof)
    else if h.value > INT64_MAX then Bad(TooLarge)
    else Good(rest[..h.value], rest[h.value..])
  }

  /** The length is converted to a signed `int`. */
  function ReadArrayLen(raw: seq<byte>): Parsed<int64> {
    var (h, rest) :- ReadHead(raw);
    if h.major != ARRAY then Bad(WrongType(h.major)) else Good(ToSigned(h.value), rest)
  }

  function ReadTexts(raw: seq<byte>, n: nat): (r: Parsed<seq<Str>>)
    ensures r.Good? ==> |r.value| == n
    decreases n
  {
    if n == 0 then Good([], raw)
    else
      var (s, rest) :- ReadText(raw);
      var (ss, rest') :- ReadTexts(rest, n - 1);
      Good([s] + ss, rest')
  }

  /** A negative length is a run-time panic in the source. */
  function ReadTextArray(raw: seq<byte>): Parsed<seq<Str>> {
    var (n, rest) :- ReadArrayLen(raw);
    if n < 0 then Bad(NegativeLength)
    else
      var (ss, rest') :- ReadTexts(rest, n);
      Good(ss, rest')
  }

  // -------------------------------------------------------------- round trips

  lemma HeadByte(major: Major, info: nat)
    requires info < 32
    ensures (32 * major + info) / 32 == major && (32 * major + info) % 32 == info
  {
  }

  lemma BigEndianRoundTrip(major: Major, value: uint64, k: nat, rest: seq<byte>)
    requires k in {1, 2, 4, 8} && value < Pow256(k)
    ensures Fixed(major, ToBig(value, k) + rest, k) == Good(HeadValue(major, value), rest)
  {
    hide ToBig, FromBig, Pow256;
    var tail := ToBig(value, k) + rest;
    assert tail[..k] == ToBig(value, k) && tail[k..] == rest;
    BigRoundTrip(value, k);
  }

  lemma FixedRoundTrip(major: Major, value: uint64, info: nat, rest: seq<byte>)
    requires 24 <= info <= 27 && value < Pow256(Width(info))
    ensures ReadHead([32 * major + info] + ToBig(value, Width(info)) + rest) == Good(HeadValue(major, value), rest)
  {
    hide ToBig, FromBig, Pow256, Fixed;
    var k := Width(info);
    var tail := ToBig(value, k) + rest;
    var raw := [32 * major + info] + ToBig(value, k) + rest;
    assert raw == [32 * major + info] + tail;
    assert raw[1..] == tail;
    HeadByte(major, info);
    BigEndianRoundTrip(major, value, k, rest);
  }

  lemma SmallHeadRoundTrip(major: Major, value: nat, rest: seq<byte>)
    requires value < 24
    ensures ReadHead([32 * major + value] + rest) == Good(HeadValue(major, value), rest)
  {
    hide Fixed;
    var raw := [32 * major + value] + rest;
    assert raw[0] == 32 * major + value && raw[1..] == rest;
    HeadByte(major, value);
  }

  lemma HeadRoundTrip(major: Major, value: uint64, rest: seq<byte>)
    ensures ReadHead(Head(major, value) + rest) == Good(HeadValue(major, value), rest)
  {
    hide ToBig, ReadHead, Pow256;
    Powers();
    if value < 24 {
      SmallHeadRoundTrip(major, value, rest);
    } else if value <= 0xff {
      FixedRoundTrip(major, value, 24, rest);
    } else if value <= 0xffff {
      FixedRoundTrip(major, value, 25, rest);
    } else if value <= 0xffff_ffff {
      FixedRoundTrip(major, value, 26, rest);
    } else {
      FixedRoundTrip(major, value, 27, rest);
    }
  }

  lemma UintRoundTrip(value: uint64, rest: seq<byte>)
    ensures ReadUint(Head(UINT, value) + rest) == Good(value, rest)
  {
    HeadRoundTrip(UINT, value, rest);
  }

  lemma ArrayHeadRoundTrip(n: nat, rest: seq<byte>)
    requires n <= INT64_MAX
    ensures ReadArrayLen(ArrayHead(n) + rest) == Good(n, rest)
  {
    hide Head, ReadHead;
    HeadRoundTrip(ARRAY, n, rest);
  }

  lemma TextRoundTrip(s: Str, rest: seq<byte>)
    ensures ReadText(Text(s) + rest) == Good(s, rest)
  {
    hide Head, ReadHead;
    assert Text(s) + rest == Head(TEXT, |s|) + (s + rest);
    HeadRoundTrip(TEXT, |s|, s + rest);
    assert (s + rest)[..|s|] == s && (s + rest)[|s|..] == rest;
  }

  lemma {:induction false} TextsRoundTrip(ss: seq<Str>, rest: seq<byte>)
    ensures ReadTexts(Texts(ss) + rest, |ss|) == Good(ss, rest)
    decreases |ss|
  {
    hide Text, ReadText;
    if ss == [] {
      assert Texts(ss) + rest == rest;
    } else {
      assert Texts(ss) + rest == Text(ss[0]) + (Texts(ss[1..]) + rest);
      TextRoundTrip(ss[0], Texts(ss[1..]) + rest);
      TextsRoundTrip(ss[1..], rest);
      assert [ss[0]] + ss[1..] == ss;
    }
  }

  lemma TextArrayRoundTrip(ss: seq<Str>, rest: seq<byte>)
    requires |ss| <= INT64_MAX
    ensures ReadTextArray(TextArray(ss) + rest) == Good(ss, rest)
  {
    hide ArrayHead, ReadArrayLen, Texts, ReadTexts;
    assert TextArray(ss) + rest == ArrayHead(|ss|) + (Texts(ss) + rest);
    ArrayHeadRoundTrip(|ss|, Texts(ss) + rest);
    TextsRoundTrip(ss, rest);
  }

  // --------------------------------------------------------- shortest heads

  lemma SmallHeadIsShortest(raw: seq<byte>)
    requires raw != [] && raw[0] % 32 < 24
    ensures Shortest(raw, Head(raw[0] / 32, raw[0] % 32), raw[1..])
  {
    assert raw == [raw[0]] + raw[1..];
  }

  /** No head that the reader accepts for a value is shorter than the writer's
      (section 4.2.1 of RFC 8949), and one of the same length is the writer's. */
  lemma HeadIsShortest(raw: seq<byte>)
    requires ReadHead(raw).Good?
    ensures var p := ReadHead(raw); Shortest(raw, Head(p.value.major, p.value.value), p.rest)
  {
    hide Head, ToBig, FromBig, Pow256;
    var major, info := raw[0] / 32, raw[0] % 32;
    if info < 24 {
      SmallHeadIsShortest(raw);
    } else {
      FixedIsShortest(major, info, raw, ReadHead(raw).value.value);
    }
  }

  lemma FixedIsShortest(major: Major, info: nat, raw: seq<byte>, v: uint64)
    requires raw != [] && raw[0] == 32 * major + info && 24 <= info <= 27
    requires |raw| > Width(info) && v == FromBig(raw[1..][..Width(info)])
    ensures |Head(major, v)| <= 1 + Width(info)
    ensures |Head(major, v)| == 1 + Width(info) ==> raw == Head(major, v) + raw[1..][Width(info)..]
  {
    var k := Width(info);
    var bytes := raw[1..][..k];
    BigBounded(bytes);
    BigUnique(bytes);
    Powers();
    assert raw == [raw[0]] + bytes + raw[1..][k..];
  }

  lemma UintIsShortest(raw: seq<byte>)
    requires ReadUint(raw).Good?
    ensures Shortest(raw, Head(UINT, ReadUint(raw).value), ReadUint(raw).rest)
  {
    hide Head, ReadHead;
    HeadIsShortest(raw);
  }

  lemma TextIsShortest(raw: seq<byte>)
    requires ReadText(raw).Good?
    ensures Shortest(raw, Text(ReadText(raw).value), ReadText(raw).rest)
  {
    hide Head, ReadHead;
    HeadIsShortest(raw);
    var p := ReadHead(raw);
    var s := p.rest[..p.value.value];
    assert p.rest == s + p.rest[p.value.value..];
    ShortestCompose(raw, Head(TEXT, |s|), p.rest, s, p.rest[p.value.value..]);
  }

  lemma {:induction false} TextsAreShortest(raw: seq<byte>, n: nat)
    requires ReadTexts(raw, n).Good?
    ensures Shortest(raw, Texts(ReadTexts(raw, n).value), ReadTexts(raw, n).rest)
    decreases n
  {
    hide Text, ReadText;
    if n == 0 {
      assert [] + raw == raw;
    } else {
      var p := ReadText(raw);
      var q := ReadTexts(p.rest, n - 1);
      TextIsShortest(raw);
      TextsAreShortest(p.rest, n - 1);
      ShortestCompose(raw, Text(p.value), p.rest, Texts(q.value), q.rest);
      assert ([p.value] + q.value)[1..] == q.value;
    }
  }

  lemma ArrayHeadIsShortest(raw: seq<byte>)
    requires ReadArrayLen(raw).Good? && ReadArrayLen(raw).value >= 0
    ensures Shortest(raw, ArrayHead(ReadArrayLen(raw).value), ReadArrayLen(raw).rest)
  {
    hide Head, ReadHead;
    HeadIsShortest(raw);
  }

  lemma TextArrayIsShortest(raw: seq<byte>)
    requires ReadTextArray(raw).Good?
    ensures Shortest(raw, TextArray(ReadTextArray(raw).value), ReadTextArray(raw).rest)
  {
    hide ArrayHead, Texts, ReadTexts, ReadArrayLen;
    ArrayHeadIsShortest(raw);
    var p := ReadArrayLen(raw);
    var q := ReadTexts(p.rest, p.value);
    TextsAreShortest(p.rest, p.value);
    ShortestCompose(raw, ArrayHead(p.value), p.rest, Texts(q.value), q.rest);
  }

  // ---------------------------------------------------------- more input later

  lemma HeadExtends(raw: seq<byte>, more: seq<byte>)
    ensures Extends(ReadHead(raw), ReadHead(raw + more), more)
  {
    if raw != [] {
      assert (raw + more)[1..] == raw[1..] + more;
      var info := raw[0] % 32;
      if 24 <= info <= 27 && |raw[1..]| >= Width(info) {
        var k, tail := Width(info), raw[1..];
        assert (tail + more)[..k] == tail[..k] && (tail + more)[k..] == tail[k..] + more;
      }
    }
  }

  lemma UintExtends(raw: seq<byte>, more: seq<byte>)
    ensures Extends(ReadUint(raw), ReadUint(raw + more), more)
  {
    hide ReadHead;
    HeadExtends(raw, more);
  }

  lemma TextExtends(raw: seq<byte>, more: seq<byte>)
    ensures Extends(ReadText(raw), ReadText(raw + more), more)
  {
    hide ReadHead;
    HeadExtends(raw, more);
    var p := ReadHead(raw);
    if p.Good? && p.value.value <= |p.rest| {
      assert (p.rest + more)[..p.value.value] == p.rest[..p.value.value];
      assert (p.rest + more)[p.value.value..] == p.rest[p.value.value..] + more;
    }
  }

  lemma ArrayLenExtends(raw: seq<byte>, more: seq<byte>)
    ensures Extends(ReadArrayLen(raw), ReadArrayLen(raw + more), more)
  {
    hide ReadHead;
    HeadExtends(raw, more);
  }

  lemma {:induction false} TextsExtend(raw: seq<byte>, n: nat, more: seq<byte>)
    ensures Extends(ReadTexts(raw, n), ReadTexts(raw + more, n), more)
    decreases n
  {
    hide ReadText;
    if n > 0 {
      TextExtends(raw, more);
      if ReadText(raw).Good? {
        TextsExtend(ReadText(raw).rest, n - 1, more);
      }
    }
  }

  lemma TextArrayExtends(raw: seq<byte>, more: seq<byte>)
    ensures Extends(ReadTextArray(raw), ReadTextArray(raw + more), more)
  {
    hide ReadTexts, ReadHead, ReadArrayLen;
    ArrayLenExtends(raw, more);
    var p := ReadArrayLen(raw);
    if p.Good? && p.value >= 0 {
      TextsExtend(p.rest, p.value, more);
    }
  }

  // ----------------------------------------------------------- the reader object

  /** Holds the unread bytes; every read takes what it needs off the front. */
  class Reader {
    var raw: seq<byte>

    constructor (raw: seq<byte>)
      ensures this.raw == raw
    {
      this.raw := raw;
    }

    method Take(major: Major, k: nat) returns (r: Result<HeadValue, DecodeError>)
      requires k in {1, 2, 4, 8}
      modifies this
      ensures Follows(r, raw, Fixed(major, old(raw), k))
    {
      if |raw| < k {
        return Err(UnexpectedEof);
      }
      var value := FromBig(raw[..k]);
      FixedFits(raw[..k]);
      raw := raw[k..];
      r := Ok(HeadValue(major, value));
    }

    method Head() returns (r: Result<HeadValue, DecodeError>)
      modifies this
      ensures Follows(r, raw, ReadHead(old(raw)))
    {
      if |raw| == 0 {
        return Err(UnexpectedEof);
      }
      var head := raw[0];
      raw := raw[1..];
      var major, info := head / 32, head % 32;
      if info == 24 {
        r := Take(major, 1);
      } else if info == 25 {
        r := Take(major, 2);
      } else if info == 26 {
        r := Take(major, 4);
      } else if info == 27 {
        r := Take(major, 8);
      } else if info < 24 {
        r := Ok(HeadValue(major, info));
      } else {
        r := Err(Unsupported(info));
      }
    }

    method ArrayLen() returns (r: Result<int64, DecodeError>)
      modifies this
      ensures Follows(r, raw, ReadArrayLen(old(raw)))
    {
      hide ReadHead;
      var h := Head();
      if h.Err? {
        return Err(h.error);
      }
      if h.value.major != ARRAY {
        return Err(WrongType(h.value.major));
      }
      r := Ok(ToSigned(h.value.value));
    }

    method Text() returns (r: Result<Str, DecodeError>)
      modifies this
      ensures Follows(r, raw, ReadText(old(raw)))
    {
      hide ReadHead;
      var h := Head();
      if h.Err? {
        return Err(h.error);
      }
      if h.value.major != TEXT {
        return Err(WrongType(h.value.major));
      }
      if |raw| < h.value.value {
        return Err(UnexpectedEof);
      }
      if h.value.value > INT64_MAX {
        return Err(TooLarge);
      }
      r := Ok(raw[..h.value.value]);
      raw := raw[h.value.value..];
    }

    method Uint() returns (r: Result<uint64, DecodeError>)
      modifies this
      ensures Follows(r, raw, ReadUint(old(raw)))
    {
      hide ReadHead;
      var h := Head();
      if h.Err? {
        return Err(h.error);
      }
      if h.value.major != UINT {
        return Err(WrongType(h.value.major));
      }
      r := Ok(h.value.value);
    }

    method TextArray() returns (r: Result<seq<Str>, DecodeError>)
      modifies this
      ensures Follows(r, raw, ReadTextArray(old(raw)))
    {
      hide ReadText;
      var length := ArrayLen();
      if length.Err? {
        return Err(length.error);
      }
      if length.value < 0 {
        return Err(NegativeLength);
      }
      var values: seq<Str> := [];
      ghost var start := raw;
      PrefixedNone(ReadTexts(raw, length.value));
      var i := 0;
      while i < length.value
        invariant 0 <= i == |values| <= length.value
        invariant ReadTexts(start, length.value) == Prefixed(values, ReadTexts(raw, length.value - i))
      {
        var value := Text();
        if value.Err? {
          return Err(value.error);
        }
        PrefixedStep(values, value.value);
        values := values + [value.value];
        i := i + 1;
      }
      assert values + [] == values;
      r := Ok(values);
    }
  }
}
