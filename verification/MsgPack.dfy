/** The MessagePack subset of the codecs: the int, str and array families. */
module MsgPack {
  import opened Wrappers
  import opened Int64
  import opened Bytes

  /** Lengths are written in at most two bytes; longer ones lose their high bytes. */
  const SPAN16: int := 0x1_0000

  function StringHead(length: nat): seq<byte> {
    if length <= 31 then [0xa0 + length] else [0xda] + ToBig(length, 2)
  }

  function String(s: Str): seq<byte> {
    StringHead(|s|) + s
  }

  function Strings(ss: seq<Str>): seq<byte> {
    if ss == [] then [] else String(ss[0]) + Strings(ss[1..])
  }

  lemma StringsNone(ss: seq<Str>)
    requires ss == []
    ensures Strings(ss) == []
  {
  }

  lemma {:induction false} StringsSnoc(ss: seq<Str>, s: Str)
    ensures Strings(ss + [s]) == Strings(ss) + String(s)
  {
    hide String;
    if ss == [] {
      assert ss + [s] == [s];
      assert Strings([s]) == String(s) + Strings([s][1..]);
    } else {
      StringsSnoc(ss[1..], s);
      assert (ss + [s])[1..] == ss[1..] + [s];
    }
  }

  function ArrayHead(length: nat): seq<byte> {
    if length <= 15 then [0x90 + length] else [0xdc] + ToBig(length, 2)
  }

  /** The head of a record, always in the two-byte form. */
  function RecordHead(count: nat): seq<byte> {
    [0xdc] + ToBig(count, 2)
  }

  function StringArray(ss: seq<Str>): seq<byte> {
    ArrayHead(|ss|) + Strings(ss)
  }

  function Int(v: int64): seq<byte> {
    if 0 <= v <= 127 then [v] else [0xd3] + ToBig(ToUnsigned(v), 8)
  }

  method AppendStringArray(out: seq<byte>, values: seq<Str>) returns (r: seq<byte>)
    ensures r == out + StringArray(values)
  {
    hide String, Strings, ToBig;
    r := out + ArrayHead(|values|);
    ghost var head := ArrayHead(|values|);
    var i := 0;
    assert r == out + (head + Strings(values[..0])) by { StringsNone(values[..0]); }
    while i < |values|
      invariant 0 <= i <= |values|
      invariant r == out + (head + Strings(values[..i]))
    {
      assert values[..i + 1] == values[..i] + [values[i]];
      StringsSnoc(values[..i], values[i]);
      r := r + String(values[i]);
      i := i + 1;
    }
    assert values[..i] == values;
  }

  // ----------------------------------------------------------------- reading

  function ReadLength(raw: seq<byte>): (r: Parsed<nat>)
    ensures r.Good? ==> r.value < SPAN16
  {
    if |raw| < 2 then Bad(UnexpectedEof)
    else
      LengthFits(raw[..2]);
      Good(FromBig(raw[..2]), raw[2..])
  }

  lemma LengthFits(bytes: seq<byte>)
    requires |bytes| == 2
    ensures FromBig(bytes) < SPAN16
  {
    BigBounded(bytes);
    Powers();
  }

  function ReadArrayLen(raw: seq<byte>): (r: Parsed<nat>)
    ensures r.Good? ==> r.value < SPAN16
  {
    if raw == [] then Bad(UnexpectedEof)
    else if 0x90 <= raw[0] <= 0x9f then Good(raw[0] - 0x90, raw[1..])
    else if raw[0] == 0xdc then ReadLength(raw[1..])
    else Bad(WrongType(raw[0]))
  }

  function ReadStringLen(raw: seq<byte>): (r: Parsed<nat>)
    ensures r.Good? ==> r.value < SPAN16
  {
    if raw == [] then Bad(UnexpectedEof)
    else if 0xa0 <= raw[0] <= 0xbf then Good(raw[0] - 0xa0, raw[1..])
    else if raw[0] == 0xda then ReadLength(raw[1..])
    else Bad(WrongType(raw[0]))
  }

  function ReadString(raw: seq<byte>): (r: Parsed<Str>)
    ensures r.Good? ==> |r.value| < SPAN16
  {
    var (length, rest) :- ReadStringLen(raw);
    if |rest| < length then Bad(UnexpectedEof) else Good(rest[..length], rest[length..])
  }

  function ReadInt(raw: seq<byte>): Parsed<int64> {
    if raw == [] then Bad(UnexpectedEof)
    else if raw[0] <= 0x7f then Good(raw[0], raw[1..])
    else if raw[0] != 0xd3 then Bad(WrongType(raw[0]))
    else if |raw[1..]| < 8 then Bad(UnexpectedEof)
    else
      WordFits(raw[1..][..8]);
      Good(ToSigned(FromBig(raw[1..][..8])), raw[1..][8..])
  }

  lemma WordFits(bytes: seq<byte>)
    requires |bytes| == 8
    ensures FromBig(bytes) < INT64_SPAN
  {
    BigBounded(bytes);
    Powers();
  }

  function ReadStrings(raw: seq<byte>, n: nat): (r: Parsed<seq<Str>>)
    ensures r.Good? ==> |r.value| == n && AllShort(r.value)
    decreases n
  {
    if n == 0 then Good([], raw)
    else
      var (s, rest) :- ReadString(raw);
      var (ss, rest') :- ReadStrings(rest, n - 1);
      Good([s] + ss, rest')
  }

  function ReadStringArray(raw: seq<byte>): (r: Parsed<seq<Str>>)
    ensures r.Good? ==> |r.value| < SPAN16 && AllShort(r.value)
  {
    var (n, rest) :- ReadArrayLen(raw);
    var (ss, rest') :- ReadStrings(rest, n);
    Good(ss, rest')
  }

  predicate AllShort(ss: seq<Str>) {
    forall i :: 0 <= i < |ss| ==> |ss[i]| < SPAN16
  }

  // -------------------------------------------------------------- round trips

  lemma LengthRoundTrip(prefix: byte, length: nat, rest: seq<byte>)
    requires length < SPAN16
    ensures var raw := [prefix] + ToBig(length, 2) + rest;
            raw[0] == prefix && ReadLength(raw[1..]) == Good(length, rest)
  {
    var tail := ToBig(length, 2) + rest;
    var raw := [prefix] + ToBig(length, 2) + rest;
    hide ToBig, FromBig;
    assert raw == [prefix] + tail;
    assert raw[1..] == tail && tail[..2] == ToBig(length, 2) && tail[2..] == rest;
    Powers();
    BigRoundTrip(length, 2);
  }

  lemma RecordHeadRoundTrip(count: nat, rest: seq<byte>)
    requires count < SPAN16
    ensures ReadArrayLen(RecordHead(count) + rest) == Good(count, rest)
  {
    hide ToBig, ReadLength;
    LengthRoundTrip(0xdc, count, rest);
  }

  lemma ArrayHeadRoundTrip(length: nat, rest: seq<byte>)
    requires length < SPAN16
    ensures ReadArrayLen(ArrayHead(length) + rest) == Good(length, rest)
  {
    hide ToBig, ReadLength;
    if length <= 15 {
      assert (ArrayHead(length) + rest)[1..] == rest;
    } else {
      LengthRoundTrip(0xdc, length, rest);
    }
  }

  lemma StringHeadRoundTrip(length: nat, rest: seq<byte>)
    requires length < SPAN16
    ensures ReadStringLen(StringHead(length) + rest) == Good(length, rest)
  {
    hide ToBig, ReadLength;
    if length <= 31 {
      assert (StringHead(length) + rest)[1..] == rest;
    } else {
      LengthRoundTrip(0xda, length, rest);
    }
  }

  lemma StringRoundTrip(s: Str, rest: seq<byte>)
    requires |s| < SPAN16
    ensures ReadString(String(s) + rest) == Good(s, rest)
  {
    hide StringHead, ReadStringLen;
    assert String(s) + rest == StringHead(|s|) + (s + rest);
    StringHeadRoundTrip(|s|, s + rest);
    assert (s + rest)[..|s|] == s && (s + rest)[|s|..] == rest;
  }

  lemma {:induction false} StringsRoundTrip(ss: seq<Str>, rest: seq<byte>)
    requires AllShort(ss)
    ensures ReadStrings(Strings(ss) + rest, |ss|) == Good(ss, rest)
    decreases |ss|
  {
    hide String, ReadString;
    if ss == [] {
      assert Strings(ss) + rest == rest;
    } else {
      assert Strings(ss) + rest == String(ss[0]) + (Strings(ss[1..]) + rest);
      StringRoundTrip(ss[0], Strings(ss[1..]) + rest);
      StringsRoundTrip(ss[1..], rest);
      assert [ss[0]] + ss[1..] == ss;
    }
  }

  lemma StringArrayRoundTrip(ss: seq<Str>, rest: seq<byte>)
    requires |ss| < SPAN16 && AllShort(ss)
    ensures ReadStringArray(StringArray(ss) + rest) == Good(ss, rest)
  {
    hide ArrayHead, ReadArrayLen, Strings, ReadStrings;
    assert StringArray(ss) + rest == ArrayHead(|ss|) + (Strings(ss) + rest);
    ArrayHeadRoundTrip(|ss|, Strings(ss) + rest);
    StringsRoundTrip(ss, rest);
  }

  lemma IntRoundTrip(v: int64, rest: seq<byte>)
    ensures ReadInt(Int(v) + rest) == Good(v, rest)
  {
    hide ToBig, FromBig, Pow256;
    var raw := Int(v) + rest;
    if 0 <= v <= 127 {
      assert raw[1..] == rest;
    } else {
      var word := ToBig(ToUnsigned(v), 8);
      var tail := word + rest;
      assert raw == [0xd3] + tail;
      assert raw[1..] == tail && tail[..8] == word && tail[8..] == rest;
      Powers();
      BigRoundTrip(ToUnsigned(v), 8);
      SignedRoundTrip(v);
    }
  }

  // ---------------------------------------------------------- more input later

  lemma LengthExtends(raw: seq<byte>, more: seq<byte>)
    ensures Extends(ReadLength(raw), ReadLength(raw + more), more)
  {
    hide FromBig;
    if |raw| >= 2 {
      assert (raw + more)[..2] == raw[..2] && (raw + more)[2..] == raw[2..] + more;
    }
  }

  lemma ArrayLenExtends(raw: seq<byte>, more: seq<byte>)
    ensures Extends(ReadArrayLen(raw), ReadArrayLen(raw + more), more)
  {
    hide ReadLength;
    if raw != [] {
      assert (raw + more)[1..] == raw[1..] + more;
      LengthExtends(raw[1..], more);
    }
  }

  lemma StringExtends(raw: seq<byte>, more: seq<byte>)
    ensures Extends(ReadString(raw), ReadString(raw + more), more)
  {
    hide ReadLength;
    if raw != [] {
      assert (raw + more)[1..] == raw[1..] + more;
      LengthExtends(raw[1..], more);
      var p := ReadStringLen(raw);
      if p.Good? && p.value <= |p.rest| {
        assert (p.rest + more)[..p.value] == p.rest[..p.value];
        assert (p.rest + more)[p.value..] == p.rest[p.value..] + more;
      }
    }
  }

  lemma IntExtends(raw: seq<byte>, more: seq<byte>)
    ensures Extends(ReadInt(raw), ReadInt(raw + more), more)
  {
    hide FromBig;
    if raw != [] {
      var tail := raw[1..];
      assert (raw + more)[1..] == tail + more;
      if |tail| >= 8 {
        assert (tail + more)[..8] == tail[..8] && (tail + more)[8..] == tail[8..] + more;
      }
    }
  }

  lemma {:induction false} StringsExtend(raw: seq<byte>, n: nat, more: seq<byte>)
    ensures Extends(ReadStrings(raw, n), ReadStrings(raw + more, n), more)
    decreases n
  {
    hide ReadString;
    if n > 0 {
      StringExtends(raw, more);
      if ReadString(raw).Good? {
        StringsExtend(ReadString(raw).rest, n - 1, more);
      }
    }
  }

  lemma StringArrayExtends(raw: seq<byte>, more: seq<byte>)
    ensures Extends(ReadStringArray(raw), ReadStringArray(raw + more), more)
  {
    hide ReadStrings, ReadArrayLen;
    ArrayLenExtends(raw, more);
    var p := ReadArrayLen(raw);
    if p.Good? {
      StringsExtend(p.rest, p.value, more);
    }
  }

  // ----------------------------------------------------------- the reader object

  /** Holds the unread bytes; every read takes what it needs off the front. */
  class Reader {
    var raw: seq<byte>

    constructor (raw: seq<byte>)
      ensures this.raw == raw
    {
      this.raw := raw;
    }

    method Length() returns (r: Result<nat, DecodeError>)
      modifies this
      ensures Follows(r, raw, ReadLength(old(raw)))
    {
      if |raw| < 2 {
        return Err(UnexpectedEof);
      }
      r := Ok(FromBig(raw[..2]));
      raw := raw[2..];
    }

    method ArrayLen() returns (r: Result<nat, DecodeError>)
      modifies this
      ensures Follows(r, raw, ReadArrayLen(old(raw)))
    {
      hide ReadLength;
      if |raw| == 0 {
        return Err(UnexpectedEof);
      }
      var prefix := raw[0];
      raw := raw[1..];
      if 0x90 <= prefix <= 0x9f {
        return Ok(prefix - 0x90);
      }
      if prefix == 0xdc {
        r := Length();
        return;
      }
      r := Err(WrongType(prefix));
    }

    method String() returns (r: Result<Str, DecodeError>)
      modifies this
      ensures Follows(r, raw, ReadString(old(raw)))
    {
      hide ReadLength;
      if |raw| == 0 {
        return Err(UnexpectedEof);
      }
      var prefix := raw[0];
      raw := raw[1..];
      var length: nat;
      if 0xa0 <= prefix <= 0xbf {
        length := prefix - 0xa0;
      } else if prefix == 0xda {
        var wide := Length();
        if wide.Err? {
          return Err(wide.error);
        }
        length := wide.value;
      } else {
        return Err(WrongType(prefix));
      }
      if |raw| < length {
        return Err(UnexpectedEof);
      }
      assert length < SPAN16;
      r := Ok(raw[..length]);
      raw := raw[length..];
    }

    method Int() returns (r: Result<int64, DecodeError>)
      modifies this
      ensures Follows(r, raw, ReadInt(old(raw)))
    {
      hide FromBig;
      if |raw| == 0 {
        return Err(UnexpectedEof);
      }
      var prefix := raw[0];
      raw := raw[1..];
      if prefix <= 0x7f {
        return Ok(prefix);
      }
      if prefix != 0xd3 {
        return Err(WrongType(prefix));
      }
      if |raw| < 8 {
        return Err(UnexpectedEof);
      }
      WordFits(raw[..8]);
      r := Ok(ToSigned(FromBig(raw[..8])));
      raw := raw[8..];
    }

    method StringArray() returns (r: Result<seq<Str>, DecodeError>)
      modifies this
      ensures Follows(r, raw, ReadStringArray(old(raw)))
    {
      hide ReadString, ReadArrayLen;
      var length := ArrayLen();
      if length.Err? {
        return Err(length.error);
      }
      var values: seq<Str> := [];
      ghost var start := raw;
      PrefixedNone(ReadStrings(raw, length.value));
      var i := 0;
      while i < length.value
        invariant 0 <= i == |values| <= length.value
        invariant ReadStrings(start, length.value) == Prefixed(values, ReadStrings(raw, length.value - i))
      {
        var value := String();
        if value.Err? {
          return Err(value.error);
        }
        PrefixedStep(values, value.value);
        values := values + [value.value];
        i := i + 1;
      }
      assert values + [] == values;
      r := Ok(values);
    }
  }
}
