/** The bytes of the MessagePack encodings written out: what the writer puts down and what the
    reader makes of it, each on its own (the int, str and array families of its specification). */
module MsgPackLayout {
  import opened Wrappers
  import opened Int64
  import opened Bytes
  import opened MsgPack
  import PaymentEvents
  import Profiles
  import MsgPackEvents
  import MsgPackProfiles

  function StringBytes(s: Str): seq<byte> {
    (if |s| <= 31 then [0xa0 + |s|] else [0xda, |s| / 0x100 % 0x100, |s| % 0x100]) + s
  }

  function IntBytes(v: int64): seq<byte> {
    if 0 <= v <= 127 then [v] else [0xd3] + ToBig(v % 0x1_0000_0000_0000_0000, 8)
  }

  function ListBytes(ss: seq<Str>): seq<byte> {
    (if |ss| <= 15 then [0x90 + |ss|] else [0xdc, |ss| / 0x100 % 0x100, |ss| % 0x100]) + AllBytes(ss)
  }

  function AllBytes(ss: seq<Str>): seq<byte> {
    if ss == [] then [] else StringBytes(ss[0]) + AllBytes(ss[1..])
  }

  lemma StringIs(s: Str)
    ensures String(s) == StringBytes(s)
  {
    BigTwo(|s|);
    hide ToBig;
  }

  lemma IntIs(v: int64)
    ensures Int(v) == IntBytes(v)
  {
    assert ToUnsigned(v) == v % 0x1_0000_0000_0000_0000;
    hide ToBig;
  }

  lemma {:induction false} AllAre(ss: seq<Str>)
    ensures Strings(ss) == AllBytes(ss)
  {
    if ss != [] {
      StringIs(ss[0]);
      hide String, StringBytes;
      AllAre(ss[1..]);
    }
  }

  lemma ListIs(ss: seq<Str>)
    ensures StringArray(ss) == ListBytes(ss)
  {
    BigTwo(|ss|);
    AllAre(ss);
    hide ToBig, Strings, AllBytes;
  }

  lemma CountHeads()
    ensures RecordHead(15) == [0xdc, 0, 15] && RecordHead(6) == [0xdc, 0, 6]
  {
    BigTwo(15);
    BigTwo(6);
    hide ToBig;
  }

  /** An event is a head for fifteen items and the items in this order. */
  lemma EventLayout(e: PaymentEvents.PaymentEvent)
    ensures MsgPackEvents.Encode(e) == Concat([
      [0xdc, 0, 15],
      StringBytes(e.eventId),
      StringBytes(e.eventType),
      StringBytes(e.tenantId),
      StringBytes(e.accountId),
      StringBytes(e.transferId),
      StringBytes(e.correlationId),
      IntBytes(e.occurredAt),
      IntBytes(e.amountCents),
      StringBytes(e.currency),
      StringBytes(e.receiverKeyType),
      StringBytes(e.decisionReason),
      StringBytes(e.spiMessageId),
      StringBytes(e.endToEndId),
      IntBytes(e.fraudScore),
      ListBytes(e.fraudRules)])
  {
    CountHeads();
    hide String, Int, StringArray, StringBytes, IntBytes, ListBytes, RecordHead, Concat;
    StringIs(e.eventId);
    StringIs(e.eventType);
    StringIs(e.tenantId);
    StringIs(e.accountId);
    StringIs(e.transferId);
    StringIs(e.correlationId);
    IntIs(e.occurredAt);
    IntIs(e.amountCents);
    StringIs(e.currency);
    StringIs(e.receiverKeyType);
    StringIs(e.decisionReason);
    StringIs(e.spiMessageId);
    StringIs(e.endToEndId);
    IntIs(e.fraudScore);
    ListIs(e.fraudRules);
  }

  lemma ProfileLayout(e: Profiles.Profile)
    ensures MsgPackProfiles.Encode(e) == Concat([
      [0xdc, 0, 6],
      StringBytes(e.receiverId),
      StringBytes(e.bankIspb),
      StringBytes(e.name),
      IntBytes(e.riskSignal),
      IntBytes(e.resolvedAt),
      IntBytes(e.expiresAt)])
  {
    CountHeads();
    hide String, Int, StringBytes, IntBytes, RecordHead, Concat;
    StringIs(e.receiverId);
    StringIs(e.bankIspb);
    StringIs(e.name);
    IntIs(e.riskSignal);
    IntIs(e.resolvedAt);
    IntIs(e.expiresAt);
  }

  // ------------------------------------------------------------------ reading

  lemma LengthReads(prefix: byte, a: byte, b: byte, rest: seq<byte>)
    ensures var raw := [prefix] + [a, b] + rest; raw[0] == prefix && ReadLength(raw[1..]) == Good(0x100 * a + b, rest)
  {
    FromBigTwo(a, b);
    hide FromBig;
    var raw := [prefix] + [a, b] + rest;
    assert raw[1..][..2] == [a, b] && raw[1..][2..] == rest;
  }

  /** Which first bytes announce a string, a list or an integer, and what they say. */
  lemma HeadsRead(n: nat, a: byte, b: byte, rest: seq<byte>)
    ensures n <= 31 ==> ReadStringLen([0xa0 + n] + rest) == Good(n, rest)
    ensures ReadStringLen([0xda] + [a, b] + rest) == Good(0x100 * a + b, rest)
    ensures n <= 15 ==> ReadArrayLen([0x90 + n] + rest) == Good(n, rest)
    ensures ReadArrayLen([0xdc] + [a, b] + rest) == Good(0x100 * a + b, rest)
    ensures n <= 0x7f ==> ReadInt([n] + rest) == Good(n, rest)
  {
    hide ReadLength, FromBig;
    LengthReads(0xda, a, b, rest);
    LengthReads(0xdc, a, b, rest);
    if n <= 31 {
      assert ([0xa0 + n] + rest)[1..] == rest;
    }
    if n <= 15 {
      assert ([0x90 + n] + rest)[1..] == rest;
    }
    if n <= 0x7f {
      assert ([n] + rest)[1..] == rest;
    }
  }

  /** A wide integer is the signed reading of its eight bytes. */
  lemma WideIntReads(hi: seq<byte>, a: byte, b: byte, c: byte, d: byte, rest: seq<byte>)
    requires |hi| == 4
    ensures FromBig(hi) < 0x1_0000_0000
    ensures var v := 0x1_0000_0000 * FromBig(hi) + 0x100_0000 * a + 0x1_0000 * b + 0x100 * c + d;
            ReadInt([0xd3] + (hi + [a, b, c, d]) + rest) ==
            Good(if v > INT64_MAX then v - 0x1_0000_0000_0000_0000 else v, rest)
  {
    Powers();
    BigBounded(hi);
    hide FromBig, Pow256;
    FromBigEight(hi, a, b, c, d);
    var word := hi + [a, b, c, d];
    WordFits(word);
    var raw := [0xd3] + word + rest;
    assert raw[1..] == word + rest;
    assert (word + rest)[..8] == word && (word + rest)[8..] == rest;
  }

  /** Any other first byte is refused. */
  lemma OtherHeadsAreRefused(raw: seq<byte>)
    requires raw != []
    ensures !(0xa0 <= raw[0] <= 0xbf) && raw[0] != 0xda ==> ReadString(raw) == Bad(WrongType(raw[0]))
    ensures !(0x90 <= raw[0] <= 0x9f) && raw[0] != 0xdc ==> ReadArrayLen(raw) == Bad(WrongType(raw[0]))
    ensures raw[0] > 0x7f && raw[0] != 0xd3 ==> ReadInt(raw) == Bad(WrongType(raw[0]))
  {
  }

  /** Nothing but an array of that many items is accepted. */
  lemma OtherCountsAreRefused(raw: seq<byte>)
    requires ReadArrayLen(raw).Good?
    ensures ReadArrayLen(raw).value != 15 ==> MsgPackEvents.Decode(raw) == Err(WrongFieldCount(ReadArrayLen(raw).value))
    ensures ReadArrayLen(raw).value != 6 ==> MsgPackProfiles.Decode(raw) == Err(WrongFieldCount(ReadArrayLen(raw).value))
  {
    hide ReadArrayLen, MsgPackEvents.Fields, MsgPackProfiles.Fields;
  }
}
