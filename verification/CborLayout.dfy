/** The bytes of the CBOR encodings written out: what the writer puts down and what the reader
    makes of it, each on its own (section 3 of RFC 8949). */
module CborLayout {
  import opened Wrappers
  import opened Int64
  import opened Bytes
  import opened Cbor
  import PaymentEvents
  import Profiles
  import CborEvents
  import CborProfiles

  /** The value modulo 2^64. */
  function Low64(v: int64): uint64 {
    v % 0x1_0000_0000_0000_0000
  }

  lemma HeadBytes(major: Major, v: uint64)
    ensures v < 24 ==> Head(major, v) == [32 * major + v]
    ensures 24 <= v <= 0xff ==> Head(major, v) == [32 * major + 24, v]
    ensures 0x100 <= v <= 0xffff ==> Head(major, v) == [32 * major + 25, v / 0x100, v % 0x100]
    ensures 0x1_0000 <= v <= 0xffff_ffff ==>
              Head(major, v) == [32 * major + 26, v / 0x100_0000, v / 0x1_0000 % 0x100, v / 0x100 % 0x100, v % 0x100]
  {
    hide ToBig;
    if v <= 0xff {
      BigOne(v);
    } else if v <= 0xffff {
      BigTwo(v);
    } else if v <= 0xffff_ffff {
      BigFour(v);
    }
  }

  lemma LongHeadBytes(major: Major, v: uint64)
    requires v > 0xffff_ffff
    ensures var hi := v / 0x1_0000_0000;
            Head(major, v) == [32 * major + 27]
                              + ([hi / 0x100_0000 % 0x100, hi / 0x1_0000 % 0x100, hi / 0x100 % 0x100, hi % 0x100]
                                 + [v / 0x100_0000 % 0x100, v / 0x1_0000 % 0x100, v / 0x100 % 0x100, v % 0x100])
  {
    hide ToBig;
    BigEight(v);
    BigFour(v / 0x1_0000_0000);
  }

  // ------------------------------------------------------------------ reading

  /** What each first byte announces, and how many bytes it takes to say it. */
  lemma HeadReads(h: byte, a: byte, b: byte, c: byte, d: byte, rest: seq<byte>)
    ensures h % 32 < 24 ==> ReadHead([h] + rest) == Good(HeadValue(h / 32, h % 32), rest)
    ensures h % 32 == 24 ==> ReadHead([h] + [a] + rest) == Good(HeadValue(h / 32, a), rest)
    ensures h % 32 == 25 ==> ReadHead([h] + [a, b] + rest) == Good(HeadValue(h / 32, 0x100 * a + b), rest)
    ensures h % 32 == 26 ==> ReadHead([h] + [a, b, c, d] + rest) ==
                             Good(HeadValue(h / 32, 0x100_0000 * a + 0x1_0000 * b + 0x100 * c + d), rest)
    ensures h % 32 > 27 ==> ReadHead([h] + rest) == Bad(Unsupported(h % 32))
  {
    hide FromBig;
    if h % 32 < 24 || h % 32 > 27 {
      assert ([h] + rest)[1..] == rest;
    } else if h % 32 == 24 {
      FromBigOne(a);
      FixedReads(h, [a], rest);
    } else if h % 32 == 25 {
      FromBigTwo(a, b);
      FixedReads(h, [a, b], rest);
    } else if h % 32 == 26 {
      FromBigFour(a, b, c, d);
      FixedReads(h, [a, b, c, d], rest);
    }
  }

  lemma FixedReads(h: byte, bytes: seq<byte>, rest: seq<byte>)
    requires 24 <= h % 32 <= 27 && |bytes| == Width(h % 32) && FromBig(bytes) < INT64_SPAN
    ensures ReadHead([h] + bytes + rest) == Good(HeadValue(h / 32, FromBig(bytes)), rest)
  {
    hide FromBig;
    var raw := [h] + bytes + rest;
    assert raw[1..] == bytes + rest;
    assert (bytes + rest)[..|bytes|] == bytes && (bytes + rest)[|bytes|..] == rest;
  }

  lemma LongHeadReads(h: byte, hi: seq<byte>, a: byte, b: byte, c: byte, d: byte, rest: seq<byte>)
    requires h % 32 == 27 && |hi| == 4
    ensures FromBig(hi) < 0x1_0000_0000
    ensures ReadHead([h] + (hi + [a, b, c, d]) + rest) ==
            Good(HeadValue(h / 32, 0x1_0000_0000 * FromBig(hi) + 0x100_0000 * a + 0x1_0000 * b + 0x100 * c + d), rest)
  {
    hide FromBig, ReadHead;
    WordBounded(hi);
    FromBigEight(hi, a, b, c, d);
    FixedReads(h, hi + [a, b, c, d], rest);
  }

  lemma WordBounded(bytes: seq<byte>)
    requires |bytes| == 4
    ensures FromBig(bytes) < 0x1_0000_0000
  {
    hide FromBig, Pow256;
    BigBounded(bytes);
    Powers();
  }

  /** Each reader takes one major type only. */
  lemma ReadersCheckTheType(raw: seq<byte>)
    ensures ReadUint(raw).Good? ==> raw[0] / 32 == 0
    ensures ReadText(raw).Good? ==> raw[0] / 32 == 3
    ensures ReadArrayLen(raw).Good? ==> raw[0] / 32 == 4
    ensures ReadHead(raw).Good? && raw[0] / 32 != 0 ==> ReadUint(raw) == Bad(WrongType(raw[0] / 32))
    ensures ReadHead(raw).Good? && raw[0] / 32 != 3 ==> ReadText(raw) == Bad(WrongType(raw[0] / 32))
    ensures ReadHead(raw).Good? && raw[0] / 32 != 4 ==> ReadArrayLen(raw) == Bad(WrongType(raw[0] / 32))
  {
  }

  // ----------------------------------------------------------------- messages

  /** A list head and its strings. */
  function RuleList(rules: seq<Str>): seq<byte> {
    Head(4, |rules| % 0x1_0000_0000_0000_0000) + RuleTexts(rules)
  }

  function RuleTexts(rules: seq<Str>): seq<byte> {
    if rules == [] then [] else (Head(3, |rules[0]|) + rules[0]) + RuleTexts(rules[1..])
  }

  lemma {:induction false} RuleTextsAre(rules: seq<Str>)
    ensures Texts(rules) == RuleTexts(rules)
  {
    hide Head;
    if rules != [] {
      RuleTextsAre(rules[1..]);
    }
  }

  lemma CountHeads()
    ensures ArrayHead(15) == [0x8f] && ArrayHead(6) == [0x86]
  {
  }

  /** An event is a head for fifteen items and the items in this order. */
  lemma EventLayout(e: PaymentEvents.PaymentEvent)
    ensures CborEvents.Encode(e) == Concat([
      [0x8f],
      Head(3, |e.eventId|) + e.eventId,
      Head(3, |e.eventType|) + e.eventType,
      Head(3, |e.tenantId|) + e.tenantId,
      Head(3, |e.accountId|) + e.accountId,
      Head(3, |e.transferId|) + e.transferId,
      Head(3, |e.correlationId|) + e.correlationId,
      Head(0, Low64(e.occurredAt)),
      Head(0, Low64(e.amountCents)),
      Head(3, |e.currency|) + e.currency,
      Head(3, |e.receiverKeyType|) + e.receiverKeyType,
      Head(3, |e.decisionReason|) + e.decisionReason,
      Head(3, |e.spiMessageId|) + e.spiMessageId,
      Head(3, |e.endToEndId|) + e.endToEndId,
      Head(0, Low64(e.fraudScore)),
      RuleList(e.fraudRules)])
  {
    CountHeads();
    RuleTextsAre(e.fraudRules);
    assert Low64(e.occurredAt) == ToUnsigned(e.occurredAt);
    assert Low64(e.amountCents) == ToUnsigned(e.amountCents);
    assert Low64(e.fraudScore) == ToUnsigned(e.fraudScore);
    hide Head, Concat, Texts, RuleTexts, ToUnsigned, Low64;
  }

  lemma ProfileLayout(e: Profiles.Profile)
    ensures CborProfiles.Encode(e) == Concat([
      [0x86],
      Head(3, |e.receiverId|) + e.receiverId,
      Head(3, |e.bankIspb|) + e.bankIspb,
      Head(3, |e.name|) + e.name,
      Head(0, Low64(e.riskSignal)),
      Head(0, Low64(e.resolvedAt)),
      Head(0, Low64(e.expiresAt))])
  {
    CountHeads();
    assert Low64(e.riskSignal) == ToUnsigned(e.riskSignal);
    assert Low64(e.resolvedAt) == ToUnsigned(e.resolvedAt);
    assert Low64(e.expiresAt) == ToUnsigned(e.expiresAt);
    hide Head, Concat, ToUnsigned, Low64;
  }

  /** Nothing but an array of that many items is accepted. */
  lemma OtherCountsAreRefused(raw: seq<byte>)
    requires ReadArrayLen(raw).Good?
    ensures ReadArrayLen(raw).value != 15 ==> CborEvents.Decode(raw) == Err(WrongFieldCount(ReadArrayLen(raw).value))
    ensures ReadArrayLen(raw).value != 6 ==> CborProfiles.Decode(raw) == Err(WrongFieldCount(ReadArrayLen(raw).value))
  {
    hide ReadArrayLen, CborEvents.Fields, CborProfiles.Fields;
  }
}
