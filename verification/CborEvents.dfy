/** Payment events as a CBOR array of fifteen items. */
module CborEvents {
  import opened Wrappers
  import opened Int64
  import opened Bytes
  import opened PaymentEvents
  import opened Cbor

  /** The items of an encoded event, the array head first. */
  function Parts(e: PaymentEvent): seq<seq<byte>> {
    [ ArrayHead(FIELD_COUNT),
      Text(e.eventId),
      Text(e.eventType),
      Text(e.tenantId),
      Text(e.accountId),
      Text(e.transferId),
      Text(e.correlationId),
      Head(UINT, ToUnsigned(e.occurredAt)),
      Head(UINT, ToUnsigned(e.amountCents)),
      Text(e.currency),
      Text(e.receiverKeyType),
      Text(e.decisionReason),
      Text(e.spiMessageId),
      Text(e.endToEndId),
      Head(UINT, ToUnsigned(e.fraudScore)),
      TextArray(e.fraudRules) ]
  }

  function Encode(e: PaymentEvent): seq<byte> {
    Concat(Parts(e))
  }

  function Fields(raw: seq<byte>): Parsed<PaymentEvent> {
    var (eventId, r1) :- ReadText(raw);
    var (eventType, r2) :- ReadText(r1);
    var (tenantId, r3) :- ReadText(r2);
    var (accountId, r4) :- ReadText(r3);
    var (transferId, r5) :- ReadText(r4);
    var (correlationId, r6) :- ReadText(r5);
    var (occurredAt, r7) :- ReadUint(r6);
    var (amountCents, r8) :- ReadUint(r7);
    var (currency, r9) :- ReadText(r8);
    var (receiverKeyType, r10) :- ReadText(r9);
    var (decisionReason, r11) :- ReadText(r10);
    var (spiMessageId, r12) :- ReadText(r11);
    var (endToEndId, r13) :- ReadText(r12);
    var (fraudScore, r14) :- ReadUint(r13);
    var (fraudRules, r15) :- ReadTextArray(r14);
    Good(PaymentEvent(
      eventId, eventType, tenantId, accountId, transferId, correlationId, ToSigned(occurredAt),
      ToSigned(amountCents), currency, receiverKeyType, decisionReason, spiMessageId, endToEndId,
      ToSigned(fraudScore), fraudRules), r15)
  }

  function Whole(raw: seq<byte>): Parsed<PaymentEvent> {
    var (count, rest) :- ReadArrayLen(raw);
    if count != FIELD_COUNT then Bad(WrongFieldCount(count)) else Fields(rest)
  }

  function Decode(raw: seq<byte>): Result<PaymentEvent, DecodeError> {
    match Whole(raw)
    case Bad(error) => Err(error)
    case Good(e, rest) => if rest != [] then Err(TrailingBytes(|rest|)) else Ok(e)
  }

  // ---------------------------------------------------------------- methods

  method Marshal(e: PaymentEvent) returns (out: seq<byte>)
    ensures out == Encode(e)
  {
    hide Head, ArrayHead, Text, Texts, Concat;
    out := ArrayHead(FIELD_COUNT);
    out := out + Text(e.eventId);
    out := out + Text(e.eventType);
    out := out + Text(e.tenantId);
    out := out + Text(e.accountId);
    out := out + Text(e.transferId);
    out := out + Text(e.correlationId);
    out := out + Head(UINT, ToUnsigned(e.occurredAt));
    out := out + Head(UINT, ToUnsigned(e.amountCents));
    out := out + Text(e.currency);
    out := out + Text(e.receiverKeyType);
    out := out + Text(e.decisionReason);
    out := out + Text(e.spiMessageId);
    out := out + Text(e.endToEndId);
    out := out + Head(UINT, ToUnsigned(e.fraudScore));
    ghost var before := out;
    out := out + ArrayHead(|e.fraudRules|);
    var i := 0;
    assert out == before + (ArrayHead(|e.fraudRules|) + Texts(e.fraudRules[..0])) by { TextsNone(e.fraudRules[..0]); }
    while i < |e.fraudRules|
      invariant 0 <= i <= |e.fraudRules|
      invariant out == before + (ArrayHead(|e.fraudRules|) + Texts(e.fraudRules[..i]))
    {
      assert e.fraudRules[..i + 1] == e.fraudRules[..i] + [e.fraudRules[i]];
      TextsSnoc(e.fraudRules[..i], e.fraudRules[i]);
      out := out + Text(e.fraudRules[i]);
      i := i + 1;
    }
    assert e.fraudRules[..i] == e.fraudRules;
    assert Upto(Parts(e), 16) == Encode(e) by {
      assert Parts(e)[..16] == Parts(e);
    }
    FifteenParts(Parts(e));
    UptoStep(Parts(e), 15);
  }

  method Unmarshal(raw: seq<byte>) returns (r: Result<PaymentEvent, DecodeError>)
    ensures r == Decode(raw)
  {
    hide ReadUint, ReadText, ReadTextArray, ReadArrayLen;
    var reader := new Reader(raw);
    var count := reader.ArrayLen();
    if count.Err? {
      return Err(count.error);
    }
    if count.value != FIELD_COUNT {
      return Err(WrongFieldCount(count.value));
    }
    var eventId := reader.Text();
    if eventId.Err? {
      return Err(eventId.error);
    }
    var eventType := reader.Text();
    if eventType.Err? {
      return Err(eventType.error);
    }
    var tenantId := reader.Text();
    if tenantId.Err? {
      return Err(tenantId.error);
    }
    var accountId := reader.Text();
    if accountId.Err? {
      return Err(accountId.error);
    }
    var transferId := reader.Text();
    if transferId.Err? {
      return Err(transferId.error);
    }
    var correlationId := reader.Text();
    if correlationId.Err? {
      return Err(correlationId.error);
    }
    var occurredAt := reader.Uint();
    if occurredAt.Err? {
      return Err(occurredAt.error);
    }
    var amountCents := reader.Uint();
    if amountCents.Err? {
      return Err(amountCents.error);
    }
    var currency := reader.Text();
    if currency.Err? {
      return Err(currency.error);
    }
    var receiverKeyType := reader.Text();
    if receiverKeyType.Err? {
      return Err(receiverKeyType.error);
    }
    var decisionReason := reader.Text();
    if decisionReason.Err? {
      return Err(decisionReason.error);
    }
    var spiMessageId := reader.Text();
    if spiMessageId.Err? {
      return Err(spiMessageId.error);
    }
    var endToEndId := reader.Text();
    if endToEndId.Err? {
      return Err(endToEndId.error);
    }
    var fraudScore := reader.Uint();
    if fraudScore.Err? {
      return Err(fraudScore.error);
    }
    var fraudRules := reader.TextArray();
    if fraudRules.Err? {
      return Err(fraudRules.error);
    }
    if |reader.raw| != 0 {
      return Err(TrailingBytes(|reader.raw|));
    }
    r := Ok(PaymentEvent(
      eventId.value, eventType.value, tenantId.value, accountId.value, transferId.value,
      correlationId.value, ToSigned(occurredAt.value), ToSigned(amountCents.value),
      currency.value, receiverKeyType.value, decisionReason.value, spiMessageId.value,
      endToEndId.value, ToSigned(fraudScore.value), fraudRules.value));
  }

  // ------------------------------------------------------------- round trip

  lemma FirstItems(e: PaymentEvent)
    requires |e.fraudRules| <= INT64_MAX
    ensures ReadText(From(Parts(e), 1)) == Good(e.eventId, From(Parts(e), 2))
    ensures ReadText(From(Parts(e), 2)) == Good(e.eventType, From(Parts(e), 3))
    ensures ReadText(From(Parts(e), 3)) == Good(e.tenantId, From(Parts(e), 4))
    ensures ReadText(From(Parts(e), 4)) == Good(e.accountId, From(Parts(e), 5))
    ensures ReadText(From(Parts(e), 5)) == Good(e.transferId, From(Parts(e), 6))
    ensures ReadText(From(Parts(e), 6)) == Good(e.correlationId, From(Parts(e), 7))
    ensures ReadUint(From(Parts(e), 7)) == Good(ToUnsigned(e.occurredAt), From(Parts(e), 8))
    ensures ReadUint(From(Parts(e), 8)) == Good(ToUnsigned(e.amountCents), From(Parts(e), 9))
  {
    hide Head, ArrayHead, Text, TextArray, From, ReadUint, ReadText, ReadTextArray;
    var p := Parts(e);
    FromStep(p, 1);
    TextRoundTrip(e.eventId, From(p, 2));
    FromStep(p, 2);
    TextRoundTrip(e.eventType, From(p, 3));
    FromStep(p, 3);
    TextRoundTrip(e.tenantId, From(p, 4));
    FromStep(p, 4);
    TextRoundTrip(e.accountId, From(p, 5));
    FromStep(p, 5);
    TextRoundTrip(e.transferId, From(p, 6));
    FromStep(p, 6);
    TextRoundTrip(e.correlationId, From(p, 7));
    FromStep(p, 7);
    UintRoundTrip(ToUnsigned(e.occurredAt), From(p, 8));
    FromStep(p, 8);
    UintRoundTrip(ToUnsigned(e.amountCents), From(p, 9));
  }

  lemma LastItems(e: PaymentEvent)
    requires |e.fraudRules| <= INT64_MAX
    ensures ReadText(From(Parts(e), 9)) == Good(e.currency, From(Parts(e), 10))
    ensures ReadText(From(Parts(e), 10)) == Good(e.receiverKeyType, From(Parts(e), 11))
    ensures ReadText(From(Parts(e), 11)) == Good(e.decisionReason, From(Parts(e), 12))
    ensures ReadText(From(Parts(e), 12)) == Good(e.spiMessageId, From(Parts(e), 13))
    ensures ReadText(From(Parts(e), 13)) == Good(e.endToEndId, From(Parts(e), 14))
    ensures ReadUint(From(Parts(e), 14)) == Good(ToUnsigned(e.fraudScore), From(Parts(e), 15))
    ensures ReadTextArray(From(Parts(e), 15)) == Good(e.fraudRules, From(Parts(e), 16))
  {
    hide Head, ArrayHead, Text, TextArray, From, ReadUint, ReadText, ReadTextArray;
    var p := Parts(e);
    FromStep(p, 9);
    TextRoundTrip(e.currency, From(p, 10));
    FromStep(p, 10);
    TextRoundTrip(e.receiverKeyType, From(p, 11));
    FromStep(p, 11);
    TextRoundTrip(e.decisionReason, From(p, 12));
    FromStep(p, 12);
    TextRoundTrip(e.spiMessageId, From(p, 13));
    FromStep(p, 13);
    TextRoundTrip(e.endToEndId, From(p, 14));
    FromStep(p, 14);
    UintRoundTrip(ToUnsigned(e.fraudScore), From(p, 15));
    FromStep(p, 15);
    TextArrayRoundTrip(e.fraudRules, From(p, 16));
  }

  lemma FieldsAre(e: PaymentEvent, p: seq<seq<byte>>)
    requires |p| == 16
    requires ReadText(From(p, 1)) == Good(e.eventId, From(p, 2))
    requires ReadText(From(p, 2)) == Good(e.eventType, From(p, 3))
    requires ReadText(From(p, 3)) == Good(e.tenantId, From(p, 4))
    requires ReadText(From(p, 4)) == Good(e.accountId, From(p, 5))
    requires ReadText(From(p, 5)) == Good(e.transferId, From(p, 6))
    requires ReadText(From(p, 6)) == Good(e.correlationId, From(p, 7))
    requires ReadUint(From(p, 7)) == Good(ToUnsigned(e.occurredAt), From(p, 8))
    requires ReadUint(From(p, 8)) == Good(ToUnsigned(e.amountCents), From(p, 9))
    requires ReadText(From(p, 9)) == Good(e.currency, From(p, 10))
    requires ReadText(From(p, 10)) == Good(e.receiverKeyType, From(p, 11))
    requires ReadText(From(p, 11)) == Good(e.decisionReason, From(p, 12))
    requires ReadText(From(p, 12)) == Good(e.spiMessageId, From(p, 13))
    requires ReadText(From(p, 13)) == Good(e.endToEndId, From(p, 14))
    requires ReadUint(From(p, 14)) == Good(ToUnsigned(e.fraudScore), From(p, 15))
    requires ReadTextArray(From(p, 15)) == Good(e.fraudRules, From(p, 16))
    ensures Fields(From(p, 1)) == Good(e, From(p, 16))
  {
    hide ReadUint, ReadText, ReadTextArray, From, ToSigned, ToUnsigned;
    SignedRoundTrip(e.occurredAt);
    SignedRoundTrip(e.amountCents);
    SignedRoundTrip(e.fraudScore);
  }

  lemma FieldsRoundTrip(e: PaymentEvent)
    requires |e.fraudRules| <= INT64_MAX
    ensures Fields(From(Parts(e), 1)) == Good(e, [])
  {
    var p := Parts(e);
    assert From(p, 16) == [] by { assert p[16..] == []; }
    FirstItems(e);
    LastItems(e);
    hide Fields, From, ReadUint, ReadText, ReadTextArray, Head, ArrayHead, Text, TextArray;
    FieldsAre(e, p);
  }

  /** Every event survives, negative numbers included; a list of the source has no more than `INT64_MAX`
      elements. */
  lemma RoundTrip(e: PaymentEvent)
    requires |e.fraudRules| <= INT64_MAX
    ensures Decode(Encode(e)) == Ok(e)
  {
    var p := Parts(e);
    assert From(p, 0) == Encode(e) by { assert p[0..] == p; }
    FieldsRoundTrip(e);
    assert p[0] == ArrayHead(FIELD_COUNT);
    hide ArrayHead, ReadArrayLen, Fields, From, Parts;
    FromStep(p, 0);
    ArrayHeadRoundTrip(FIELD_COUNT, From(p, 1));
  }

  // ------------------------------------------------------------ self-delimiting

  lemma FieldsExtend(raw: seq<byte>, more: seq<byte>)
    ensures Extends(Fields(raw), Fields(raw + more), more)
  {
    hide ReadUint, ReadText, ReadTextArray;
    TextExtends(raw, more);
    var p1 := ReadText(raw);
    if p1.Bad? {
      return;
    }
    TextExtends(p1.rest, more);
    var p2 := ReadText(p1.rest);
    if p2.Bad? {
      return;
    }
    TextExtends(p2.rest, more);
    var p3 := ReadText(p2.rest);
    if p3.Bad? {
      return;
    }
    TextExtends(p3.rest, more);
    var p4 := ReadText(p3.rest);
    if p4.Bad? {
      return;
    }
    TextExtends(p4.rest, more);
    var p5 := ReadText(p4.rest);
    if p5.Bad? {
      return;
    }
    TextExtends(p5.rest, more);
    var p6 := ReadText(p5.rest);
    if p6.Bad? {
      return;
    }
    UintExtends(p6.rest, more);
    var p7 := ReadUint(p6.rest);
    if p7.Bad? {
      return;
    }
    UintExtends(p7.rest, more);
    var p8 := ReadUint(p7.rest);
    if p8.Bad? {
      return;
    }
    TextExtends(p8.rest, more);
    var p9 := ReadText(p8.rest);
    if p9.Bad? {
      return;
    }
    TextExtends(p9.rest, more);
    var p10 := ReadText(p9.rest);
    if p10.Bad? {
      return;
    }
    TextExtends(p10.rest, more);
    var p11 := ReadText(p10.rest);
    if p11.Bad? {
      return;
    }
    TextExtends(p11.rest, more);
    var p12 := ReadText(p11.rest);
    if p12.Bad? {
      return;
    }
    TextExtends(p12.rest, more);
    var p13 := ReadText(p12.rest);
    if p13.Bad? {
      return;
    }
    UintExtends(p13.rest, more);
    var p14 := ReadUint(p13.rest);
    if p14.Bad? {
      return;
    }
    TextArrayExtends(p14.rest, more);
  }

  lemma WholeExtends(raw: seq<byte>, more: seq<byte>)
    ensures Extends(Whole(raw), Whole(raw + more), more)
  {
    hide ReadArrayLen, Fields;
    ArrayLenExtends(raw, more);
    if ReadArrayLen(raw).Good? {
      FieldsExtend(ReadArrayLen(raw).rest, more);
    }
  }

  /** Whatever is added to an accepted encoding is reported as trailing bytes. */
  lemma ExtensionRejected(raw: seq<byte>, more: seq<byte>)
    requires Decode(raw).Ok? && more != []
    ensures Decode(raw + more) == Err(TrailingBytes(|more|))
  {
    hide Whole;
    WholeExtends(raw, more);
    assert [] + more == more;
  }

  /** Whatever is cut off an accepted encoding is reported as input that ended too soon. */
  lemma PrefixRejected(raw: seq<byte>, k: nat)
    requires Decode(raw).Ok? && k < |raw|
    ensures Decode(raw[..k]) == Err(UnexpectedEof)
  {
    hide Whole;
    WholeExtends(raw[..k], raw[k..]);
    assert raw[..k] + raw[k..] == raw;
  }

  // --------------------------------------------------------------- shortest

  lemma FieldsAreShortest(raw: seq<byte>)
    requires Fields(raw).Good?
    ensures Shortest(raw, From(Parts(Fields(raw).value), 1), Fields(raw).rest)
  {
    hide Head, ArrayHead, Text, TextArray, ReadUint, ReadText, ReadTextArray, From, Shortest;
    var e, rest := Fields(raw).value, Fields(raw).rest;
    var p := Parts(e);
    var p1 := ReadText(raw);
    var p2 := ReadText(p1.rest);
    var p3 := ReadText(p2.rest);
    var p4 := ReadText(p3.rest);
    var p5 := ReadText(p4.rest);
    var p6 := ReadText(p5.rest);
    var p7 := ReadUint(p6.rest);
    var p8 := ReadUint(p7.rest);
    var p9 := ReadText(p8.rest);
    var p10 := ReadText(p9.rest);
    var p11 := ReadText(p10.rest);
    var p12 := ReadText(p11.rest);
    var p13 := ReadText(p12.rest);
    var p14 := ReadUint(p13.rest);
    var p15 := ReadTextArray(p14.rest);
    ShortestNone(p, rest);
    TextArrayIsShortest(p14.rest);
    ShortestPrepend(p, 15, p14.rest, p15.rest, rest);
    UnsignedRoundTrip(p14.value);
    UintIsShortest(p13.rest);
    ShortestPrepend(p, 14, p13.rest, p14.rest, rest);
    TextIsShortest(p12.rest);
    ShortestPrepend(p, 13, p12.rest, p13.rest, rest);
    TextIsShortest(p11.rest);
    ShortestPrepend(p, 12, p11.rest, p12.rest, rest);
    TextIsShortest(p10.rest);
    ShortestPrepend(p, 11, p10.rest, p11.rest, rest);
    TextIsShortest(p9.rest);
    ShortestPrepend(p, 10, p9.rest, p10.rest, rest);
    TextIsShortest(p8.rest);
    ShortestPrepend(p, 9, p8.rest, p9.rest, rest);
    UnsignedRoundTrip(p8.value);
    UintIsShortest(p7.rest);
    ShortestPrepend(p, 8, p7.rest, p8.rest, rest);
    UnsignedRoundTrip(p7.value);
    UintIsShortest(p6.rest);
    ShortestPrepend(p, 7, p6.rest, p7.rest, rest);
    TextIsShortest(p5.rest);
    ShortestPrepend(p, 6, p5.rest, p6.rest, rest);
    TextIsShortest(p4.rest);
    ShortestPrepend(p, 5, p4.rest, p5.rest, rest);
    TextIsShortest(p3.rest);
    ShortestPrepend(p, 4, p3.rest, p4.rest, rest);
    TextIsShortest(p2.rest);
    ShortestPrepend(p, 3, p2.rest, p3.rest, rest);
    TextIsShortest(p1.rest);
    ShortestPrepend(p, 2, p1.rest, p2.rest, rest);
    TextIsShortest(raw);
    ShortestPrepend(p, 1, raw, p1.rest, rest);
  }

  /** Of all the byte strings that decode to an event, the writer's is the shortest,
      and the only one of its length. */
  lemma EncodingIsShortest(raw: seq<byte>)
    requires Decode(raw).Ok?
    ensures |Encode(Decode(raw).value)| <= |raw|
    ensures |Encode(Decode(raw).value)| == |raw| ==> raw == Encode(Decode(raw).value)
  {
    hide ArrayHead, Fields, ReadArrayLen;
    var p := ReadArrayLen(raw);
    var parts := Parts(Decode(raw).value);
    FieldsAreShortest(p.rest);
    ArrayHeadIsShortest(raw);
    ShortestPrepend(parts, 0, raw, p.rest, []);
    assert parts[0..] == parts;
    assert Encode(Decode(raw).value) + [] == Encode(Decode(raw).value);
  }
}
