/** Payment events as a MessagePack array of fifteen items. */
module MsgPackEvents {
  import opened Wrappers
  import opened Int64
  import opened Bytes
  import opened PaymentEvents
  import opened MsgPack

  /** The items of an encoded event, the array head first. */
  function Parts(e: PaymentEvent): seq<seq<byte>> {
    [ RecordHead(FIELD_COUNT),
      String(e.eventId),
      String(e.eventType),
      String(e.tenantId),
      String(e.accountId),
      String(e.transferId),
      String(e.correlationId),
      Int(e.occurredAt),
      Int(e.amountCents),
      String(e.currency),
      String(e.receiverKeyType),
      String(e.decisionReason),
      String(e.spiMessageId),
      String(e.endToEndId),
      Int(e.fraudScore),
      StringArray(e.fraudRules) ]
  }

  function Encode(e: PaymentEvent): seq<byte> {
    Concat(Parts(e))
  }

  function Fields(raw: seq<byte>): Parsed<PaymentEvent> {
    var (eventId, r1) :- ReadString(raw);
    var (eventType, r2) :- ReadString(r1);
    var (tenantId, r3) :- ReadString(r2);
    var (accountId, r4) :- ReadString(r3);
    var (transferId, r5) :- ReadString(r4);
    var (correlationId, r6) :- ReadString(r5);
    var (occurredAt, r7) :- ReadInt(r6);
    var (amountCents, r8) :- ReadInt(r7);
    var (currency, r9) :- ReadString(r8);
    var (receiverKeyType, r10) :- ReadString(r9);
    var (decisionReason, r11) :- ReadString(r10);
    var (spiMessageId, r12) :- ReadString(r11);
    var (endToEndId, r13) :- ReadString(r12);
    var (fraudScore, r14) :- ReadInt(r13);
    var (fraudRules, r15) :- ReadStringArray(r14);
    Good(PaymentEvent(
      eventId, eventType, tenantId, accountId, transferId, correlationId, occurredAt, amountCents,
      currency, receiverKeyType, decisionReason, spiMessageId, endToEndId, fraudScore, fraudRules), r15)
  }

  function Whole(raw: seq<byte>): Parsed<PaymentEvent> {
    var (count, rest) :- ReadArrayLen(raw);
    if count != FIELD_COUNT then Bad(WrongFieldCount(count)) else Fields(rest)
  }

  function Decode(raw: seq<byte>): Result<PaymentEvent, DecodeError> {
    match Whole(raw)
    case Bad(error) => Err(error)
    case Good(e, rest) => if rest != [] then Err(TrailingBytes(|rest|)) else Ok(e)
  }

  // ---------------------------------------------------------------- methods

  method Marshal(e: PaymentEvent) returns (out: seq<byte>)
    ensures out == Encode(e)
  {
    hide String, Int, StringArray, RecordHead, Concat;
    out := RecordHead(FIELD_COUNT);
    out := out + String(e.eventId);
    out := out + String(e.eventType);
    out := out + String(e.tenantId);
    out := out + String(e.accountId);
    out := out + String(e.transferId);
    out := out + String(e.correlationId);
    out := out + Int(e.occurredAt);
    out := out + Int(e.amountCents);
    out := out + String(e.currency);
    out := out + String(e.receiverKeyType);
    out := out + String(e.decisionReason);
    out := out + String(e.spiMessageId);
    out := out + String(e.endToEndId);
    out := out + Int(e.fraudScore);
    out := AppendStringArray(out, e.fraudRules);
    assert Upto(Parts(e), 16) == Encode(e) by {
      assert Parts(e)[..16] == Parts(e);
    }
    FifteenParts(Parts(e));
    UptoStep(Parts(e), 15);
  }

  method Unmarshal(raw: seq<byte>) returns (r: Result<PaymentEvent, DecodeError>)
    ensures r == Decode(raw)
  {
    hide ReadInt, ReadString, ReadStringArray, ReadArrayLen;
    var reader := new Reader(raw);
    var count := reader.ArrayLen();
    if count.Err? {
      return Err(count.error);
    }
    if count.value != FIELD_COUNT {
      return Err(WrongFieldCount(count.value));
    }
    var eventId := reader.String();
    if eventId.Err? {
      return Err(eventId.error);
    }
    var eventType := reader.String();
    if eventType.Err? {
      return Err(eventType.error);
    }
    var tenantId := reader.String();
    if tenantId.Err? {
      return Err(tenantId.error);
    }
    var accountId := reader.String();
    if accountId.Err? {
      return Err(accountId.error);
    }
    var transferId := reader.String();
    if transferId.Err? {
      return Err(transferId.error);
    }
    var correlationId := reader.String();
    if correlationId.Err? {
      return Err(correlationId.error);
    }
    var occurredAt := reader.Int();
    if occurredAt.Err? {
      return Err(occurredAt.error);
    }
    var amountCents := reader.Int();
    if amountCents.Err? {
      return Err(amountCents.error);
    }
    var currency := reader.String();
    if currency.Err? {
      return Err(currency.error);
    }
    var receiverKeyType := reader.String();
    if receiverKeyType.Err? {
      return Err(receiverKeyType.error);
    }
    var decisionReason := reader.String();
    if decisionReason.Err? {
      return Err(decisionReason.error);
    }
    var spiMessageId := reader.String();
    if spiMessageId.Err? {
      return Err(spiMessageId.error);
    }
    var endToEndId := reader.String();
    if endToEndId.Err? {
      return Err(endToEndId.error);
    }
    var fraudScore := reader.Int();
    if fraudScore.Err? {
      return Err(fraudScore.error);
    }
    var fraudRules := reader.StringArray();
    if fraudRules.Err? {
      return Err(fraudRules.error);
    }
    if |reader.raw| != 0 {
      return Err(TrailingBytes(|reader.raw|));
    }
    r := Ok(PaymentEvent(
      eventId.value, eventType.value, tenantId.value, accountId.value, transferId.value,
      correlationId.value, occurredAt.value, amountCents.value, currency.value,
      receiverKeyType.value, decisionReason.value, spiMessageId.value, endToEndId.value,
      fraudScore.value, fraudRules.value));
  }

  /** Every length fits in two bytes. */
  predicate Fits(e: PaymentEvent) {
    && |e.eventId| < SPAN16
    && |e.eventType| < SPAN16
    && |e.tenantId| < SPAN16
    && |e.accountId| < SPAN16
    && |e.transferId| < SPAN16
    && |e.correlationId| < SPAN16
    && |e.currency| < SPAN16
    && |e.receiverKeyType| < SPAN16
    && |e.decisionReason| < SPAN16
    && |e.spiMessageId| < SPAN16
    && |e.endToEndId| < SPAN16
    && |e.fraudRules| < SPAN16
    && AllShort(e.fraudRules)
  }

  // ------------------------------------------------------------- round trip

  lemma FirstItems(e: PaymentEvent)
    requires Fits(e)
    ensures ReadString(From(Parts(e), 1)) == Good(e.eventId, From(Parts(e), 2))
    ensures ReadString(From(Parts(e), 2)) == Good(e.eventType, From(Parts(e), 3))
    ensures ReadString(From(Parts(e), 3)) == Good(e.tenantId, From(Parts(e), 4))
    ensures ReadString(From(Parts(e), 4)) == Good(e.accountId, From(Parts(e), 5))
    ensures ReadString(From(Parts(e), 5)) == Good(e.transferId, From(Parts(e), 6))
    ensures ReadString(From(Parts(e), 6)) == Good(e.correlationId, From(Parts(e), 7))
    ensures ReadInt(From(Parts(e), 7)) == Good(e.occurredAt, From(Parts(e), 8))
    ensures ReadInt(From(Parts(e), 8)) == Good(e.amountCents, From(Parts(e), 9))
  {
    hide String, Int, StringArray, From, ReadInt, ReadString, ReadStringArray;
    var p := Parts(e);
    FromStep(p, 1);
    StringRoundTrip(e.eventId, From(p, 2));
    FromStep(p, 2);
    StringRoundTrip(e.eventType, From(p, 3));
    FromStep(p, 3);
    StringRoundTrip(e.tenantId, From(p, 4));
    FromStep(p, 4);
    StringRoundTrip(e.accountId, From(p, 5));
    FromStep(p, 5);
    StringRoundTrip(e.transferId, From(p, 6));
    FromStep(p, 6);
    StringRoundTrip(e.correlationId, From(p, 7));
    FromStep(p, 7);
    IntRoundTrip(e.occurredAt, From(p, 8));
    FromStep(p, 8);
    IntRoundTrip(e.amountCents, From(p, 9));
  }

  lemma LastItems(e: PaymentEvent)
    requires Fits(e)
    ensures ReadString(From(Parts(e), 9)) == Good(e.currency, From(Parts(e), 10))
    ensures ReadString(From(Parts(e), 10)) == Good(e.receiverKeyType, From(Parts(e), 11))
    ensures ReadString(From(Parts(e), 11)) == Good(e.decisionReason, From(Parts(e), 12))
    ensures ReadString(From(Parts(e), 12)) == Good(e.spiMessageId, From(Parts(e), 13))
    ensures ReadString(From(Parts(e), 13)) == Good(e.endToEndId, From(Parts(e), 14))
    ensures ReadInt(From(Parts(e), 14)) == Good(e.fraudScore, From(Parts(e), 15))
    ensures ReadStringArray(From(Parts(e), 15)) == Good(e.fraudRules, From(Parts(e), 16))
  {
    hide String, Int, StringArray, From, ReadInt, ReadString, ReadStringArray;
    var p := Parts(e);
    FromStep(p, 9);
    StringRoundTrip(e.currency, From(p, 10));
    FromStep(p, 10);
    StringRoundTrip(e.receiverKeyType, From(p, 11));
    FromStep(p, 11);
    StringRoundTrip(e.decisionReason, From(p, 12));
    FromStep(p, 12);
    StringRoundTrip(e.spiMessageId, From(p, 13));
    FromStep(p, 13);
    StringRoundTrip(e.endToEndId, From(p, 14));
    FromStep(p, 14);
    IntRoundTrip(e.fraudScore, From(p, 15));
    FromStep(p, 15);
    StringArrayRoundTrip(e.fraudRules, From(p, 16));
  }

  lemma FieldsAre(e: PaymentEvent, p: seq<seq<byte>>)
    requires |p| == 16
    requires ReadString(From(p, 1)) == Good(e.eventId, From(p, 2))
    requires ReadString(From(p, 2)) == Good(e.eventType, From(p, 3))
    requires ReadString(From(p, 3)) == Good(e.tenantId, From(p, 4))
    requires ReadString(From(p, 4)) == Good(e.accountId, From(p, 5))
    requires ReadString(From(p, 5)) == Good(e.transferId, From(p, 6))
    requires ReadString(From(p, 6)) == Good(e.correlationId, From(p, 7))
    requires ReadInt(From(p, 7)) == Good(e.occurredAt, From(p, 8))
    requires ReadInt(From(p, 8)) == Good(e.amountCents, From(p, 9))
    requires ReadString(From(p, 9)) == Good(e.currency, From(p, 10))
    requires ReadString(From(p, 10)) == Good(e.receiverKeyType, From(p, 11))
    requires ReadString(From(p, 11)) == Good(e.decisionReason, From(p, 12))
    requires ReadString(From(p, 12)) == Good(e.spiMessageId, From(p, 13))
    requires ReadString(From(p, 13)) == Good(e.endToEndId, From(p, 14))
    requires ReadInt(From(p, 14)) == Good(e.fraudScore, From(p, 15))
    requires ReadStringArray(From(p, 15)) == Good(e.fraudRules, From(p, 16))
    ensures Fields(From(p, 1)) == Good(e, From(p, 16))
  {
    hide ReadInt, ReadString, ReadStringArray, From;
  }

  lemma FieldsRoundTrip(e: PaymentEvent)
    requires Fits(e)
    ensures Fields(From(Parts(e), 1)) == Good(e, [])
  {
    var p := Parts(e);
    assert From(p, 16) == [] by { assert p[16..] == []; }
    FirstItems(e);
    LastItems(e);
    hide Fields, From, ReadInt, ReadString, ReadStringArray, String, Int, StringArray;
    FieldsAre(e, p);
  }

  lemma FittingRoundTrip(e: PaymentEvent)
    requires Fits(e)
    ensures Decode(Encode(e)) == Ok(e)
  {
    var p := Parts(e);
    assert From(p, 0) == Encode(e) by { assert p[0..] == p; }
    FieldsRoundTrip(e);
    assert p[0] == RecordHead(FIELD_COUNT);
    hide RecordHead, ReadArrayLen, Fields, From, Parts;
    FromStep(p, 0);
    RecordHeadRoundTrip(FIELD_COUNT, From(p, 1));
  }

  /** Whatever is decoded fits: no byte string stands for a longer field. */
  lemma DecodedFits(raw: seq<byte>)
    requires Decode(raw).Ok?
    ensures Fits(Decode(raw).value)
  {
    hide ReadInt, ReadString, ReadStringArray, ReadArrayLen, AllShort;
  }

  /** An event survives exactly when it fits. */
  lemma RoundTripIffFits(e: PaymentEvent)
    ensures Decode(Encode(e)) == Ok(e) <==> Fits(e)
  {
    hide Encode, Decode, Fits;
    if Fits(e) {
      FittingRoundTrip(e);
    }
    if Decode(Encode(e)) == Ok(e) {
      DecodedFits(Encode(e));
    }
  }

  /** An event that does not: the length of its first string reads as 0, and its bytes
      are taken for the head of the second. */
  lemma LongFieldIsLost(e: PaymentEvent)
    requires |e.eventId| == SPAN16 && e.eventId[0] == 0
    ensures Decode(Encode(e)) == Err(WrongType(0))
  {
    var p := Parts(e);
    assert From(p, 0) == Encode(e) by { assert p[0..] == p; }
    assert p[0] == RecordHead(FIELD_COUNT) && p[1] == String(e.eventId);
    hide From, Parts, String, RecordHead, Fields, Encode, ReadArrayLen;
    FromStep(p, 0);
    FromStep(p, 1);
    LongString(e.eventId, From(p, 2));
    LostHead(e.eventId + From(p, 2));
    RecordHeadRoundTrip(FIELD_COUNT, From(p, 1));
  }

  lemma LongString(s: Str, rest: seq<byte>)
    requires |s| == SPAN16
    ensures String(s) + rest == [0xda, 0, 0] + (s + rest)
  {
    SpanTruncated();
    hide ToBig;
    assert StringHead(|s|) == [0xda] + [0, 0];
    assert [0xda] + [0, 0] == [0xda, 0, 0];
  }

  lemma SpanTruncated()
    ensures ToBig(SPAN16, 2) == [0, 0]
  {
    assert ToBig(SPAN16, 2) == ToBig(256, 1) + [0];
    assert ToBig(256, 1) == ToBig(1, 0) + [0];
  }

  lemma LostHead(tail: seq<byte>)
    requires tail != [] && tail[0] == 0
    ensures Fields([0xda, 0, 0] + tail) == Bad(WrongType(0))
  {
    var raw := [0xda, 0, 0] + tail;
    assert raw[1..][..2] == [0, 0] && raw[1..][2..] == tail;
    assert FromBig([0, 0]) == 256 * FromBig([0, 0][..1]) + 0;
    assert [0, 0][..1] == [0];
    assert FromBig([0]) == 256 * FromBig([0][..0]) + 0;
    assert ReadString(raw) == Good([], tail) by {
      assert tail[0..] == tail;
    }
    assert ReadString(tail) == Bad(WrongType(0));
    hide ReadString, ReadInt, ReadStringArray;
  }

  // ------------------------------------------------------------ self-delimiting

  lemma FieldsExtend(raw: seq<byte>, more: seq<byte>)
    ensures Extends(Fields(raw), Fields(raw + more), more)
  {
    hide ReadInt, ReadString, ReadStringArray;
    StringExtends(raw, more);
    var p1 := ReadString(raw);
    if p1.Bad? {
      return;
    }
    StringExtends(p1.rest, more);
    var p2 := ReadString(p1.rest);
    if p2.Bad? {
      return;
    }
    StringExtends(p2.rest, more);
    var p3 := ReadString(p2.rest);
    if p3.Bad? {
      return;
    }
    StringExtends(p3.rest, more);
    var p4 := ReadString(p3.rest);
    if p4.Bad? {
      return;
    }
    StringExtends(p4.rest, more);
    var p5 := ReadString(p4.rest);
    if p5.Bad? {
      return;
    }
    StringExtends(p5.rest, more);
    var p6 := ReadString(p5.rest);
    if p6.Bad? {
      return;
    }
    IntExtends(p6.rest, more);
    var p7 := ReadInt(p6.rest);
    if p7.Bad? {
      return;
    }
    IntExtends(p7.rest, more);
    var p8 := ReadInt(p7.rest);
    if p8.Bad? {
      return;
    }
    StringExtends(p8.rest, more);
    var p9 := ReadString(p8.rest);
    if p9.Bad? {
      return;
    }
    StringExtends(p9.rest, more);
    var p10 := ReadString(p9.rest);
    if p10.Bad? {
      return;
    }
    StringExtends(p10.rest, more);
    var p11 := ReadString(p10.rest);
    if p11.Bad? {
      return;
    }
    StringExtends(p11.rest, more);
    var p12 := ReadString(p11.rest);
    if p12.Bad? {
      return;
    }
    StringExtends(p12.rest, more);
    var p13 := ReadString(p12.rest);
    if p13.Bad? {
      return;
    }
    IntExtends(p13.rest, more);
    var p14 := ReadInt(p13.rest);
    if p14.Bad? {
      return;
    }
    StringArrayExtends(p14.rest, more);
  }

  lemma WholeExtends(raw: seq<byte>, more: seq<byte>)
    ensures Extends(Whole(raw), Whole(raw + more), more)
  {
    hide ReadArrayLen, Fields;
    ArrayLenExtends(raw, more);
    if ReadArrayLen(raw).Good? {
      FieldsExtend(ReadArrayLen(raw).rest, more);
    }
  }

  /** Whatever is added to an accepted encoding is reported as trailing bytes. */
  lemma ExtensionRejected(raw: seq<byte>, more: seq<byte>)
    requires Decode(raw).Ok? && more != []
    ensures Decode(raw + more) == Err(TrailingBytes(|more|))
  {
    hide Whole;
    WholeExtends(raw, more);
    assert [] + more == more;
  }

  /** Whatever is cut off an accepted encoding is reported as input that ended too soon. */
  lemma PrefixRejected(raw: seq<byte>, k: nat)
    requires Decode(raw).Ok? && k < |raw|
    ensures Decode(raw[..k]) == Err(UnexpectedEof)
  {
    hide Whole;
    WholeExtends(raw[..k], raw[k..]);
    assert raw[..k] + raw[k..] == raw;
  }
}
