/** The bytes of a payment event on the wire, with every tag written out: what the writer puts
    down and what the reader makes of it, each on its own. */
module ProtoLayout {
  import opened Wrappers
  import opened Int64
  import opened Bytes
  import opened PaymentEvents
  import opened ProtoWire
  import opened ProtoEvents

  /** A tag, a length and the bytes; nothing for the empty string. */
  function TextBytes(tag: byte, s: Str): seq<byte> {
    if s == [] then [] else [tag] + Varint(|s|) + s
  }

  /** A tag and the value modulo 2^64; nothing for zero. */
  function NumberBytes(tag: byte, v: int64): seq<byte> {
    if v == 0 then [] else [tag] + Varint(v % 0x1_0000_0000_0000_0000)
  }

  function RuleBytes(rules: seq<Str>): seq<byte> {
    if rules == [] then [] else TextBytes(0x7a, rules[0]) + RuleBytes(rules[1..])
  }

  lemma OneByteTags(n: nat)
    requires n <= 15
    ensures Varint(8 * n + 2) == [8 * n + 2] && Varint(8 * n) == [8 * n]
  {
  }

  lemma TextFieldIs(n: nat, s: Str)
    requires n <= 15
    ensures TextField(n, s) == TextBytes(8 * n + 2, s)
  {
    OneByteTags(n);
    hide Varint;
  }

  lemma NumberFieldIs(n: nat, v: int64)
    requires n <= 15
    ensures NumberField(n, v) == NumberBytes(8 * n, v)
  {
    OneByteTags(n);
    hide Varint;
    assert ToUnsigned(v) == v % 0x1_0000_0000_0000_0000;
  }

  lemma {:induction false} RuleFieldsAre(rules: seq<Str>)
    ensures RuleFields(rules) == RuleBytes(rules)
  {
    if rules != [] {
      TextFieldIs(15, rules[0]);
      hide TextField, TextBytes;
      RuleFieldsAre(rules[1..]);
    }
  }

  /** What the writer puts down for an event, part by part. */
  lemma WriterLayout(e: PaymentEvent)
    ensures Encode(e) == Concat([
      TextBytes(0x0a, e.eventId),
      TextBytes(0x12, e.eventType),
      TextBytes(0x1a, e.tenantId),
      TextBytes(0x22, e.accountId),
      TextBytes(0x2a, e.transferId),
      TextBytes(0x32, e.correlationId),
      NumberBytes(0x38, e.occurredAt),
      NumberBytes(0x40, e.amountCents),
      TextBytes(0x4a, e.currency),
      TextBytes(0x52, e.receiverKeyType),
      TextBytes(0x5a, e.decisionReason),
      TextBytes(0x62, e.spiMessageId),
      TextBytes(0x6a, e.endToEndId),
      NumberBytes(0x70, e.fraudScore),
      RuleBytes(e.fraudRules)])
  {
    hide TextField, NumberField, TextBytes, NumberBytes, RuleFields, RuleBytes, Concat;
    TextFieldIs(1, e.eventId);
    TextFieldIs(2, e.eventType);
    TextFieldIs(3, e.tenantId);
    TextFieldIs(4, e.accountId);
    TextFieldIs(5, e.transferId);
    TextFieldIs(6, e.correlationId);
    NumberFieldIs(7, e.occurredAt);
    NumberFieldIs(8, e.amountCents);
    TextFieldIs(9, e.currency);
    TextFieldIs(10, e.receiverKeyType);
    TextFieldIs(11, e.decisionReason);
    TextFieldIs(12, e.spiMessageId);
    TextFieldIs(13, e.endToEndId);
    NumberFieldIs(14, e.fraudScore);
    RuleFieldsAre(e.fraudRules);
  }

  // ------------------------------------------------------------------ reading

  /** A text field under any number, empty text included. */
  lemma TextRead(n: nat, s: Str, rest: seq<byte>, e: PaymentEvent)
    requires 8 * n + 2 < INT64_SPAN
    ensures Resume(Varint(8 * n + 2) + Varint(|s|) + s + rest, e) == Resume(rest, Put(e, Text(n, s)))
  {
    hide Varint, ReadVarint, Put;
    var tail := s + rest;
    var mid := Varint(|s|) + tail;
    var raw := Varint(8 * n + 2) + Varint(|s|) + s + rest;
    assert raw == Varint(8 * n + 2) + mid;
    VarintRoundTrip(8 * n + 2, mid);
    VarintRoundTrip(|s|, tail);
    assert tail[..|s|] == s && tail[|s|..] == rest;
    assert ReadField(raw) == Good(Text(n, s), rest);
  }

  lemma NumberRead(n: nat, v: uint64, rest: seq<byte>, e: PaymentEvent)
    requires 8 * n < INT64_SPAN
    ensures Resume(Varint(8 * n) + Varint(v) + rest, e) == Resume(rest, Put(e, Number(n, v)))
  {
    hide Varint, ReadVarint, Put;
    var mid := Varint(v) + rest;
    var raw := Varint(8 * n) + Varint(v) + rest;
    assert raw == Varint(8 * n) + mid;
    VarintRoundTrip(8 * n, mid);
    VarintRoundTrip(v, rest);
    assert ReadField(raw) == Good(Number(n, v), rest);
  }

  lemma TextTagRead(tag: byte, n: nat, s: Str, rest: seq<byte>, e: PaymentEvent)
    requires n <= 15 && tag == 8 * n + 2
    ensures Resume([tag] + Varint(|s|) + s + rest, e) == Resume(rest, Put(e, Text(n, s)))
  {
    OneByteTags(n);
    hide Varint, Resume, Put;
    TextRead(n, s, rest, e);
  }

  lemma NumberTagRead(tag: byte, n: nat, v: uint64, rest: seq<byte>, e: PaymentEvent)
    requires n <= 15 && tag == 8 * n
    ensures Resume([tag] + Varint(v) + rest, e) == Resume(rest, Put(e, Number(n, v)))
  {
    OneByteTags(n);
    hide Varint, Resume, Put;
    NumberRead(n, v, rest, e);
  }

  lemma IdentityPuts(e: PaymentEvent, s: Str)
    ensures Put(e, Text(1, s)) == e.(eventId := s)
    ensures Put(e, Text(2, s)) == e.(eventType := s)
    ensures Put(e, Text(3, s)) == e.(tenantId := s)
    ensures Put(e, Text(4, s)) == e.(accountId := s)
    ensures Put(e, Text(5, s)) == e.(transferId := s)
    ensures Put(e, Text(6, s)) == e.(correlationId := s)
  {
  }

  lemma DetailPuts(e: PaymentEvent, s: Str)
    ensures Put(e, Text(9, s)) == e.(currency := s)
    ensures Put(e, Text(10, s)) == e.(receiverKeyType := s)
    ensures Put(e, Text(11, s)) == e.(decisionReason := s)
    ensures Put(e, Text(12, s)) == e.(spiMessageId := s)
    ensures Put(e, Text(13, s)) == e.(endToEndId := s)
    ensures Put(e, Text(15, s)) == e.(fraudRules := e.fraudRules + [s])
  {
  }

  /** Which tag sets which of the identifying texts. */
  lemma IdentityTags(s: Str, rest: seq<byte>, e: PaymentEvent)
    ensures Resume([0x0a] + Varint(|s|) + s + rest, e) == Resume(rest, e.(eventId := s))
    ensures Resume([0x12] + Varint(|s|) + s + rest, e) == Resume(rest, e.(eventType := s))
    ensures Resume([0x1a] + Varint(|s|) + s + rest, e) == Resume(rest, e.(tenantId := s))
    ensures Resume([0x22] + Varint(|s|) + s + rest, e) == Resume(rest, e.(accountId := s))
    ensures Resume([0x2a] + Varint(|s|) + s + rest, e) == Resume(rest, e.(transferId := s))
    ensures Resume([0x32] + Varint(|s|) + s + rest, e) == Resume(rest, e.(correlationId := s))
  {
    IdentityPuts(e, s);
    hide Varint, Resume, Put;
    TextTagRead(0x0a, 1, s, rest, e);
    TextTagRead(0x12, 2, s, rest, e);
    TextTagRead(0x1a, 3, s, rest, e);
    TextTagRead(0x22, 4, s, rest, e);
    TextTagRead(0x2a, 5, s, rest, e);
    TextTagRead(0x32, 6, s, rest, e);
  }

  /** Which tag sets which of the other texts; the last one adds a rule. */
  lemma DetailTags(s: Str, rest: seq<byte>, e: PaymentEvent)
    ensures Resume([0x4a] + Varint(|s|) + s + rest, e) == Resume(rest, e.(currency := s))
    ensures Resume([0x52] + Varint(|s|) + s + rest, e) == Resume(rest, e.(receiverKeyType := s))
    ensures Resume([0x5a] + Varint(|s|) + s + rest, e) == Resume(rest, e.(decisionReason := s))
    ensures Resume([0x62] + Varint(|s|) + s + rest, e) == Resume(rest, e.(spiMessageId := s))
    ensures Resume([0x6a] + Varint(|s|) + s + rest, e) == Resume(rest, e.(endToEndId := s))
    ensures Resume([0x7a] + Varint(|s|) + s + rest, e) == Resume(rest, e.(fraudRules := e.fraudRules + [s]))
  {
    DetailPuts(e, s);
    hide Varint, Resume, Put;
    TextTagRead(0x4a, 9, s, rest, e);
    TextTagRead(0x52, 10, s, rest, e);
    TextTagRead(0x5a, 11, s, rest, e);
    TextTagRead(0x62, 12, s, rest, e);
    TextTagRead(0x6a, 13, s, rest, e);
    TextTagRead(0x7a, 15, s, rest, e);
  }

  lemma NumberPuts(e: PaymentEvent, u: uint64)
    ensures Put(e, Number(7, u)) == e.(occurredAt := ToSigned(u))
    ensures Put(e, Number(8, u)) == e.(amountCents := ToSigned(u))
    ensures Put(e, Number(14, u)) == e.(fraudScore := ToSigned(u))
  {
    hide ToSigned;
  }

  /** Which tag sets which number, read as a signed 64-bit one. */
  lemma NumberTags(v: int64, rest: seq<byte>, e: PaymentEvent)
    ensures Resume([0x38] + Varint(v % 0x1_0000_0000_0000_0000) + rest, e) == Resume(rest, e.(occurredAt := v))
    ensures Resume([0x40] + Varint(v % 0x1_0000_0000_0000_0000) + rest, e) == Resume(rest, e.(amountCents := v))
    ensures Resume([0x70] + Varint(v % 0x1_0000_0000_0000_0000) + rest, e) == Resume(rest, e.(fraudScore := v))
  {
    var u := v % 0x1_0000_0000_0000_0000;
    assert ToSigned(u) == v;
    NumberPuts(e, u);
    hide Varint, Resume, Put, ToSigned;
    NumberTagRead(0x38, 7, u, rest, e);
    NumberTagRead(0x40, 8, u, rest, e);
    NumberTagRead(0x70, 14, u, rest, e);
  }

  /** Fields under other numbers are read over, whatever they hold. */
  lemma UnknownFieldsAreDropped(n: nat, s: Str, v: uint64, rest: seq<byte>, e: PaymentEvent)
    requires 8 * n + 2 < INT64_SPAN
    ensures !(1 <= n <= 6 || 9 <= n <= 13 || n == 15) ==> Resume(Varint(8 * n + 2) + Varint(|s|) + s + rest, e) == Resume(rest, e)
    ensures n != 7 && n != 8 && n != 14 ==> Resume(Varint(8 * n) + Varint(v) + rest, e) == Resume(rest, e)
  {
    hide Varint, Resume;
    TextRead(n, s, rest, e);
    NumberRead(n, v, rest, e);
  }

  /** Any other wire type ends the decoding. */
  lemma OtherWireTypesAreRefused(key: uint64, rest: seq<byte>, e: PaymentEvent)
    requires key % 8 != 0 && key % 8 != 2
    ensures Resume(Varint(key) + rest, e) == Err(Unsupported(key % 8))
  {
    hide Varint, ReadVarint;
    VarintRoundTrip(key, rest);
    assert ReadField(Varint(key) + rest) == Bad(Unsupported(key % 8));
    VarintIsNotEmpty(key);
  }

  lemma VarintIsNotEmpty(v: nat)
    ensures Varint(v) != []
  {
  }
}
