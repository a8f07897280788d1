/** Payment events as Protocol Buffers messages: fields in any order, the last value of a
    scalar wins, repeated values pile up ("Last One Wins" in the Protocol Buffers Encoding
    guide). */
module ProtoEvents {
  import opened Wrappers
  import opened Int64
  import opened Bytes
  import opened PaymentEvents
  import opened ProtoWire

  /** The event with every field at its default. */
  const ZERO: PaymentEvent := PaymentEvent([], [], [], [], [], [], 0, 0, [], [], [], [], [], 0, [])

  const RULES: nat := 15

  // ------------------------------------------------------------------ writing

  function TextField(n: nat, s: Str): seq<byte> {
    if s == [] then [] else Varint(8 * n + 2) + Varint(|s|) + s
  }

  function NumberField(n: nat, v: int64): seq<byte> {
    if v == 0 then [] else Varint(8 * n) + Varint(ToUnsigned(v))
  }

  function RuleFields(rules: seq<Str>): seq<byte> {
    if rules == [] then [] else TextField(RULES, rules[0]) + RuleFields(rules[1..])
  }

  function Parts(e: PaymentEvent): seq<seq<byte>> {
    [ TextField(1, e.eventId),
      TextField(2, e.eventType),
      TextField(3, e.tenantId),
      TextField(4, e.accountId),
      TextField(5, e.transferId),
      TextField(6, e.correlationId),
      NumberField(7, e.occurredAt),
      NumberField(8, e.amountCents),
      TextField(9, e.currency),
      TextField(10, e.receiverKeyType),
      TextField(11, e.decisionReason),
      TextField(12, e.spiMessageId),
      TextField(13, e.endToEndId),
      NumberField(14, e.fraudScore),
      RuleFields(e.fraudRules) ]
  }

  function Encode(e: PaymentEvent): seq<byte> {
    Concat(Parts(e))
  }

  // ------------------------------------------------------------------ reading

  datatype Field = Number(n: nat, value: uint64) | Text(n: nat, text: Str)

  function ReadString(raw: seq<byte>): (r: Parsed<Str>)
    ensures r.Good? ==> |r.rest| < |raw|
  {
    var (length, rest) :- ReadVarint(raw);
    if |rest| < length then Bad(UnexpectedEof)
    else if length > INT64_MAX then Bad(TooLarge)
    else Good(rest[..length], rest[length..])
  }

  function ReadField(raw: seq<byte>): (r: Parsed<Field>)
    ensures r.Good? ==> |r.rest| < |raw|
  {
    var (key, rest) :- ReadVarint(raw);
    var n, wire := key / 8, key % 8;
    if wire == 0 then
      var (value, rest') :- ReadVarint(rest);
      Good(Number(n, value), rest')
    else if wire == 2 then
      var (text, rest') :- ReadString(rest);
      Good(Text(n, text), rest')
    else
      Bad(Unsupported(wire))
  }

  /** Stores a field; unknown ones are dropped. */
  function Put(e: PaymentEvent, field: Field): PaymentEvent {
    match field
    case Number(n, value) =>
      if n == 7 then e.(occurredAt := ToSigned(value))
      else if n == 8 then e.(amountCents := ToSigned(value))
      else if n == 14 then e.(fraudScore := ToSigned(value))
      else e
    case Text(n, text) =>
      if n == 1 then e.(eventId := text)
      else if n == 2 then e.(eventType := text)
      else if n == 3 then e.(tenantId := text)
      else if n == 4 then e.(accountId := text)
      else if n == 5 then e.(transferId := text)
      else if n == 6 then e.(correlationId := text)
      else if n == 9 then e.(currency := text)
      else if n == 10 then e.(receiverKeyType := text)
      else if n == 11 then e.(decisionReason := text)
      else if n == 12 then e.(spiMessageId := text)
      else if n == 13 then e.(endToEndId := text)
      else if n == RULES then e.(fraudRules := e.fraudRules + [text])
      else e
  }

  /** Goes on decoding into an event that already holds something. */
  function Resume(raw: seq<byte>, e: PaymentEvent): Result<PaymentEvent, DecodeError>
    decreases |raw|
  {
    if raw == [] then Ok(e)
    else
      match ReadField(raw)
      case Bad(error) => Err(error)
      case Good(field, rest) => Resume(rest, Put(e, field))
  }

  function Decode(raw: seq<byte>): Result<PaymentEvent, DecodeError> {
    Resume(raw, ZERO)
  }

  // ------------------------------------------------------------------ methods

  method AppendString(out: seq<byte>, n: nat, value: Str) returns (r: seq<byte>)
    requires n <= 15
    ensures r == out + TextField(n, value)
  {
    hide Varint;
    if value == [] {
      return out;
    }
    r := AppendVarintRaw(out, 8 * n + 2);
    r := AppendVarintRaw(r, |value|);
    r := r + value;
  }

  method AppendNumber(out: seq<byte>, n: nat, value: int64) returns (r: seq<byte>)
    requires n <= 15
    ensures r == out + NumberField(n, value)
  {
    hide Varint;
    if value == 0 {
      return out;
    }
    r := AppendVarintRaw(out, 8 * n);
    r := AppendVarintRaw(r, ToUnsigned(value));
  }

  lemma {:induction false} RuleFieldsSnoc(rules: seq<Str>, s: Str)
    ensures RuleFields(rules + [s]) == RuleFields(rules) + TextField(RULES, s)
  {
    hide TextField;
    if rules == [] {
      assert rules + [s] == [s];
      assert RuleFields([s]) == TextField(RULES, s) + RuleFields([s][1..]);
    } else {
      RuleFieldsSnoc(rules[1..], s);
      assert (rules + [s])[1..] == rules[1..] + [s];
    }
  }

  method Marshal(e: PaymentEvent) returns (out: seq<byte>)
    ensures out == Encode(e)
  {
    hide TextField, NumberField, Concat, RuleFields;
    out := [];
    out := AppendString(out, 1, e.eventId);
    out := AppendString(out, 2, e.eventType);
    out := AppendString(out, 3, e.tenantId);
    out := AppendString(out, 4, e.accountId);
    out := AppendString(out, 5, e.transferId);
    out := AppendString(out, 6, e.correlationId);
    out := AppendNumber(out, 7, e.occurredAt);
    out := AppendNumber(out, 8, e.amountCents);
    out := AppendString(out, 9, e.currency);
    out := AppendString(out, 10, e.receiverKeyType);
    out := AppendString(out, 11, e.decisionReason);
    out := AppendString(out, 12, e.spiMessageId);
    out := AppendString(out, 13, e.endToEndId);
    out := AppendNumber(out, 14, e.fraudScore);
    ghost var before := out;
    assert RuleFields(e.fraudRules[..0]) == [] by { NoRules(); }
    var i := 0;
    while i < |e.fraudRules|
      invariant 0 <= i <= |e.fraudRules|
      invariant out == before + RuleFields(e.fraudRules[..i])
    {
      assert e.fraudRules[..i + 1] == e.fraudRules[..i] + [e.fraudRules[i]];
      RuleFieldsSnoc(e.fraudRules[..i], e.fraudRules[i]);
      out := AppendString(out, RULES, e.fraudRules[i]);
      i := i + 1;
    }
    assert e.fraudRules[..i] == e.fraudRules;
    assert Upto(Parts(e), 15) == Encode(e) by { assert Parts(e)[..15] == Parts(e); }
    FifteenParts(Parts(e));
    assert [] + TextField(1, e.eventId) == TextField(1, e.eventId);
  }

  lemma NoRules()
    ensures RuleFields([]) == []
  {
  }

  method ScanString(raw: seq<byte>) returns (r: Parsed<Str>)
    ensures r == ReadString(raw)
  {
    hide ReadVarint;
    var length, n := ScanVarint(raw);
    if n <= 0 {
      VarintErrors(raw);
      return Bad(UnexpectedEof);
    }
    var rest := raw[n..];
    if |rest| < length {
      return Bad(UnexpectedEof);
    }
    if length > INT64_MAX {
      return Bad(TooLarge);
    }
    r := Good(rest[..length], rest[length..]);
  }

  method Unmarshal(bytes: seq<byte>) returns (r: Result<PaymentEvent, DecodeError>)
    ensures r == Decode(bytes)
  {
    hide ReadVarint, ReadString;
    var raw := bytes;
    var event := ZERO;
    while |raw| > 0
      invariant Resume(raw, event) == Resume(bytes, ZERO)
      decreases |raw|
    {
      var key, n := ScanVarint(raw);
      if n <= 0 {
        VarintErrors(raw);
        return Err(UnexpectedEof);
      }
      var body := raw[n..];
      var field, wire := key / 8, key % 8;
      if wire == 0 {
        var value, m := ScanVarint(body);
        if m <= 0 {
          VarintErrors(body);
          return Err(UnexpectedEof);
        }
        raw := body[m..];
        if field == 7 {
          event := event.(occurredAt := ToSigned(value));
        } else if field == 8 {
          event := event.(amountCents := ToSigned(value));
        } else if field == 14 {
          event := event.(fraudScore := ToSigned(value));
        }
      } else if wire == 2 {
        var text := ScanString(body);
        if text.Bad? {
          return Err(text.error);
        }
        raw := text.rest;
        if field == 1 {
          event := event.(eventId := text.value);
        } else if field == 2 {
          event := event.(eventType := text.value);
        } else if field == 3 {
          event := event.(tenantId := text.value);
        } else if field == 4 {
          event := event.(accountId := text.value);
        } else if field == 5 {
          event := event.(transferId := text.value);
        } else if field == 6 {
          event := event.(correlationId := text.value);
        } else if field == 9 {
          event := event.(currency := text.value);
        } else if field == 10 {
          event := event.(receiverKeyType := text.value);
        } else if field == 11 {
          event := event.(decisionReason := text.value);
        } else if field == 12 {
          event := event.(spiMessageId := text.value);
        } else if field == 13 {
          event := event.(endToEndId := text.value);
        } else if field == RULES {
          event := event.(fraudRules := event.fraudRules + [text.value]);
        }
      } else {
        return Err(Unsupported(wire));
      }
    }
    r := Ok(event);
  }

  lemma VarintErrors(raw: seq<byte>)
    ensures ReadVarint(raw).Bad? ==> ReadVarint(raw).error == UnexpectedEof
  {
    OnlyEof(raw, 0);
  }

  // ------------------------------------------------------------ concatenation

  lemma StringExtends(raw: seq<byte>, more: seq<byte>)
    ensures Extends(ReadString(raw), ReadString(raw + more), more)
  {
    hide ReadVarint;
    VarintExtends(raw, more);
    var p := ReadVarint(raw);
    if p.Good? && p.value <= |p.rest| {
      assert (p.rest + more)[..p.value] == p.rest[..p.value];
      assert (p.rest + more)[p.value..] == p.rest[p.value..] + more;
    }
  }

  lemma FieldExtends(raw: seq<byte>, more: seq<byte>)
    ensures Extends(ReadField(raw), ReadField(raw + more), more)
  {
    hide ReadVarint, ReadString;
    VarintExtends(raw, more);
    var p := ReadVarint(raw);
    if p.Good? {
      VarintExtends(p.rest, more);
      StringExtends(p.rest, more);
    }
  }

  /** Decoding a concatenation is decoding the second half into what the first half gave;
      an error of the first half stands, unless it was that the input ended too soon. */
  lemma {:induction false} Continues(raw: seq<byte>, more: seq<byte>, e: PaymentEvent)
    ensures match Resume(raw, e)
            case Ok(e') => Resume(raw + more, e) == Resume(more, e')
            case Err(error) => error != UnexpectedEof ==> Resume(raw + more, e) == Err(error)
    decreases |raw|
  {
    hide ReadField, Put;
    if raw == [] {
      assert raw + more == more;
    } else {
      FieldExtends(raw, more);
      var p := ReadField(raw);
      if p.Good? {
        Continues(p.rest, more, Put(e, p.value));
      }
    }
  }

  // ------------------------------------------------------------------ merging

  function PickText(x: Str, y: Str): Str {
    if y == [] then x else y
  }

  function PickNumber(x: int64, y: int64): int64 {
    if y == 0 then x else y
  }

  function NonEmpty(rules: seq<Str>): seq<Str> {
    if rules == [] then [] else Kept(rules[0]) + NonEmpty(rules[1..])
  }

  function Kept(s: Str): seq<Str> {
    if s == [] then [] else [s]
  }

  /** Message merge: a scalar of `y` wins unless it is the default, and the non-empty rules
      of `y` come after those of `x`. */
  function Merge(x: PaymentEvent, y: PaymentEvent): PaymentEvent {
    PaymentEvent(
      PickText(x.eventId, y.eventId),
      PickText(x.eventType, y.eventType),
      PickText(x.tenantId, y.tenantId),
      PickText(x.accountId, y.accountId),
      PickText(x.transferId, y.transferId),
      PickText(x.correlationId, y.correlationId),
      PickNumber(x.occurredAt, y.occurredAt),
      PickNumber(x.amountCents, y.amountCents),
      PickText(x.currency, y.currency),
      PickText(x.receiverKeyType, y.receiverKeyType),
      PickText(x.decisionReason, y.decisionReason),
      PickText(x.spiMessageId, y.spiMessageId),
      PickText(x.endToEndId, y.endToEndId),
      PickNumber(x.fraudScore, y.fraudScore),
      x.fraudRules + NonEmpty(y.fraudRules))
  }

  lemma TextFieldRead(n: nat, s: Str, rest: seq<byte>, e: PaymentEvent)
    requires n <= 15
    ensures Resume(TextField(n, s) + rest, e) == if s == [] then Resume(rest, e) else Resume(rest, Put(e, Text(n, s)))
  {
    hide Varint, ReadVarint, Put;
    var raw := TextField(n, s) + rest;
    if s == [] {
      assert raw == rest;
    } else {
      var tail := s + rest;
      var mid := Varint(|s|) + tail;
      assert raw == Varint(8 * n + 2) + mid;
      VarintRoundTrip(8 * n + 2, mid);
      VarintRoundTrip(|s|, tail);
      assert tail[..|s|] == s && tail[|s|..] == rest;
      assert ReadField(raw) == Good(Text(n, s), rest);
    }
  }

  lemma NumberFieldRead(n: nat, v: int64, rest: seq<byte>, e: PaymentEvent)
    requires n <= 15
    ensures Resume(NumberField(n, v) + rest, e) ==
            if v == 0 then Resume(rest, e) else Resume(rest, Put(e, Number(n, ToUnsigned(v))))
  {
    hide Varint, ReadVarint, Put;
    var raw := NumberField(n, v) + rest;
    if v == 0 {
      assert raw == rest;
    } else {
      var mid := Varint(ToUnsigned(v)) + rest;
      assert raw == Varint(8 * n) + mid;
      VarintRoundTrip(8 * n, mid);
      VarintRoundTrip(ToUnsigned(v), rest);
      assert ReadField(raw) == Good(Number(n, ToUnsigned(v)), rest);
    }
  }

  function WithRules(e: PaymentEvent, rules: seq<Str>): PaymentEvent {
    e.(fraudRules := e.fraudRules + rules)
  }

  lemma RuleRead(s: Str, rest: seq<byte>, e: PaymentEvent)
    ensures Resume(TextField(RULES, s) + rest, e) == Resume(rest, WithRules(e, Kept(s)))
  {
    hide TextField, Resume;
    TextFieldRead(RULES, s, rest, e);
    assert e.fraudRules + [] == e.fraudRules;
  }

  lemma WithMoreRules(e: PaymentEvent, a: seq<Str>, b: seq<Str>)
    ensures WithRules(WithRules(e, a), b) == WithRules(e, a + b)
  {
    assert (e.fraudRules + a) + b == e.fraudRules + (a + b);
  }

  lemma {:induction false} RulesRead(rules: seq<Str>, e: PaymentEvent)
    ensures Resume(RuleFields(rules), e) == Ok(WithRules(e, NonEmpty(rules)))
    decreases |rules|
  {
    if rules == [] {
      assert e.fraudRules + [] == e.fraudRules;
    } else {
      hide TextField, Resume, WithRules, Kept;
      RuleRead(rules[0], RuleFields(rules[1..]), e);
      RulesRead(rules[1..], WithRules(e, Kept(rules[0])));
      WithMoreRules(e, Kept(rules[0]), NonEmpty(rules[1..]));
    }
  }

  /** An event after the i-th scalar of `y` was merged into it. */
  function Picked(i: nat, e: PaymentEvent, y: PaymentEvent): PaymentEvent {
    if i == 0 then e.(eventId := PickText(e.eventId, y.eventId))
    else if i == 1 then e.(eventType := PickText(e.eventType, y.eventType))
    else if i == 2 then e.(tenantId := PickText(e.tenantId, y.tenantId))
    else if i == 3 then e.(accountId := PickText(e.accountId, y.accountId))
    else if i == 4 then e.(transferId := PickText(e.transferId, y.transferId))
    else if i == 5 then e.(correlationId := PickText(e.correlationId, y.correlationId))
    else if i == 6 then e.(occurredAt := PickNumber(e.occurredAt, y.occurredAt))
    else if i == 7 then e.(amountCents := PickNumber(e.amountCents, y.amountCents))
    else if i == 8 then e.(currency := PickText(e.currency, y.currency))
    else if i == 9 then e.(receiverKeyType := PickText(e.receiverKeyType, y.receiverKeyType))
    else if i == 10 then e.(decisionReason := PickText(e.decisionReason, y.decisionReason))
    else if i == 11 then e.(spiMessageId := PickText(e.spiMessageId, y.spiMessageId))
    else if i == 12 then e.(endToEndId := PickText(e.endToEndId, y.endToEndId))
    else if i == 13 then e.(fraudScore := PickNumber(e.fraudScore, y.fraudScore))
    else e
  }

  /** Decoding the part of one scalar stores the pick of the two values. */
  lemma ScalarRead(i: nat, y: PaymentEvent, e: PaymentEvent)
    requires i < 14
    ensures Resume(From(Parts(y), i), e) == Resume(From(Parts(y), i + 1), Picked(i, e, y))
  {
    hide From, Resume, TextField, NumberField, RuleFields;
    FromStep(Parts(y), i);
    var rest := From(Parts(y), i + 1);
    if i == 6 {
      NumberFieldRead(7, y.occurredAt, rest, e);
      SignedRoundTrip(y.occurredAt);
    } else if i == 7 {
      NumberFieldRead(8, y.amountCents, rest, e);
      SignedRoundTrip(y.amountCents);
    } else if i == 13 {
      NumberFieldRead(14, y.fraudScore, rest, e);
      SignedRoundTrip(y.fraudScore);
    } else {
      TextFieldRead(i + 1, TextAt(i, y), rest, e);
    }
  }

  function TextAt(i: nat, y: PaymentEvent): Str {
    if i == 0 then y.eventId
    else if i == 1 then y.eventType
    else if i == 2 then y.tenantId
    else if i == 3 then y.accountId
    else if i == 4 then y.transferId
    else if i == 5 then y.correlationId
    else if i == 8 then y.currency
    else if i == 9 then y.receiverKeyType
    else if i == 10 then y.decisionReason
    else if i == 11 then y.spiMessageId
    else y.endToEndId
  }

  /** `x` after the first `i` scalars of `y` were merged into it. */
  function MergedUpto(i: nat, x: PaymentEvent, y: PaymentEvent): PaymentEvent {
    PaymentEvent(
      if i > 0 then PickText(x.eventId, y.eventId) else x.eventId,
      if i > 1 then PickText(x.eventType, y.eventType) else x.eventType,
      if i > 2 then PickText(x.tenantId, y.tenantId) else x.tenantId,
      if i > 3 then PickText(x.accountId, y.accountId) else x.accountId,
      if i > 4 then PickText(x.transferId, y.transferId) else x.transferId,
      if i > 5 then PickText(x.correlationId, y.correlationId) else x.correlationId,
      if i > 6 then PickNumber(x.occurredAt, y.occurredAt) else x.occurredAt,
      if i > 7 then PickNumber(x.amountCents, y.amountCents) else x.amountCents,
      if i > 8 then PickText(x.currency, y.currency) else x.currency,
      if i > 9 then PickText(x.receiverKeyType, y.receiverKeyType) else x.receiverKeyType,
      if i > 10 then PickText(x.decisionReason, y.decisionReason) else x.decisionReason,
      if i > 11 then PickText(x.spiMessageId, y.spiMessageId) else x.spiMessageId,
      if i > 12 then PickText(x.endToEndId, y.endToEndId) else x.endToEndId,
      if i > 13 then PickNumber(x.fraudScore, y.fraudScore) else x.fraudScore,
      x.fraudRules)
  }

  lemma MergedStep(i: nat, x: PaymentEvent, y: PaymentEvent)
    requires i < 14
    ensures Picked(i, MergedUpto(i, x, y), y) == MergedUpto(i + 1, x, y)
  {
    hide PickText, PickNumber;
  }

  lemma {:induction false} ScalarsRead(i: nat, x: PaymentEvent, y: PaymentEvent)
    requires i <= 14
    ensures Resume(Encode(y), x) == Resume(From(Parts(y), i), MergedUpto(i, x, y))
  {
    if i == 0 {
      assert Parts(y)[0..] == Parts(y);
      assert MergedUpto(0, x, y) == x;
    } else {
      ScalarsRead(i - 1, x, y);
      hide Resume, From, Parts, Encode, Picked, MergedUpto;
      ScalarRead(i - 1, y, MergedUpto(i - 1, x, y));
      MergedStep(i - 1, x, y);
    }
  }

  /** The message of `y`, decoded into `x`, merges `y` into `x`. */
  lemma DecodeMerges(x: PaymentEvent, y: PaymentEvent)
    ensures Resume(Encode(y), x) == Ok(Merge(x, y))
  {
    var p := Parts(y);
    assert From(p, 14) == RuleFields(y.fraudRules) by {
      FromStep(p, 14);
      assert p[15..] == [];
    }
    hide Encode, Parts, From, Resume, RuleFields, NonEmpty, PickText, PickNumber;
    ScalarsRead(14, x, y);
    RulesRead(y.fraudRules, MergedUpto(14, x, y));
  }

  /** A concatenation of two messages decodes to their merge. */
  lemma ConcatenationMerges(x: PaymentEvent, y: PaymentEvent)
    ensures Decode(Encode(x) + Encode(y)) == Ok(Merge(Merge(ZERO, x), y))
  {
    hide Encode, Resume, Merge;
    DecodeMerges(ZERO, x);
    DecodeMerges(Merge(ZERO, x), y);
    Continues(Encode(x), Encode(y), ZERO);
  }

  /** Any number of messages, one after another. */
  function EncodeAll(events: seq<PaymentEvent>): seq<byte> {
    if events == [] then [] else Encode(events[0]) + EncodeAll(events[1..])
  }

  function MergeAll(e: PaymentEvent, events: seq<PaymentEvent>): PaymentEvent
    decreases |events|
  {
    if events == [] then e else MergeAll(Merge(e, events[0]), events[1..])
  }

  lemma {:induction false} StreamMerges(events: seq<PaymentEvent>, e: PaymentEvent)
    ensures Resume(EncodeAll(events), e) == Ok(MergeAll(e, events))
    decreases |events|
  {
    hide Encode, Merge;
    if events != [] {
      hide Resume;
      DecodeMerges(e, events[0]);
      Continues(Encode(events[0]), EncodeAll(events[1..]), e);
      StreamMerges(events[1..], Merge(e, events[0]));
    }
  }

  lemma {:induction false} NonEmptySplits(a: seq<Str>, b: seq<Str>)
    ensures NonEmpty(a + b) == NonEmpty(a) + NonEmpty(b)
  {
    if a == [] {
      assert a + b == b;
    } else {
      hide Kept;
      NonEmptySplits(a[1..], b);
      assert (a + b)[1..] == a[1..] + b && (a + b)[0] == a[0];
    }
  }

  lemma {:induction false} NonEmptyKeeps(rules: seq<Str>)
    ensures NonEmpty(NonEmpty(rules)) == NonEmpty(rules)
  {
    if rules != [] {
      NonEmptyKeeps(rules[1..]);
      NonEmptySplits(Kept(rules[0]), NonEmpty(rules[1..]));
      KeptTwice(rules[0]);
    }
  }

  lemma KeptTwice(s: Str)
    ensures NonEmpty(Kept(s)) == Kept(s)
  {
    if s != [] {
      assert NonEmpty([s]) == Kept(s) + NonEmpty([s][1..]);
    }
  }

  /** Merging is associative. */
  lemma MergeAssociates(x: PaymentEvent, y: PaymentEvent, z: PaymentEvent)
    ensures Merge(Merge(x, y), z) == Merge(x, Merge(y, z))
  {
    hide NonEmpty;
    NonEmptySplits(y.fraudRules, NonEmpty(z.fraudRules));
    NonEmptyKeeps(z.fraudRules);
    var a, b, c := x.fraudRules, NonEmpty(y.fraudRules), NonEmpty(z.fraudRules);
    assert (a + b) + c == a + (b + c);
  }

  lemma {:induction false} NonEmptyIsIdentityIff(rules: seq<Str>)
    ensures |NonEmpty(rules)| <= |rules|
    ensures NonEmpty(rules) == rules <==> [] !in rules
  {
    if rules != [] {
      NonEmptyIsIdentityIff(rules[1..]);
      assert rules == [rules[0]] + rules[1..];
    }
  }

  /** An event survives exactly when none of its rules is the empty string. */
  lemma RoundTripIff(e: PaymentEvent)
    ensures Decode(Encode(e)) == Ok(e) <==> [] !in e.fraudRules
  {
    DecodeMerges(ZERO, e);
    hide Encode, Resume;
    assert ZERO.fraudRules + NonEmpty(e.fraudRules) == NonEmpty(e.fraudRules);
    NonEmptyIsIdentityIff(e.fraudRules);
    ZeroMerges(e);
  }

  /** What does come back: the event without its empty rules. */
  lemma ZeroMerges(e: PaymentEvent)
    ensures Merge(ZERO, e) == e.(fraudRules := NonEmpty(e.fraudRules))
  {
    hide NonEmpty;
    assert [] + NonEmpty(e.fraudRules) == NonEmpty(e.fraudRules);
  }

  /** The smallest event that does not survive. */
  lemma EmptyRuleIsLost()
    ensures Decode(Encode(ZERO.(fraudRules := [[]]))) == Ok(ZERO)
  {
    var e := ZERO.(fraudRules := [[]]);
    DecodeMerges(ZERO, e);
    hide Encode, Resume;
    ZeroMerges(e);
    assert NonEmpty([[]]) == Kept([]) + NonEmpty([[]][1..]);
  }
}
