/** Cached participant profiles as a CBOR array of six items. */
module CborProfiles {
  import opened Wrappers
  import opened Int64
  import opened Bytes
  import opened Profiles
  import opened Cbor

  /** The items of an encoded profile, the array head first. */
  function Parts(e: Profile): seq<seq<byte>> {
    [ ArrayHead(FIELD_COUNT),
      Text(e.receiverId),
      Text(e.bankIspb),
      Text(e.name),
      Head(UINT, ToUnsigned(e.riskSignal)),
      Head(UINT, ToUnsigned(e.resolvedAt)),
      Head(UINT, ToUnsigned(e.expiresAt)) ]
  }

  function Encode(e: Profile): seq<byte> {
    Concat(Parts(e))
  }

  function Fields(raw: seq<byte>): Parsed<Profile> {
    var (receiverId, r1) :- ReadText(raw);
    var (bankIspb, r2) :- ReadText(r1);
    var (name, r3) :- ReadText(r2);
    var (riskSignal, r4) :- ReadUint(r3);
    var (resolvedAt, r5) :- ReadUint(r4);
    var (expiresAt, r6) :- ReadUint(r5);
    Good(Profile(
      receiverId, bankIspb, name, ToSigned(riskSignal), ToSigned(resolvedAt), ToSigned(expiresAt)), r6)
  }

  function Whole(raw: seq<byte>): Parsed<Profile> {
    var (count, rest) :- ReadArrayLen(raw);
    if count != FIELD_COUNT then Bad(WrongFieldCount(count)) else Fields(rest)
  }

  function Decode(raw: seq<byte>): Result<Profile, DecodeError> {
    match Whole(raw)
    case Bad(error) => Err(error)
    case Good(e, rest) => if rest != [] then Err(TrailingBytes(|rest|)) else Ok(e)
  }

  // ---------------------------------------------------------------- methods

  /** Refuses exactly the invalid profiles. */
  method Marshal(e: Profile) returns (r: Result<seq<byte>, InvalidProfile>)
    ensures r == if Valid(e) then Ok(Encode(e)) else Err(Validate(e).error)
  {
    hide Head, ArrayHead, Text, Concat;
    var checked := Validate(e);
    if checked.Err? {
      return Err(checked.error);
    }
    var out := ArrayHead(FIELD_COUNT);
    out := out + Text(e.receiverId);
    out := out + Text(e.bankIspb);
    out := out + Text(e.name);
    out := out + Head(UINT, ToUnsigned(e.riskSignal));
    out := out + Head(UINT, ToUnsigned(e.resolvedAt));
    out := out + Head(UINT, ToUnsigned(e.expiresAt));
    assert out == Encode(e) by {
      assert Parts(e)[..7] == Parts(e);
      SevenParts(Parts(e));
    }
    r := Ok(out);
  }

  method Unmarshal(raw: seq<byte>) returns (r: Result<Profile, DecodeError>)
    ensures r == Decode(raw)
  {
    hide ReadUint, ReadText, ReadArrayLen;
    var reader := new Reader(raw);
    var count := reader.ArrayLen();
    if count.Err? {
      return Err(count.error);
    }
    if count.value != FIELD_COUNT {
      return Err(WrongFieldCount(count.value));
    }
    var receiverId := reader.Text();
    if receiverId.Err? {
      return Err(receiverId.error);
    }
    var bankIspb := reader.Text();
    if bankIspb.Err? {
      return Err(bankIspb.error);
    }
    var name := reader.Text();
    if name.Err? {
      return Err(name.error);
    }
    var riskSignal := reader.Uint();
    if riskSignal.Err? {
      return Err(riskSignal.error);
    }
    var resolvedAt := reader.Uint();
    if resolvedAt.Err? {
      return Err(resolvedAt.error);
    }
    var expiresAt := reader.Uint();
    if expiresAt.Err? {
      return Err(expiresAt.error);
    }
    if |reader.raw| != 0 {
      return Err(TrailingBytes(|reader.raw|));
    }
    r := Ok(Profile(
      receiverId.value, bankIspb.value, name.value, ToSigned(riskSignal.value),
      ToSigned(resolvedAt.value), ToSigned(expiresAt.value)));
  }

  // ------------------------------------------------------------- round trip

  lemma Items(e: Profile)
    ensures ReadText(From(Parts(e), 1)) == Good(e.receiverId, From(Parts(e), 2))
    ensures ReadText(From(Parts(e), 2)) == Good(e.bankIspb, From(Parts(e), 3))
    ensures ReadText(From(Parts(e), 3)) == Good(e.name, From(Parts(e), 4))
    ensures ReadUint(From(Parts(e), 4)) == Good(ToUnsigned(e.riskSignal), From(Parts(e), 5))
    ensures ReadUint(From(Parts(e), 5)) == Good(ToUnsigned(e.resolvedAt), From(Parts(e), 6))
    ensures ReadUint(From(Parts(e), 6)) == Good(ToUnsigned(e.expiresAt), From(Parts(e), 7))
  {
    hide Head, ArrayHead, Text, From, ReadUint, ReadText;
    var p := Parts(e);
    FromStep(p, 1);
    TextRoundTrip(e.receiverId, From(p, 2));
    FromStep(p, 2);
    TextRoundTrip(e.bankIspb, From(p, 3));
    FromStep(p, 3);
    TextRoundTrip(e.name, From(p, 4));
    FromStep(p, 4);
    UintRoundTrip(ToUnsigned(e.riskSignal), From(p, 5));
    FromStep(p, 5);
    UintRoundTrip(ToUnsigned(e.resolvedAt), From(p, 6));
    FromStep(p, 6);
    UintRoundTrip(ToUnsigned(e.expiresAt), From(p, 7));
  }

  lemma FieldsAre(e: Profile, p: seq<seq<byte>>)
    requires |p| == 7
    requires ReadText(From(p, 1)) == Good(e.receiverId, From(p, 2))
    requires ReadText(From(p, 2)) == Good(e.bankIspb, From(p, 3))
    requires ReadText(From(p, 3)) == Good(e.name, From(p, 4))
    requires ReadUint(From(p, 4)) == Good(ToUnsigned(e.riskSignal), From(p, 5))
    requires ReadUint(From(p, 5)) == Good(ToUnsigned(e.resolvedAt), From(p, 6))
    requires ReadUint(From(p, 6)) == Good(ToUnsigned(e.expiresAt), From(p, 7))
    ensures Fields(From(p, 1)) == Good(e, From(p, 7))
  {
    hide ReadUint, ReadText, From, ToSigned, ToUnsigned;
    SignedRoundTrip(e.riskSignal);
    SignedRoundTrip(e.resolvedAt);
    SignedRoundTrip(e.expiresAt);
  }

  lemma FieldsRoundTrip(e: Profile)
    ensures Fields(From(Parts(e), 1)) == Good(e, [])
  {
    var p := Parts(e);
    assert From(p, 7) == [] by { assert p[7..] == []; }
    Items(e);
    hide Fields, From, ReadUint, ReadText, Head, ArrayHead, Text;
    FieldsAre(e, p);
  }

  /** Every profile survives. */
  lemma RoundTrip(e: Profile)
    ensures Decode(Encode(e)) == Ok(e)
  {
    var p := Parts(e);
    assert From(p, 0) == Encode(e) by { assert p[0..] == p; }
    FieldsRoundTrip(e);
    assert p[0] == ArrayHead(FIELD_COUNT);
    hide ArrayHead, ReadArrayLen, Fields, From, Parts;
    FromStep(p, 0);
    ArrayHeadRoundTrip(FIELD_COUNT, From(p, 1));
  }

  // ------------------------------------------------------------ self-delimiting

  lemma FieldsExtend(raw: seq<byte>, more: seq<byte>)
    ensures Extends(Fields(raw), Fields(raw + more), more)
  {
    hide ReadUint, ReadText;
    TextExtends(raw, more);
    var p1 := ReadText(raw);
    if p1.Bad? {
      return;
    }
    TextExtends(p1.rest, more);
    var p2 := ReadText(p1.rest);
    if p2.Bad? {
      return;
    }
    TextExtends(p2.rest, more);
    var p3 := ReadText(p2.rest);
    if p3.Bad? {
      return;
    }
    UintExtends(p3.rest, more);
    var p4 := ReadUint(p3.rest);
    if p4.Bad? {
      return;
    }
    UintExtends(p4.rest, more);
    var p5 := ReadUint(p4.rest);
    if p5.Bad? {
      return;
    }
    UintExtends(p5.rest, more);
  }

  lemma WholeExtends(raw: seq<byte>, more: seq<byte>)
    ensures Extends(Whole(raw), Whole(raw + more), more)
  {
    hide ReadArrayLen, Fields;
    ArrayLenExtends(raw, more);
    if ReadArrayLen(raw).Good? {
      FieldsExtend(ReadArrayLen(raw).rest, more);
    }
  }

  /** Whatever is added to an accepted encoding is reported as trailing bytes. */
  lemma ExtensionRejected(raw: seq<byte>, more: seq<byte>)
    requires Decode(raw).Ok? && more != []
    ensures Decode(raw + more) == Err(TrailingBytes(|more|))
  {
    hide Whole;
    WholeExtends(raw, more);
    assert [] + more == more;
  }

  /** Whatever is cut off an accepted encoding is reported as input that ended too soon. */
  lemma PrefixRejected(raw: seq<byte>, k: nat)
    requires Decode(raw).Ok? && k < |raw|
    ensures Decode(raw[..k]) == Err(UnexpectedEof)
  {
    hide Whole;
    WholeExtends(raw[..k], raw[k..]);
    assert raw[..k] + raw[k..] == raw;
  }
}
