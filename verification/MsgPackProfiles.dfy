/** Cached participant profiles as a MessagePack array of six items. */
module MsgPackProfiles {
  import opened Wrappers
  import opened Int64
  import opened Bytes
  import opened Profiles
  import opened MsgPack

  /** The items of an encoded profile, the array head first. */
  function Parts(e: Profile): seq<seq<byte>> {
    [ RecordHead(FIELD_COUNT),
      String(e.receiverId),
      String(e.bankIspb),
      String(e.name),
      Int(e.riskSignal),
      Int(e.resolvedAt),
      Int(e.expiresAt) ]
  }

  function Encode(e: Profile): seq<byte> {
    Concat(Parts(e))
  }

  function Fields(raw: seq<byte>): Parsed<Profile> {
    var (receiverId, r1) :- ReadString(raw);
    var (bankIspb, r2) :- ReadString(r1);
    var (name, r3) :- ReadString(r2);
    var (riskSignal, r4) :- ReadInt(r3);
    var (resolvedAt, r5) :- ReadInt(r4);
    var (expiresAt, r6) :- ReadInt(r5);
    Good(Profile(
      receiverId, bankIspb, name, riskSignal, resolvedAt, expiresAt), r6)
  }

  function Whole(raw: seq<byte>): Parsed<Profile> {
    var (count, rest) :- ReadArrayLen(raw);
    if count != FIELD_COUNT then Bad(WrongFieldCount(count)) else Fields(rest)
  }

  function Decode(raw: seq<byte>): Result<Profile, DecodeError> {
    match Whole(raw)
    case Bad(error) => Err(error)
    case Good(e, rest) => if rest != [] then Err(TrailingBytes(|rest|)) else Ok(e)
  }

  // ---------------------------------------------------------------- methods

  /** Refuses exactly the invalid profiles. */
  method Marshal(e: Profile) returns (r: Result<seq<byte>, InvalidProfile>)
    ensures r == if Valid(e) then Ok(Encode(e)) else Err(Validate(e).error)
  {
    hide String, Int, RecordHead, Concat;
    var checked := Validate(e);
    if checked.Err? {
      return Err(checked.error);
    }
    var out := RecordHead(FIELD_COUNT);
    out := out + String(e.receiverId);
    out := out + String(e.bankIspb);
    out := out + String(e.name);
    out := out + Int(e.riskSignal);
    out := out + Int(e.resolvedAt);
    out := out + Int(e.expiresAt);
    assert out == Encode(e) by {
      assert Parts(e)[..7] == Parts(e);
      SevenParts(Parts(e));
    }
    r := Ok(out);
  }

  method Unmarshal(raw: seq<byte>) returns (r: Result<Profile, DecodeError>)
    ensures r == Decode(raw)
  {
    hide ReadInt, ReadString, ReadArrayLen;
    var reader := new Reader(raw);
    var count := reader.ArrayLen();
    if count.Err? {
      return Err(count.error);
    }
    if count.value != FIELD_COUNT {
      return Err(WrongFieldCount(count.value));
    }
    var receiverId := reader.String();
    if receiverId.Err? {
      return Err(receiverId.error);
    }
    var bankIspb := reader.String();
    if bankIspb.Err? {
      return Err(bankIspb.error);
    }
    var name := reader.String();
    if name.Err? {
      return Err(name.error);
    }
    var riskSignal := reader.Int();
    if riskSignal.Err? {
      return Err(riskSignal.error);
    }
    var resolvedAt := reader.Int();
    if resolvedAt.Err? {
      return Err(resolvedAt.error);
    }
    var expiresAt := reader.Int();
    if expiresAt.Err? {
      return Err(expiresAt.error);
    }
    if |reader.raw| != 0 {
      return Err(TrailingBytes(|reader.raw|));
    }
    r := Ok(Profile(
      receiverId.value, bankIspb.value, name.value, riskSignal.value, resolvedAt.value,
      expiresAt.value));
  }

  /** Every length fits in two bytes. */
  predicate Fits(e: Profile) {
    && |e.receiverId| < SPAN16
    && |e.bankIspb| < SPAN16
    && |e.name| < SPAN16
  }

  // ------------------------------------------------------------- round trip

  lemma Items(e: Profile)
    requires Fits(e)
    ensures ReadString(From(Parts(e), 1)) == Good(e.receiverId, From(Parts(e), 2))
    ensures ReadString(From(Parts(e), 2)) == Good(e.bankIspb, From(Parts(e), 3))
    ensures ReadString(From(Parts(e), 3)) == Good(e.name, From(Parts(e), 4))
    ensures ReadInt(From(Parts(e), 4)) == Good(e.riskSignal, From(Parts(e), 5))
    ensures ReadInt(From(Parts(e), 5)) == Good(e.resolvedAt, From(Parts(e), 6))
    ensures ReadInt(From(Parts(e), 6)) == Good(e.expiresAt, From(Parts(e), 7))
  {
    hide String, Int, From, ReadInt, ReadString;
    var p := Parts(e);
    FromStep(p, 1);
    StringRoundTrip(e.receiverId, From(p, 2));
    FromStep(p, 2);
    StringRoundTrip(e.bankIspb, From(p, 3));
    FromStep(p, 3);
    StringRoundTrip(e.name, From(p, 4));
    FromStep(p, 4);
    IntRoundTrip(e.riskSignal, From(p, 5));
    FromStep(p, 5);
    IntRoundTrip(e.resolvedAt, From(p, 6));
    FromStep(p, 6);
    IntRoundTrip(e.expiresAt, From(p, 7));
  }

  lemma FieldsAre(e: Profile, p: seq<seq<byte>>)
    requires |p| == 7
    requires ReadString(From(p, 1)) == Good(e.receiverId, From(p, 2))
    requires ReadString(From(p, 2)) == Good(e.bankIspb, From(p, 3))
    requires ReadString(From(p, 3)) == Good(e.name, From(p, 4))
    requires ReadInt(From(p, 4)) == Good(e.riskSignal, From(p, 5))
    requires ReadInt(From(p, 5)) == Good(e.resolvedAt, From(p, 6))
    requires ReadInt(From(p, 6)) == Good(e.expiresAt, From(p, 7))
    ensures Fields(From(p, 1)) == Good(e, From(p, 7))
  {
    hide ReadInt, ReadString, From;
  }

  lemma FieldsRoundTrip(e: Profile)
    requires Fits(e)
    ensures Fields(From(Parts(e), 1)) == Good(e, [])
  {
    var p := Parts(e);
    assert From(p, 7) == [] by { assert p[7..] == []; }
    Items(e);
    hide Fields, From, ReadInt, ReadString, String, Int;
    FieldsAre(e, p);
  }

  lemma FittingRoundTrip(e: Profile)
    requires Fits(e)
    ensures Decode(Encode(e)) == Ok(e)
  {
    var p := Parts(e);
    assert From(p, 0) == Encode(e) by { assert p[0..] == p; }
    FieldsRoundTrip(e);
    assert p[0] == RecordHead(FIELD_COUNT);
    hide RecordHead, ReadArrayLen, Fields, From, Parts;
    FromStep(p, 0);
    RecordHeadRoundTrip(FIELD_COUNT, From(p, 1));
  }

  /** Whatever is decoded fits: no byte string stands for a longer field. */
  lemma DecodedFits(raw: seq<byte>)
    requires Decode(raw).Ok?
    ensures Fits(Decode(raw).value)
  {
    hide ReadInt, ReadString, ReadArrayLen, AllShort;
  }

  /** A profile survives exactly when it fits. */
  lemma RoundTripIffFits(e: Profile)
    ensures Decode(Encode(e)) == Ok(e) <==> Fits(e)
  {
    hide Encode, Decode, Fits;
    if Fits(e) {
      FittingRoundTrip(e);
    }
    if Decode(Encode(e)) == Ok(e) {
      DecodedFits(Encode(e));
    }
  }

  // ------------------------------------------------------------ self-delimiting

  lemma FieldsExtend(raw: seq<byte>, more: seq<byte>)
    ensures Extends(Fields(raw), Fields(raw + more), more)
  {
    hide ReadInt, ReadString;
    StringExtends(raw, more);
    var p1 := ReadString(raw);
    if p1.Bad? {
      return;
    }
    StringExtends(p1.rest, more);
    var p2 := ReadString(p1.rest);
    if p2.Bad? {
      return;
    }
    StringExtends(p2.rest, more);
    var p3 := ReadString(p2.rest);
    if p3.Bad? {
      return;
    }
    IntExtends(p3.rest, more);
    var p4 := ReadInt(p3.rest);
    if p4.Bad? {
      return;
    }
    IntExtends(p4.rest, more);
    var p5 := ReadInt(p4.rest);
    if p5.Bad? {
      return;
    }
    IntExtends(p5.rest, more);
  }

  lemma WholeExtends(raw: seq<byte>, more: seq<byte>)
    ensures Extends(Whole(raw), Whole(raw + more), more)
  {
    hide ReadArrayLen, Fields;
    ArrayLenExtends(raw, more);
    if ReadArrayLen(raw).Good? {
      FieldsExtend(ReadArrayLen(raw).rest, more);
    }
  }

  /** Whatever is added to an accepted encoding is reported as trailing bytes. */
  lemma ExtensionRejected(raw: seq<byte>, more: seq<byte>)
    requires Decode(raw).Ok? && more != []
    ensures Decode(raw + more) == Err(TrailingBytes(|more|))
  {
    hide Whole;
    WholeExtends(raw, more);
    assert [] + more == more;
  }

  /** Whatever is cut off an accepted encoding is reported as input that ended too soon. */
  lemma PrefixRejected(raw: seq<byte>, k: nat)
    requires Decode(raw).Ok? && k < |raw|
    ensures Decode(raw[..k]) == Err(UnexpectedEof)
  {
    hide Whole;
    WholeExtends(raw[..k], raw[k..]);
    assert raw[..k] + raw[k..] == raw;
  }
}
