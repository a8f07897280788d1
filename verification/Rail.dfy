/** The payment-rail domain model: transfers, their transitions, and the
    fingerprints that identify a payload.  Transitions take a transfer by value
    and return a changed copy or an error, as the source does. */
module Rail {
  import opened Wrappers
  import opened Text
  import opened Instants

  datatype Error =
    | Validation | NotFound | Conflict | RateLimited | DependencyFailed
    | Upstream(message: string)

  datatype Status = Accepted | Approved | Blocked | Review | Settled | Rejected

  predicate Terminal(s: Status) {
    s.Blocked? || s.Settled? || s.Rejected?
  }

  datatype CreateRequest = CreateRequest(
    tenant: string, account: string, idempotencyKey: string, correlation: string,
    amountCents: int, currency: string, receiverKey: string, receiverKeyType: string,
    description: string)

  datatype Transfer = Transfer(
    id: string, tenant: string, account: string, idempotencyKey: string,
    requestHash: string, correlation: string, endToEndId: string,
    amountCents: int, currency: string,
    receiverKey: string, receiverKeyType: string, receiverName: string,
    receiverBank: string, receiverRisk: int,
    fraudScore: int, fraudRules: seq<string>,
    status: Status, decisionReason: string,
    spiMessageId: string, claimToken: string, claimedUntil: Option<Instant>,
    attempts: nat, lastError: string, settlementCode: string,
    createdAt: Instant, updatedAt: Instant)

  datatype DictEntry = DictEntry(
    receiverId: string, name: string, bankIspb: string, accountHash: string, riskSignal: int)

  datatype FraudDecision = FraudDecision(score: int, status: Status, rules: seq<string>, reason: string)

  datatype SpiMessage = SpiMessage(messageId: string, endToEndId: string, submittedAt: Instant)

  /** Callback and review verdicts arrive as free text, so both keep a case for
      anything the switch does not know. */
  datatype SettlementStatus = SettlementAccepted | SettlementRejected | OtherSettlement(text: string)

  datatype ReviewDecision = Approve | Block | OtherDecision(text: string)

  datatype SettlementCallback = SettlementCallback(
    tenant: string, transferId: string, spiMessageId: string, status: SettlementStatus,
    code: string, callbackHash: string, correlation: string, receivedAt: Instant)

  datatype ReviewRequest = ReviewRequest(
    tenant: string, transferId: string, decision: ReviewDecision, reason: string,
    correlation: string, reviewedAt: Instant)

  // ------------------------------------------------------------- validation

  const MAX_AMOUNT_CENTS: int := 2_000_000

  predicate ValidRequest(r: CreateRequest) {
    && Trim(r.tenant) != ""
    && Trim(r.account) != ""
    && Trim(r.idempotencyKey) != ""
    && 0 < r.amountCents <= MAX_AMOUNT_CENTS
    && (r.currency == "" || r.currency == "BRL")
    && Trim(r.receiverKey) != ""
    && r.receiverKeyType in {"CPF", "CNPJ", "EMAIL", "PHONE", "EVP"}
  }

  /** The trimming and defaulting that `CreateTransfer` applies first. */
  function Normalise(r: CreateRequest): CreateRequest {
    r.(tenant := Trim(r.tenant),
       account := Trim(r.account),
       idempotencyKey := Trim(r.idempotencyKey),
       correlation := Trim(r.correlation),
       receiverKey := Trim(r.receiverKey),
       currency := if r.currency == "" then "BRL" else r.currency)
  }

  // ------------------------------------------------------------ fingerprints

  /** SHA-256 is taken to be injective, so a digest is represented by the text
      that is hashed. */
  function HashParts(parts: seq<string>): string {
    Join(parts)
  }

  function DefaultCurrency(currency: string): string {
    if Trim(currency) == "" then "BRL" else Trim(currency)
  }

  function RequestFingerprint(r: CreateRequest): string {
    HashParts([Trim(r.tenant), Trim(r.account), Decimal(r.amountCents), DefaultCurrency(r.currency),
               Trim(r.receiverKey), r.receiverKeyType, Trim(r.description)])
  }

  function StatusText(s: SettlementStatus): string {
    match s
    case SettlementAccepted => "accepted"
    case SettlementRejected => "rejected"
    case OtherSettlement(text) => text
  }

  function CallbackFingerprint(c: SettlementCallback): string {
    HashParts([Trim(c.tenant), Trim(c.transferId), Trim(c.spiMessageId), StatusText(c.status), Trim(c.code)])
  }

  /** What a request asks for, once its text is normalised. */
  datatype Payload = Payload(tenant: string, account: string, amountCents: int, currency: string,
                             receiverKey: string, receiverKeyType: string, description: string)

  function PayloadOf(r: CreateRequest): Payload {
    Payload(Trim(r.tenant), Trim(r.account), r.amountCents, DefaultCurrency(r.currency),
            Trim(r.receiverKey), r.receiverKeyType, Trim(r.description))
  }

  /** No part before the last holds the separator; the description may. */
  predicate SeparableRequest(r: CreateRequest) {
    && NulFree(Trim(r.tenant)) && NulFree(Trim(r.account)) && NulFree(DefaultCurrency(r.currency))
    && NulFree(Trim(r.receiverKey)) && NulFree(r.receiverKeyType)
  }

  lemma RequestFingerprintSeparates(a: CreateRequest, b: CreateRequest)
    requires SeparableRequest(a) && SeparableRequest(b)
    ensures RequestFingerprint(a) == RequestFingerprint(b) <==> PayloadOf(a) == PayloadOf(b)
  {
    var p := [Trim(a.tenant), Trim(a.account), Decimal(a.amountCents), DefaultCurrency(a.currency),
              Trim(a.receiverKey), a.receiverKeyType, Trim(a.description)];
    var q := [Trim(b.tenant), Trim(b.account), Decimal(b.amountCents), DefaultCurrency(b.currency),
              Trim(b.receiverKey), b.receiverKeyType, Trim(b.description)];
    DecimalNulFree(a.amountCents);
    DecimalNulFree(b.amountCents);
    if Join(p) == Join(q) {
      JoinInjective(p, q);
      assert p[0] == q[0] && p[1] == q[1] && p[2] == q[2] && p[3] == q[3] && p[4] == q[4] && p[5] == q[5] && p[6] == q[6];
      DecimalInjective(a.amountCents, b.amountCents);
    }
  }

  lemma JoinCollides(x: string, y: string, z: string, rest: seq<string>)
    requires rest != []
    ensures Join([x + [NUL] + y, z] + rest) == Join([x, y + [NUL] + z] + rest)
  {
    var p := [x + [NUL] + y, z] + rest;
    var q := [x, y + [NUL] + z] + rest;
    assert p[1..] == [z] + rest && q[1..] == [y + [NUL] + z] + rest;
    assert p[1..][1..] == rest && q[1..][1..] == rest;
    assert Join(p) == x + [NUL] + y + [NUL] + (z + [NUL] + Join(rest));
    assert Join(q) == x + [NUL] + (y + [NUL] + z + [NUL] + Join(rest));
  }

  /** Without that restriction two different payloads can share one fingerprint:
      a NUL moves from the tenant to the account. */
  lemma NulInTenantCollides(r: CreateRequest)
    ensures var a := r.(tenant := "a" + [NUL] + "b", account := "c");
            var b := r.(tenant := "a", account := "b" + [NUL] + "c");
            PayloadOf(a) != PayloadOf(b) && RequestFingerprint(a) == RequestFingerprint(b)
  {
    TrimShort();
    var rest := [Decimal(r.amountCents), DefaultCurrency(r.currency), Trim(r.receiverKey), r.receiverKeyType, Trim(r.description)];
    JoinCollides("a", "b", "c", rest);
    var x, y := "a" + [NUL] + "b", "b" + [NUL] + "c";
    assert |x| != |"a"|;
    assert [x, "c"] + rest == [x, "c", rest[0], rest[1], rest[2], rest[3], rest[4]];
    assert ["a", y] + rest == ["a", y, rest[0], rest[1], rest[2], rest[3], rest[4]];
  }

  lemma TrimShort()
    ensures Trim("a") == "a" && Trim("c") == "c"
    ensures Trim("a" + [NUL] + "b") == "a" + [NUL] + "b"
    ensures Trim("b" + [NUL] + "c") == "b" + [NUL] + "c"
    ensures Trim("BRL") == "BRL"
  {
  }

  /** Two callbacks share a fingerprint exactly when their normalised fields agree. */
  lemma CallbackFingerprintSeparates(a: SettlementCallback, b: SettlementCallback)
    requires forall c :: c in {a, b} ==>
      NulFree(Trim(c.tenant)) && NulFree(Trim(c.transferId)) && NulFree(Trim(c.spiMessageId)) && NulFree(StatusText(c.status))
    ensures CallbackFingerprint(a) == CallbackFingerprint(b) <==>
            (Trim(a.tenant), Trim(a.transferId), Trim(a.spiMessageId), StatusText(a.status), Trim(a.code)) ==
            (Trim(b.tenant), Trim(b.transferId), Trim(b.spiMessageId), StatusText(b.status), Trim(b.code))
  {
    var p := [Trim(a.tenant), Trim(a.transferId), Trim(a.spiMessageId), StatusText(a.status), Trim(a.code)];
    var q := [Trim(b.tenant), Trim(b.transferId), Trim(b.spiMessageId), StatusText(b.status), Trim(b.code)];
    if Join(p) == Join(q) {
      JoinInjective(p, q);
      assert p[0] == q[0] && p[1] == q[1] && p[2] == q[2] && p[3] == q[3] && p[4] == q[4];
    }
  }

  /** Normalising a request as `CreateTransfer` does never changes its fingerprint. */
  lemma NormalisePreservesFingerprint(r: CreateRequest)
    ensures RequestFingerprint(Normalise(r)) == RequestFingerprint(r)
  {
    TrimIdempotent(r.tenant);
    TrimIdempotent(r.account);
    TrimIdempotent(r.receiverKey);
    TrimShort();
  }

  lemma FingerprintsAreNotEmpty(r: CreateRequest, c: SettlementCallback)
    ensures RequestFingerprint(r) != "" && CallbackFingerprint(c) != ""
  {
  }

  // ------------------------------------------------------------ transitions

  function ClaimSubmission(t: Transfer, token: string, until: Instant, now: Instant): Result<Transfer, Error> {
    if Trim(token) == "" || until <= now then Err(Validation)
    else if !t.status.Accepted? then Err(Conflict)
    else if t.claimedUntil.Some? && t.claimedUntil.value > now then Err(Conflict)
    else Ok(t.(claimToken := token, claimedUntil := Some(until), attempts := t.attempts + 1,
               lastError := "", updatedAt := now))
  }

  function RecordSubmission(t: Transfer, token: string, message: SpiMessage): Result<Transfer, Error> {
    if !t.status.Accepted? then Err(Conflict)
    else if t.claimToken == "" || t.claimToken != token then Err(Conflict)
    else if Trim(message.messageId) == "" || Trim(message.endToEndId) == "" then Err(Validation)
    else Ok(t.(status := Approved, spiMessageId := message.messageId, endToEndId := message.endToEndId,
               claimToken := "", claimedUntil := None, lastError := "", updatedAt := message.submittedAt))
  }

  function ReleaseSubmission(t: Transfer, token: string, lastError: string, retryAt: Instant, now: Instant)
    : Result<Transfer, Error>
  {
    if t.status.Approved? && t.spiMessageId != "" then Ok(t)
    else if t.claimToken == "" || t.claimToken != token then Err(Conflict)
    else Ok(t.(claimToken := "", claimedUntil := Some(retryAt), lastError := lastError, updatedAt := now))
  }

  function DecideReview(t: Transfer, status: Status, reason: string, reviewedAt: Instant): Result<Transfer, Error> {
    if !t.status.Review? then Err(Conflict)
    else if !status.Accepted? && !status.Blocked? then Err(Validation)
    else Ok(t.(status := status, decisionReason := if reason != "" then reason else t.decisionReason,
               updatedAt := reviewedAt))
  }

  function Settle(t: Transfer, c: SettlementCallback): Result<Transfer, Error> {
    if t.spiMessageId == "" || t.spiMessageId != c.spiMessageId then Err(Conflict)
    else if Terminal(t.status) then Err(Conflict)
    else if !t.status.Approved? then Err(Conflict)
    else match c.status
      case SettlementAccepted => Ok(t.(status := Settled, settlementCode := c.code, updatedAt := c.receivedAt))
      case SettlementRejected => Ok(t.(status := Rejected, settlementCode := c.code, updatedAt := c.receivedAt))
      case OtherSettlement(_) => Err(Validation)
  }

  // ---------------------------------------------------- what a transfer keeps

  predicate HasSpiIds(s: Status) {
    s.Approved? || s.Settled? || s.Rejected?
  }

  /** Which fields a transfer may carry in each status. */
  predicate WellFormed(t: Transfer) {
    && (if HasSpiIds(t.status) then t.spiMessageId != "" && t.endToEndId != ""
        else t.spiMessageId == "" && t.endToEndId == "")
    && (!t.status.Accepted? ==> t.claimToken == "" && t.claimedUntil.None?)
    && (t.claimToken != "" ==> t.claimedUntil.Some?)
    && (!t.status.Settled? && !t.status.Rejected? ==> t.settlementCode == "")
  }

  /** The part of a transfer that no transition touches. */
  function Core(t: Transfer): Transfer {
    t.(endToEndId := "", status := Accepted, decisionReason := "", spiMessageId := "",
       claimToken := "", claimedUntil := None, attempts := 0, lastError := "",
       settlementCode := "", updatedAt := 0)
  }

  /** The statuses that can follow a status, by any number of transitions. */
  predicate CanBecome(s: Status, s': Status) {
    match s
    case Review => true
    case Accepted => s'.Accepted? || HasSpiIds(s')
    case Approved => HasSpiIds(s')
    case Blocked | Settled | Rejected => s' == s
  }

  /** How a transfer may differ from an earlier version of itself: its core and
      any SPI identifiers are kept, its status only moves forward, and a
      terminal transfer is frozen. */
  predicate Evolves(t: Transfer, t': Transfer) {
    && Core(t) == Core(t')
    && CanBecome(t.status, t'.status)
    && (t.spiMessageId != "" ==> t'.spiMessageId == t.spiMessageId && t'.endToEndId == t.endToEndId)
    && (Terminal(t.status) ==> t' == t)
  }

  lemma EvolvesTransitive(a: Transfer, b: Transfer, c: Transfer)
    requires Evolves(a, b) && Evolves(b, c)
    ensures Evolves(a, c)
  {
  }
}
