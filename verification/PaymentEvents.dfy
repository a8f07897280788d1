/** The payment event carried by every codec. */
module PaymentEvents {
  import opened Int64
  import opened Bytes

  /** How many fields the array formats announce. */
  const FIELD_COUNT: int := 15

  datatype PaymentEvent = PaymentEvent(
    eventId: Str,
    eventType: Str,
    tenantId: Str,
    accountId: Str,
    transferId: Str,
    correlationId: Str,
    occurredAt: int64,
    amountCents: int64,
    currency: Str,
    receiverKeyType: Str,
    decisionReason: Str,
    spiMessageId: Str,
    endToEndId: Str,
    fraudScore: int64,
    fraudRules: seq<Str>
  )
}
