/** Outbox events, outbox records and audit records.  Event payloads and event
    ids are opaque to the switch and are not modelled. */
module Events {
  import opened Wrappers
  import opened Instants
  import opened Rail

  datatype Kind =
    | TransferRequested | DictKeyResolved | FraudScored
    | TransferAccepted | SpiSubmissionRequested | ReviewRequested | TransferBlocked
    | ReviewApproved | ReviewBlocked
    | SpiMessageCreated | TransferApproved
    | TransferSettled | TransferRejected

  datatype Event = Event(kind: Kind, tenant: string, account: string, transferId: string,
                         correlation: string, occurredAt: Instant)

  datatype OutboxRecord = OutboxRecord(
    sequence: int, event: Event, published: bool, attempts: nat, lastError: string,
    availableAt: Instant, claimToken: string, claimedUntil: Option<Instant>, dispatchedAt: Option<Instant>)

  datatype Action = TransferDecided | SubmissionRecorded | ReviewRecorded | SettlementRecorded

  datatype AuditRecord = AuditRecord(tenant: string, account: string, transferId: string, action: Action,
                                     correlation: string, createdAt: Instant)
}
