/** The participant profile kept in a cache. */
module Profiles {
  import opened Wrappers
  import opened Int64
  import opened Bytes

  const FIELD_COUNT: int := 6

  datatype Profile = Profile(
    receiverId: Str,
    bankIspb: Str,
    name: Str,
    riskSignal: int64,
    resolvedAt: int64,
    expiresAt: int64
  )

  datatype InvalidProfile =
    | NoReceiver
    | NoBank
    | NegativeRisk
    | NegativeResolvedAt
    | NoExpiry
    | ExpiryNotAfterResolution

  /** What a profile must satisfy to be cached. */
  predicate Valid(p: Profile) {
    && p.receiverId != [] && p.bankIspb != []
    && 0 <= p.riskSignal
    && 0 <= p.resolvedAt < p.expiresAt
  }

  /** The checks in order; the first that fails names the error. The test for a missing
      expiry only chooses between two errors: without it the last test would fail. */
  function Validate(p: Profile): (r: Result<(), InvalidProfile>)
    ensures r.Ok? <==> Valid(p)
  {
    if p.receiverId == [] then Err(NoReceiver)
    else if p.bankIspb == [] then Err(NoBank)
    else if p.riskSignal < 0 then Err(NegativeRisk)
    else if p.resolvedAt < 0 then Err(NegativeResolvedAt)
    else if p.expiresAt <= 0 then Err(NoExpiry)
    else if p.expiresAt <= p.resolvedAt then Err(ExpiryNotAfterResolution)
    else Ok(())
  }
}
