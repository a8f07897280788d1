/** The outbox half of the store, on values: numbering, the read-only scan, the
    claim that stamps what the scan finds, and the two marks. */
module Outbox {
  import opened Wrappers
  import opened Instants
  import opened Rail
  import opened Events

  const DEFAULT_LIMIT: nat := 100

  function EffectiveLimit(limit: int): (n: nat)
    ensures n > 0
    ensures if limit <= 0 then n == 100 else n == limit
  {
    if limit <= 0 then DEFAULT_LIMIT else limit
  }

  /** Sequence numbers are exactly 1..n, in order. */
  predicate Numbered(records: seq<OutboxRecord>) {
    forall i :: 0 <= i < |records| ==> records[i].sequence == i + 1
  }

  predicate Ascending(records: seq<OutboxRecord>) {
    forall i, j :: 0 <= i < j < |records| ==> records[i].sequence < records[j].sequence
  }

  function NewRecord(sequence: int, event: Event): OutboxRecord {
    OutboxRecord(sequence, event, false, 0, "", event.occurredAt, "", None, None)
  }

  /** Appends events with the numbers after `nextSeq`. */
  function Enqueue(records: seq<OutboxRecord>, nextSeq: int, events: seq<Event>): seq<OutboxRecord> {
    records + seq(|events|, i requires 0 <= i < |events| => NewRecord(nextSeq + 1 + i, events[i]))
  }

  predicate Eligible(r: OutboxRecord, now: Instant) {
    && !r.published
    && r.availableAt <= now
    && (r.claimedUntil.None? || r.claimedUntil.value <= now)
  }

  function Stamp(r: OutboxRecord, token: string, until: Instant): OutboxRecord {
    r.(claimToken := token, claimedUntil := Some(until))
  }

  /** The first `limit` eligible records, in order. */
  function Scan(records: seq<OutboxRecord>, now: Instant, limit: nat): (found: seq<OutboxRecord>)
    ensures |found| <= limit && |found| <= |records|
  {
    if records == [] || limit == 0 then []
    else if Eligible(records[0], now) then [records[0]] + Scan(records[1..], now, limit - 1)
    else Scan(records[1..], now, limit)
  }

  /** The outbox after the first `limit` eligible records have been stamped. */
  function Claim(records: seq<OutboxRecord>, now: Instant, limit: nat, token: string, until: Instant)
    : (claimed: seq<OutboxRecord>)
    ensures |claimed| == |records|
  {
    if records == [] || limit == 0 then records
    else if Eligible(records[0], now) then
      [Stamp(records[0], token, until)] + Claim(records[1..], now, limit - 1, token, until)
    else
      [records[0]] + Claim(records[1..], now, limit, token, until)
  }

  function StampAll(records: seq<OutboxRecord>, token: string, until: Instant): (r: seq<OutboxRecord>)
    ensures |r| == |records|
  {
    seq(|records|, i requires 0 <= i < |records| => Stamp(records[i], token, until))
  }

  predicate Held(r: OutboxRecord, token: string) {
    r.claimToken != "" && r.claimToken == token
  }

  function Published(r: OutboxRecord, at: Instant): OutboxRecord {
    r.(published := true, lastError := "", claimToken := "", claimedUntil := None, dispatchedAt := Some(at))
  }

  function Failed(r: OutboxRecord, lastError: string, retryAt: Instant): OutboxRecord {
    r.(attempts := r.attempts + 1, lastError := lastError, availableAt := retryAt, claimToken := "", claimedUntil := None)
  }

  /** Both marks look a record up by its number and refuse a foreign claim. */
  function MarkPublished(records: seq<OutboxRecord>, sequence: int, token: string, at: Instant)
    : Result<seq<OutboxRecord>, Error>
  {
    if !(1 <= sequence <= |records|) then Err(NotFound)
    else if !Held(records[sequence - 1], token) then Err(Conflict)
    else Ok(records[sequence - 1 := Published(records[sequence - 1], at)])
  }

  function MarkFailed(records: seq<OutboxRecord>, sequence: int, token: string, lastError: string, retryAt: Instant)
    : Result<seq<OutboxRecord>, Error>
  {
    if !(1 <= sequence <= |records|) then Err(NotFound)
    else if !Held(records[sequence - 1], token) then Err(Conflict)
    else Ok(records[sequence - 1 := Failed(records[sequence - 1], lastError, retryAt)])
  }

  // ------------------------------------------------ claim and scan agree

  function EligibleCount(records: seq<OutboxRecord>, now: Instant): nat {
    if records == [] then 0
    else (if Eligible(records[0], now) then 1 else 0) + EligibleCount(records[1..], now)
  }

  lemma {:induction false} ScanTakesTheFirstEligible(records: seq<OutboxRecord>, now: Instant, limit: nat)
    ensures |Scan(records, now, limit)| == (if EligibleCount(records, now) < limit then EligibleCount(records, now) else limit)
    ensures forall r :: r in Scan(records, now, limit) ==> r in records && Eligible(r, now)
  {
    if records != [] && limit > 0 {
      ScanTakesTheFirstEligible(records[1..], now, if Eligible(records[0], now) then limit - 1 else limit);
    }
  }

  /** Position by position, a claim either leaves a record alone or stamps an
      eligible one. */
  lemma {:induction false} ClaimTouchesOnlyEligible(
    records: seq<OutboxRecord>, now: Instant, limit: nat, token: string, until: Instant, i: nat)
    requires i < |records|
    ensures var after := Claim(records, now, limit, token, until)[i];
            after == records[i] || (Eligible(records[i], now) && after == Stamp(records[i], token, until))
  {
    if limit > 0 && i > 0 {
      ClaimTouchesOnlyEligible(records[1..], now, if Eligible(records[0], now) then limit - 1 else limit, token, until, i - 1);
    }
  }

  lemma ClaimKeepsNumbering(records: seq<OutboxRecord>, now: Instant, limit: nat, token: string, until: Instant)
    requires Numbered(records)
    ensures Numbered(Claim(records, now, limit, token, until))
  {
    forall i | 0 <= i < |records|
      ensures Claim(records, now, limit, token, until)[i].sequence == i + 1
    {
      ClaimTouchesOnlyEligible(records, now, limit, token, until, i);
    }
  }

  /** At one instant a claim stamps exactly the records the scan returns. */
  lemma {:induction false} ClaimStampsTheScan(
    records: seq<OutboxRecord>, now: Instant, limit: nat, token: string, until: Instant, i: nat)
    requires i < |records| && Ascending(records) && token != ""
    requires forall r :: r in records ==> !Held(r, token)
    ensures records[i] in Scan(records, now, limit) <==> Held(Claim(records, now, limit, token, until)[i], token)
  {
    if limit == 0 {
      assert records[i] in records;
    } else {
      var rest := if Eligible(records[0], now) then limit - 1 else limit;
      ScanTakesTheFirstEligible(records[1..], now, rest);
      if i > 0 {
        ClaimStampsTheScan(records[1..], now, rest, token, until, i - 1);
        assert records[i] == records[1..][i - 1];
      } else {
        assert records[0] in records;
        assert forall k :: 0 <= k < |records[1..]| ==> records[1..][k] == records[k + 1];
      }
    }
  }

  /** Later scans of the claimed outbox find none of the claimed records until
      the claim runs out. */
  lemma {:induction false} ScanSkipsTheClaimed(
    records: seq<OutboxRecord>, now: Instant, limit: nat, token: string, until: Instant, later: Instant, more: nat)
    requires later < until && token != ""
    requires forall r :: r in records ==> !Held(r, token)
    ensures forall r :: r in Scan(Claim(records, now, limit, token, until), later, more) ==> !Held(r, token)
  {
    var claimed := Claim(records, now, limit, token, until);
    ScanTakesTheFirstEligible(claimed, later, more);
    forall r | r in Scan(claimed, later, more)
      ensures !Held(r, token)
    {
      var i :| 0 <= i < |claimed| && claimed[i] == r;
      ClaimTouchesOnlyEligible(records, now, limit, token, until, i);
      assert records[i] in records;
    }
  }

  /** The scan answers in sequence order. */
  lemma {:induction false} ScanAscends(records: seq<OutboxRecord>, now: Instant, limit: nat)
    requires Ascending(records)
    ensures Ascending(Scan(records, now, limit))
    ensures forall r :: r in Scan(records, now, limit) ==> r in records
  {
    if records != [] && limit > 0 {
      var rest := if Eligible(records[0], now) then limit - 1 else limit;
      ScanAscends(records[1..], now, rest);
      var tail := Scan(records[1..], now, rest);
      forall k | 0 <= k < |tail|
        ensures records[0].sequence < tail[k].sequence
      {
        assert tail[k] in records[1..];
      }
    }
  }

  /** An eligible record is passed over only when the limit is used up by earlier ones. */
  lemma {:induction false} ScanTakesEarlierFirst(records: seq<OutboxRecord>, now: Instant, limit: nat, i: nat, j: nat)
    requires Ascending(records) && i < j < |records| && Eligible(records[i], now)
    requires records[j] in Scan(records, now, limit)
    ensures records[i] in Scan(records, now, limit)
  {
    ScanAscends(records[1..], now, if Eligible(records[0], now) then limit - 1 else limit);
    if i > 0 {
      ScanTakesEarlierFirst(records[1..], now, if Eligible(records[0], now) then limit - 1 else limit, i - 1, j - 1);
    }
  }

  // ------------------------------------------- what a record holds, field by field

  /** A claim keeps others away exactly until it runs out. */
  lemma ClaimHoldsUntil(r: OutboxRecord, token: string, until: Instant, at: Instant)
    requires !r.published && r.availableAt <= at
    ensures Eligible(Stamp(r, token, until), at) <==> until <= at
    ensures r.claimedUntil.None? ==> Eligible(r, at)
  {
  }

  /** Due exactly when its time has come, and never once published. */
  lemma EligibleIs(r: OutboxRecord, at: Instant)
    requires r.claimedUntil.None?
    ensures Eligible(r, at) <==> r.availableAt <= at && !r.published
  {
  }

  /** Enqueued events are numbered on, due when they occurred, unpublished, unclaimed and untried. */
  lemma EnqueuedIs(records: seq<OutboxRecord>, nextSeq: int, events: seq<Event>, i: nat)
    requires i < |events|
    ensures var all := Enqueue(records, nextSeq, events); var r := all[|records| + i];
            && |all| == |records| + |events| && all[..|records|] == records
            && r.sequence == nextSeq + 1 + i && r.event == events[i] && r.availableAt == events[i].occurredAt
            && !r.published && r.attempts == 0 && r.lastError == "" && r.claimToken == ""
            && r.claimedUntil.None? && r.dispatchedAt.None?
  {
  }

  /** What two records share but for their delivery fields. */
  predicate SameMessage(a: OutboxRecord, b: OutboxRecord) {
    a.sequence == b.sequence && a.event == b.event
  }

  predicate OnlyChangedAt(before: seq<OutboxRecord>, after: seq<OutboxRecord>, i: int) {
    |after| == |before| && forall k :: 0 <= k < |before| && k != i ==> after[k] == before[k]
  }

  /** An acknowledgement goes through exactly for a stored record under the caller's claim. */
  lemma PublishedMarkIs(records: seq<OutboxRecord>, sequence: int, token: string, at: Instant)
    ensures var m := MarkPublished(records, sequence, token, at);
            var found := 1 <= sequence <= |records|;
            && (m == Err(NotFound) <==> !found)
            && (m == Err(Conflict) <==> found && (token == "" || records[sequence - 1].claimToken != token))
            && (m.Ok? ==>
                  var r, r' := records[sequence - 1], m.value[sequence - 1];
                  && OnlyChangedAt(records, m.value, sequence - 1) && SameMessage(r, r')
                  && r'.published && r'.dispatchedAt == Some(at) && r'.lastError == ""
                  && r'.claimToken == "" && r'.claimedUntil.None?
                  && r'.attempts == r.attempts && r'.availableAt == r.availableAt)
            && (m.Ok? || m == Err(NotFound) || m == Err(Conflict))
  {
  }

  /** So does a failure, which counts the attempt and keeps its text. */
  lemma FailedMarkIs(records: seq<OutboxRecord>, sequence: int, token: string, lastError: string, retryAt: Instant)
    ensures var m := MarkFailed(records, sequence, token, lastError, retryAt);
            var found := 1 <= sequence <= |records|;
            && (m == Err(NotFound) <==> !found)
            && (m == Err(Conflict) <==> found && (token == "" || records[sequence - 1].claimToken != token))
            && (m.Ok? ==>
                  var r, r' := records[sequence - 1], m.value[sequence - 1];
                  && OnlyChangedAt(records, m.value, sequence - 1) && SameMessage(r, r')
                  && r'.attempts == r.attempts + 1 && r'.lastError == lastError && r'.availableAt == retryAt
                  && r'.claimToken == "" && r'.claimedUntil.None?
                  && r'.published == r.published && r'.dispatchedAt == r.dispatchedAt)
            && (m.Ok? || m == Err(NotFound) || m == Err(Conflict))
  {
  }
}
