# PixRail payment switch: a verified model

This project models the parts of the PixRail payment switch whose correctness only shows over
whole runs, and proves what they promise. It has four parts.

**The transfer protocol.** API callers, SPI workers, manual reviews and provider callbacks work on one
store. `Store` gives each store call as a function from state to state and as the method of a
`MemoryStore` object that does it in place. `Calls` cuts each service call at its store calls, so
that a call in flight is a phase with its locals; `World` is the store, a clock that never runs
backwards and any number of such calls, with a step relation that interleaves them, abandons them
anywhere and lets relays touch delivery fields. `Invariant`, `PhaseSteps` and `WorldSteps` carry
one inductive invariant through every step, and `SwitchSafety` reads the results off it: events
explain status, SPI submissions for one transfer do not overlap, only the current claim holder
writes identifiers, create is idempotent, settlement is decided once. `Service` has the source's
own methods, proved to do exactly those phases when nothing else happens in between; `Outcomes` says
what each call then comes to, case by case and field by field, in terms of what it was given.
`Ledger` keeps beside every run which request, directory entry, review, client's answer and callback
each transfer comes from, and shows that in every run a stored transfer is exactly what those make
it. `Batch` and `Service.RunBatches` say what the batches of a single worker add up to.

**The outbox and its relays.** `Relays` cuts `Drain` in the same way, for any number of relays on
one outbox, and `RelaySafety` states what holds of every run: numbering, frozen published records,
one acknowledgement each, no double delivery in time, the retry schedule. `Retry` is the backoff in
64-bit arithmetic with the exact condition under which it follows its schedule. `Drain` is the
relay object alone on the outbox, and `DrainSteps` shows that what it does is a run of `Relays`.
`System` puts switch and relays on one store and shows that every run of the whole is a run of each.

**The binary codecs.** `ProtoWire` and `ProtoEvents` are the Protocol Buffers writer and reader
("Base 128 Varints" and "Last One Wins" in the Protocol Buffers Encoding guide), `Cbor` and
`CborEvents` the CBOR ones (sections 3, 3.1, 4.1 and 4.2.1 of RFC 8949), `MsgPack` and
`MsgPackEvents` the MessagePack ones (the int, str and array families of its specification), and
`CborProfiles` and `MsgPackProfiles` the participant profile codecs built on them. Loops and reader
objects are methods proved against parsing functions; the theorems are about those functions.
`ProtoLayout`, `CborLayout` and `MsgPackLayout` pin the bytes of writer and reader each on its own,
with literal tags, heads and field orders.

**The rate limiters.** `TokenBucket`, `LeakyBucket`, `SlidingWindow` and `FixedWindow` are the four
limiters as objects with an `Allow` method; `Traces` runs any of them over a sequence of requests.
`TokenSafety` compares the token bucket with an eager one and bounds bursts, `BucketEquivalence`
shows when the leaky bucket is a token bucket in disguise.

Integers are 64-bit where overflow can be reached (fraud score, backoff, token refill, varints,
length conversions). Time is an integer count of nanoseconds; 0 is the zero time. Some promises
turn out to hold only under a condition; each has the exact condition as an if-and-only-if and an
input that breaks it:

- A receiver with risk signal 80 or more is blocked, and so never obtains SPI identifiers: exactly
  if its score does not overflow (`IdentifiersMatchStatus`, `RiskyReceiverIsPaid`).
- The backoff follows its schedule: exactly if the doubling that reaches the cap fits in 64 bits
  (`BackoffMeetsScheduleIff`, `LargePolicyOverflows`).
- MessagePack returns an event: exactly if every length is below 65536 (`RoundTripIffFits`,
  `LongFieldIsLost`).
- Protocol Buffers returns an event: exactly if no rule is the empty string (`RoundTripIff`,
  `EmptyRuleIsLost`).
- The lazy token bucket answers as an eager one: exactly if the refills of the span fit in 64 bits
  (`LazyIsEagerIff`, `HugeRefillsStarve`).
- The leaky bucket is the token bucket: exactly if the clock readings keep away from the zero time,
  and, for one setting, if that token bucket has room (`LeakyIsTokenIff`, `LeakyIsTokenForIff`,
  `ZeroTimeDiffers`, `CrossingDiffers`).
- The fixed window is bounded: exactly if the clock never reads the zero time (`BoundedIff`,
  `ZeroTimeIsUnlimited`).

The fixed window is usually said to let through at most twice its limit; the bound proved here is
one less, and is reached. `docs/events/fraud_score_calculated.v1.json` bounds the fraud score by
100; the engine exceeds that, and the model follows the engine.

What is taken as given: the SPI client issues non-blank message ids that are distinct across
transfers (the `Issuer` function), new ids and tokens are new, SHA-256 is injective (a digest is
represented by the text that is hashed), configured tenants hold no colon
(`internal/config/config.go:171`), and the clock does not run backwards where a result says so.

`dafny verify dfyconfig.toml` checks the whole project.

## Model

| member | source | states |
|---|---|---|
| SwitchSafety.EventsExplainStatus | internal/switcher/service.go:160-216 | in every run the outbox events of a transfer, in sequence order, form a legal word of the life cycle, folding them gives its current status, and its audit records are exactly the ones that word implies; an unknown id has neither |
| SwitchSafety.OnlyCommitsWrite | internal/switcher/service.go:243-314 | one step of any call either commits, and then writes exactly the transfer it answers with, its prepared events and one audit record, or leaves events, audit, index, callbacks, statuses and message ids as they are (claims, releases, replays, reads, refusals) |
| SwitchSafety.CommitsTellOfTheirTransfer | internal/switcher/service.go:160-216 | in every run the audit record and all the events a commit adds are about the one transfer it writes |
| SwitchSafety.ClaimsWait | internal/rail/model.go:221-273 | in every run, of two claims on one transfer the later is made at or after the expiry of the earlier, or at or after the retry time its release set |
| SwitchSafety.NoOverlappingSubmits | internal/switcher/service.go:250-269 | if a Submit returned before its claim expired, every later claim on that transfer, and so every later Submit, starts after that return |
| SwitchSafety.OneLiveSubmit | internal/switcher/service.go:250-269 | of two Submit calls in flight for one transfer the one with the earlier claim has outlived it, so at most one holds a claim that has not expired |
| SwitchSafety.TimeoutFitsLease | internal/switcher/service.go:70-73 | the 30 s lease and 10 s timeout suffice: a claim stored within 20 s of its preparation, whose Submit keeps the timeout, excludes all others |
| SwitchSafety.IdentifiersMatchStatus | internal/rail/model.go:240-258 | in every run both SPI identifiers are present exactly in approved, settled and rejected transfers, and a receiver with risk signal 80 or more is blocked, without identifiers, exactly when risk signal plus surcharges fit in 64 bits; otherwise it was accepted outright |
| RiskOverflow.RiskyReceiverIsPaid | internal/switcher/service.go:87-314 | a run in which a receiver of the largest risk signal obtains a message id, its score having overflowed |
| SwitchSafety.MessageIdNamesOneTransfer | internal/store/memory.go:106-127 | in every run no two transfers share a message id |
| SwitchSafety.TransfersOnlyEvolve | internal/rail/model.go:217-313 | over every continuation of every run a transfer keeps its core, its status only moves forward, identifiers once written stay, and a terminal transfer is frozen |
| SwitchSafety.OnlyTheHolderWrites | internal/store/memory.go:106-127 | a step that changes a transfer's message id writes it where there was none, and is the record step of the call that holds the most recent claim on that transfer |
| SwitchSafety.StaleWorkerIsHarmless | internal/store/memory.go:106-148 | a worker whose claim is no longer the latest changes nothing: its record step gets a conflict or a replay, its release is refused |
| SwitchSafety.OneKeyOneTransfer | internal/switcher/service.go:102-111 | in every interleaving all create calls that succeeded for one tenant and key returned the same transfer id under one fingerprint |
| SwitchSafety.OneBirthEach | internal/switcher/service.go:217-232 | each stored transfer was made by exactly one create call that is not a replay |
| SwitchSafety.IndexIsBijection | internal/store/memory.go:57-72 | the idempotency index is a bijection with the stored transfers, and no two transfers share tenant and key |
| SwitchSafety.BoundKeyDecides | internal/switcher/service.go:102-111 | once a key is bound, a create call in flight for it cannot insert, and ends with the bound transfer if the fingerprints agree and with a conflict if they differ |
| SwitchSafety.LoserFindsTheWinner | internal/switcher/service.go:217-230 | a call that lost the insert race finds its key bound when it looks again |
| SwitchSafety.CallbackIffDecided | internal/store/memory.go:167-194 | in every run a callback entry for a transfer's message id exists exactly when the transfer is settled or rejected |
| SwitchSafety.DecidedForGood | internal/rail/model.go:292-313 | a settled or rejected transfer and its filed callback hash never change in any continuation |
| SwitchSafety.SecondCallback | internal/store/memory.go:167-194 | a further callback for a decided transfer replays under the filed hash, conflicts under any other, and changes nothing either way; which hash is filed, and so which callback replays, is stated by Ledger.LaterCallbacksRepeatOrConflict and Outcomes.SettlementIsOneDecision |
| Ledger.EveryTransferIsAccounted | internal/switcher/service.go:87-486 | in every run each stored transfer is, field by field, what the request that made it, the directory entry, the review, the client's answer and the deciding callback say: account, amount, currency, receiver fields, fingerprint of the request as given, score, rules, reason, identifiers, settlement code and status; and the hash on file is the deciding callback's own or the fingerprint of what it says |
| Ledger.ReviewsFollowTheirDecision | internal/switcher/service.go:340-425 | in every run what a review call writes follows the decision it was started with: approve accepts, block blocks, the reason is the trimmed one or the default, and nothing else of the transfer changes |
| Ledger.LaterCallbacksRepeatOrConflict | internal/switcher/service.go:427-486 | in every run a callback in flight for a transfer that another one has decided replays exactly when both come to the same hash, otherwise conflicts, and changes nothing; two without a hash and without NUL do so exactly when status and trimmed code are the same |
| Ledger.DecidedTransfersAnswerByTheirCallback | internal/switcher/service.go:427-486 | the same for a callback that arrives after the decision, from the start of its call |
| Ledger.StepKeepsLedger | internal/switcher/service.go:87-486 | every step of any call keeps each call working on what it was given and each transfer accounted for by its inputs |
| Outcomes.CreationMakes | internal/switcher/service.go:87-233 | on an unbound key an acceptable, allowed and resolved request ends in a new transfer: each field from the request or the directory entry by name, BRL when no currency is given, fingerprint of the request as given, first status by the engine, filed under its key, with exactly the events of that status in order and one audit record |
| Outcomes.CreationIsRefused | internal/switcher/service.go:87-135 | every other create changes nothing: an unacceptable request is a validation error, a bound key replays under the same fingerprint or none and conflicts otherwise, a limit refuses, a directory error is passed on |
| Outcomes.NormalisedIs | internal/switcher/service.go:88-102 | a request passes validation exactly when tenant, account, key and receiver key are not blank, the amount is 1 to 2000000 cents, the currency is absent or BRL and the key type is one of the five; normalising leaves the fingerprint alone |
| Outcomes.ReviewDecides | internal/switcher/service.go:340-425 | a transfer in review ends accepted on approve and blocked on block, with the trimmed reason or the default, with the events and the audit record of that decision, nothing else of it changing; any other decision is a validation error that changes nothing |
| Outcomes.ReviewIsRefused | internal/switcher/service.go:340-361 | a review without names, of an unknown transfer or of one not in review is refused as such and changes nothing |
| Outcomes.SubmissionApproves | internal/switcher/service.go:243-314 | a claimable transfer whose client answers is approved under the answered identifiers, its claim cleared and its attempt counted, with two events and one audit record |
| Outcomes.SubmissionIsReleased | internal/switcher/service.go:262-269 | when the client fails, the transfer keeps its status, the attempt and the error are kept and the next claim waits a second |
| Outcomes.BlankAnswerIsRefused | internal/rail/model.go:240-258 | an answer with a blank identifier is a validation error and leaves the claim until it runs out |
| Outcomes.SubmissionIsRefused | internal/switcher/service.go:243-261 | every other submission changes nothing: blank names, unknown transfer, already approved (a replay), blank token or expired claim, not claimable (a conflict) |
| Outcomes.PendingIffClaimable | internal/store/memory.go:196-223 | the scan for work lists a transfer exactly when a claim at that instant would take it |
| Outcomes.SettlementDecides | internal/switcher/service.go:427-486 | the first callback for an approved transfer settles or rejects it by its status, with its code and its time, files the hash it came with or else the fingerprint of what it says, with one event and one audit record |
| Outcomes.SettlementRepeats | internal/store/memory.go:167-194 | a callback whose message id has a hash on file replays exactly when its own hash, or else the fingerprint of what it says, is that hash; otherwise it conflicts; nothing changes |
| Outcomes.SettlementIsOneDecision | internal/switcher/service.go:427-486 | after one callback decided a transfer, another for it replays exactly when status and trimmed code are the same, if neither brings a hash, and exactly when the hashes are the same, if both do; otherwise it conflicts |
| Outcomes.SettlementIsRefused | internal/switcher/service.go:427-460 | a callback without names, for an unknown transfer, for another message id, with an unknown status or for a transfer not approved is refused as such and changes nothing |
| SwitchSafety.ReachKeeps | internal/switcher/service.go:87-486 | the whole invariant (consistent store, separated claims, create log, what each call in flight may rely on, unique ids and tokens) holds in every reachable state |
| WorldSteps.StepKeeps | internal/switcher/service.go:87-486 | every step of any call, of the clock and of delivery keeps the invariant and only extends the store |
| WorldSteps.RunKeeps | internal/switcher/service.go:87-486 | the same over every run |
| Invariant.OthersUndisturbed | internal/switcher/service.go:243-314 | whatever one call does to store and logs, what a call with another id or token relies on still holds |
| Consistency.EmptyConsistent | internal/store/memory.go:24-32 | the new store is consistent |
| StoreSteps.InsertStep | internal/store/memory.go:57-72 | an insert of a ready transfer keeps the store consistent and extends it, or is refused and changes nothing |
| StoreSteps.ClaimStep | internal/store/memory.go:84-104 | a claim keeps the store consistent and extends it, whatever it answers |
| StoreSteps.RecordStep | internal/store/memory.go:106-127 | recording a submission keeps events, audit and status in step |
| StoreSteps.ReleaseStep | internal/store/memory.go:129-148 | a release keeps the store consistent and extends it |
| StoreSteps.ReviewStep | internal/store/memory.go:150-165 | a review decision keeps events, audit and status in step |
| StoreSteps.SettleStep | internal/store/memory.go:167-194 | a settlement keeps callbacks, events, audit and status in step |
| Lifecycle.CreationWord | internal/switcher/service.go:160-203 | the events of a new transfer are a word that leads from nothing to its first status with one audit action |
| Lifecycle.ReviewWord | internal/switcher/service.go:378-420 | the events of a review lead from review to the decided status with one audit action |
| Lifecycle.SubmissionWord | internal/switcher/service.go:270-306 | the events of a submission lead from accepted to approved with one audit action |
| Lifecycle.SettlementWord | internal/switcher/service.go:449-478 | the event of a settlement leads from approved to settled or rejected with one audit action |
| Rail.RequestFingerprintSeparates | internal/rail/model.go:190-205 | with no NUL before the description, two requests share the pre-hash text exactly when their seven normalised fields agree |
| Rail.NulInTenantCollides | internal/rail/model.go:315-318 | without that restriction different payloads can share it |
| Rail.CallbackFingerprintSeparates | internal/rail/model.go:207-215 | with no NUL before the code, two callbacks share the pre-hash text exactly when their five normalised fields agree |
| Rail.NormalisePreservesFingerprint | internal/switcher/service.go:88-102 | the normalisation of a create call never changes the fingerprint |
| Rail.EvolvesTransitive | internal/rail/model.go:217-313 | allowed changes of a transfer compose |
| Text.TrimIdempotent | internal/rail/model.go:190-205 | trimming trimmed text changes nothing |
| Text.DecimalInjective | internal/rail/model.go:190-205 | the printed amount determines the amount |
| Text.JoinInjective | internal/rail/model.go:315-318 | parts joined with NUL are determined by the text when all but the last hold no NUL |
| Text.StoreKeyInjective | internal/store/memory.go:57-60 | for tenants without a colon the store keys of two pairs agree exactly when the pairs do |
| Text.TrimIs | internal/rail/model.go:190-205 | trimming cuts a run of blanks at each end and nothing else, and what is left neither starts nor ends with one |
| Fraud.Score | internal/fraud/engine.go:11-47 | for every amount, account and directory entry: the score is the sum, wrapped once at 64 bits, of the risk signal, 40 from 1000000 cents on, 15 from 500000 on, 35 from risk signal 80 on and 25 for a transfer to the payer's own account; the fired rules are those, in that order; from 90 it is blocked, from 65 held for review, else accepted, each with its reason |
| Fraud.DecisionIs | internal/fraud/engine.go:11-47 | the same of the verdict that the create call uses |
| Fraud.HighRiskBlockedIffNoOverflow | internal/fraud/engine.go:23-45 | a receiver with risk signal 80 or more is blocked exactly when the score does not overflow; otherwise it is accepted |
| Fraud.LargestRiskIsAccepted | internal/fraud/engine.go:11-47 | the largest risk signal overflows with every amount and account, and is accepted |
| Fraud.SelfRuleFires | internal/fraud/engine.go:27-30 | the self-transfer rule is among the fired ones exactly for a transfer to the payer's own account |
| Store.MemoryStore.constructor | internal/store/memory.go:24-32 | an empty, valid store |
| Store.MemoryStore.Find | internal/store/memory.go:43-55 | the transfer bound to tenant and key, if any |
| Store.MemoryStore.Get | internal/store/memory.go:74-82 | the tenant's transfer, or not found, also for another tenant's |
| Store.MemoryStore.AppendEvents | internal/store/memory.go:361-371 | events are appended under the next numbers and the numbering stays 1..n |
| Store.MemoryStore.Insert | internal/store/memory.go:57-72 | new state and answer are those of the atomic insert: two ways to conflict, else transfer, index, events and audit together |
| Store.MemoryStore.ClaimSubmission | internal/store/memory.go:84-104 | new state and answer are those of the atomic claim; only transfers change |
| Store.MemoryStore.RecordSubmission | internal/store/memory.go:106-127 | new state and answer are those of the atomic record step |
| Store.MemoryStore.ReleaseSubmission | internal/store/memory.go:129-148 | new state and answer are those of the atomic release; only transfers change |
| Store.MemoryStore.RecordReviewDecision | internal/store/memory.go:150-165 | new state and answer are those of the atomic review step |
| Store.MemoryStore.Settlement | internal/store/memory.go:167-194 | new state and answer are those of the atomic settlement step; which hash that files and compares is stated by Outcomes.SettlementDecides and Outcomes.SettlementRepeats |
| Store.MemoryStore.PendingSubmissions | internal/store/memory.go:196-223 | min(limit, pending) distinct pending transfers, oldest first, none older left behind |
| Store.MemoryStore.PendingOutbox | internal/store/memory.go:236-264 | the loop returns exactly the scan: the first records, up to the limit, that are unpublished, due and not under a claim |
| Store.MemoryStore.ClaimPendingOutbox | internal/store/memory.go:266-301 | the in-place loop stamps exactly what the scan returns and returns it stamped; refused exactly for a blank token or an expiry in the past, and then nothing changes |
| Store.MemoryStore.MarkOutboxPublished | internal/store/memory.go:303-325 | the record of that number, if held under that token, is published and released; otherwise conflict or not found and no change |
| Store.MemoryStore.MarkOutboxFailed | internal/store/memory.go:327-348 | the record of that number, if held under that token, counts an attempt and is rescheduled; otherwise conflict or not found and no change |
| Outbox.ScanTakesTheFirstEligible | internal/store/memory.go:236-264 | the scan holds min(limit, eligible) records, all of them eligible |
| Outbox.ScanTakesEarlierFirst | internal/store/memory.go:236-264 | an eligible record is passed over only for earlier ones |
| Outbox.ScanAscends | internal/store/memory.go:236-264 | the scan is in sequence order |
| Outbox.ClaimStampsTheScan | internal/store/memory.go:266-301 | position by position, a record is held after a claim exactly when the scan at that instant returns it |
| Outbox.ClaimTouchesOnlyEligible | internal/store/memory.go:266-301 | a claim leaves every record as it is or stamps an eligible one |
| Outbox.ClaimKeepsNumbering | internal/store/memory.go:266-301 | a claim keeps the numbering |
| Outbox.ScanSkipsTheClaimed | internal/store/memory.go:266-301 | no scan before the claim's expiry returns a claimed record |
| Outbox.EffectiveLimit | internal/store/memory.go:236-242 | a limit that is not positive becomes 100 |
| Outbox.EnqueuedIs | internal/store/memory.go:361-371 | an enqueued event gets the next number, is due when it occurred, and is unpublished, unclaimed and untried |
| Outbox.EligibleIs | internal/store/memory.go:236-264 | an unclaimed record is due exactly from its time on and never once published |
| Outbox.ClaimHoldsUntil | internal/store/memory.go:266-301 | a claimed record that is due can be taken again exactly from its claim's expiry on |
| Outbox.PublishedMarkIs | internal/store/memory.go:303-325 | an acknowledgement is not found, in conflict or applied by number and token alone, and field by field changes one record: published, dispatched, released |
| Outbox.FailedMarkIs | internal/store/memory.go:327-348 | a failure report likewise: attempt counted, error kept, rescheduled, released |
| RelaySafety.OutboxMovesForward | internal/messaging/relay.go:60-83 | with any number of relays, sequence numbers stay 1..n, stored events never change, and a published record is frozen for good |
| RelaySafety.PublishedIffAckedOnce | internal/store/memory.go:303-325 | in every run a record is published exactly when a delivery of it was acknowledged, and then exactly one was |
| RelaySafety.ReportInTimeSucceeds | internal/store/memory.go:303-348 | a relay that reports before its claim expires is never refused, whatever the others did |
| RelaySafety.NoDoubleDelivery | internal/messaging/relay.go:60-83 | deliveries of one record that were all reported before their claims expired are one delivery |
| RelaySafety.RetryWaitsTheBackoff | internal/store/memory.go:327-348 | a record has as many attempts as recorded failures; after the k-th, at time f, it is unclaimable before f + backoff(k) and, when unclaimed, claimable from then on |
| RelaySafety.ReachKeeps | internal/messaging/relay.go:60-83 | the relay invariant (ownership of claimed records, deliveries, acknowledgements, schedule) holds in every reachable state |
| RelaySteps.StepKeeps | internal/messaging/relay.go:60-83 | every relay step, append and tick keeps it and moves the outbox forward |
| Retry.WithDefaults | internal/messaging/relay.go:42-58 | each positive setting is kept; the others become 1 s, 60 s and 30 s |
| Retry.ComputeBackoff | internal/messaging/relay.go:93-105 | the doubling loop in 64-bit arithmetic computes the recursive backoff |
| Retry.BackoffMeetsScheduleIff | internal/messaging/relay.go:93-105 | for positive settings the backoff is min(initial * 2^(n-1), max) for every attempt exactly when initial <= max and the first doubling at or above max fits in 64 bits |
| Retry.SmallPoliciesFit | internal/messaging/relay.go:93-105 | every policy with initial <= max < 2^62 fits |
| Retry.DoubledOverflows | internal/messaging/relay.go:93-105 | for every policy that does not fit, an attempt at which the wait is wrong |
| Retry.LargePolicyOverflows | internal/messaging/relay.go:93-105 | a policy whose second wait is negative |
| Retry.BackoffIsMonotone | internal/messaging/relay.go:93-105 | under a fitting policy waits are positive, never shrink and never pass the cap |
| System.StepProjects | internal/store/memory.go:361-371 | a step of switch and relays over one store is one step of each, the other side seeing appended events or changed delivery fields |
| System.SystemRuns | internal/store/memory.go:361-371 | every run of switch and relays together is a run of the switch and a run of the relays that agree on outbox and clock, so the results about each hold of the whole |
| Drain.Publisher.Publish | internal/messaging/relay.go:107-114 | a successful publish appends the event |
| Drain.Relay.constructor | internal/messaging/relay.go:42-58 | keeps store and publisher and fills in the policy |
| Drain.Relay.DeliverOne | internal/messaging/relay.go:68-81 | one turn publishes and then marks exactly that record published, or failed with the backoff for its next attempt |
| Drain.Relay.Drain | internal/messaging/relay.go:60-83 | alone on the outbox, a drain reports exactly the records a scan would return, in order, leaves every other record alone, appends the delivered events, published counts them, and scanned = published + retried; with an expired claim it is refused and changes nothing |
| Drain.Relay.ClaimBatch | internal/messaging/relay.go:61-65 | the claim stamps what a scan returns and nothing else, or is refused for an expired claim |
| Drain.Relay.ReportNext | internal/messaging/relay.go:68-81 | one turn reports the next claimed record and leaves the rest stamped |
| Drain.Relay.ReportAll | internal/messaging/relay.go:67-82 | the loop reports every claimed record once, in order, and counts both outcomes |
| DrainSteps.DrainIsARun | internal/messaging/relay.go:60-83 | from every reachable relay world with an idle relay and a new token, the claim and one publish and report per record found are steps that can be taken, and they leave exactly the outbox that the drain method leaves |
| DrainSteps.DrainedIsUnique | internal/messaging/relay.go:60-83 | what the drain method states determines the outbox it leaves |
| Service.Service.CreateTransfer | internal/switcher/service.go:87-233 | run without interference, the method does exactly the phases of the interleaved model: normalise, validate, find, limits, resolve, score, insert, find again; what they come to is stated by Outcomes.CreationMakes and Outcomes.CreationIsRefused, field by field |
| Service.Service.DecideAndInsert | internal/switcher/service.go:127-233 | its second half, from scoring to the insert and the second look-up, does exactly those phases; the transfer it inserts is stated field by field by Outcomes.CreationMakes |
| Service.Service.CollectCreationEvents | internal/switcher/service.go:160-203 | the events appended one by one are the creation events of the first status |
| Service.Service.SubmitToSpi | internal/switcher/service.go:243-314 | run without interference, the method does exactly the claim, call and record or release phases; what they come to is stated by Outcomes.SubmissionApproves, SubmissionIsReleased, BlankAnswerIsRefused and SubmissionIsRefused |
| Service.Service.FinishSubmission | internal/switcher/service.go:262-314 | its second half, after the SPI client answered |
| Service.Service.RecordReview | internal/switcher/service.go:340-425 | run without interference, the method does exactly the read and commit phases; what they come to, decision by decision, is stated by Outcomes.ReviewDecides and Outcomes.ReviewIsRefused |
| Service.Service.Review | internal/switcher/service.go:351-419 | reads the transfer and prepares events, audit, status and reason, or the refusal; that the status and the reason are the decision's is stated by Outcomes.ReviewDecides |
| Service.Service.RecordSettlement | internal/switcher/service.go:427-486 | run without interference, the method does exactly the read and commit phases; what they come to is stated by Outcomes.SettlementDecides, SettlementRepeats, SettlementIsOneDecision and SettlementIsRefused |
| Service.Service.Settlement | internal/switcher/service.go:441-477 | reads the transfer and prepares event and audit, or the refusal |
| Service.Service.SubmitPendingSpi | internal/switcher/service.go:316-338 | scans the oldest pending transfers and submits them one after another; submitted, replayed and skipped count the answers that are a fresh submission, a replay and a conflict, the first other refusal ends the batch and is its error, and without error the three add up to scanned; when claims are taken in time and the client answers, exactly the scanned ones are approved and nothing else changes |
| Batch.SubmissionGoesThrough | internal/switcher/service.go:243-314 | a submission claimed in time and answered approves its transfer with the answered identifiers and touches no other |
| Batch.BatchShrinksBacklog | internal/store/memory.go:196-223 | after a batch, pending is what was pending less the batch |
| Batch.BatchIsRound | internal/switcher/service.go:316-338 | a finished batch takes its transfers out of the backlog and leaves the rest, if time alone makes nothing eligible before the next one |
| Batch.RoundsDrain | internal/switcher/service.go:316-338 | after m such rounds a backlog of n is max(0, n - m * limit), empty exactly from round ceil(n / limit) on |
| Service.Service.RunBatches | cmd/pixrail-worker/main.go:58-88 | m batches of the worker, when claims are taken in time, the client answers and time makes nothing newly eligible, submit all but max(0, n - m * limit) of a backlog of n, so it is empty exactly from batch ceil(n / limit) on |
| ProtoWire.AppendVarintRaw | internal/codec/proto_wire.go:116-122 | the loop appends the base-128 form of the value |
| ProtoWire.ScanVarint | internal/codec/proto_wire.go:124-136 | the loop returns the value and length of the varint at the front: at most ten bytes, one bit kept of the tenth, otherwise a negative count |
| ProtoWire.VarintRoundTrip | internal/codec/proto_wire.go:116-136 | every 64-bit value is read back, whatever follows it |
| ProtoWire.VarintExtends | internal/codec/proto_wire.go:124-136 | a varint that can be read is read the same when more bytes follow |
| ProtoWire.ContributionIs | internal/codec/proto_wire.go:130 | what a shifted byte adds modulo 2^64: seven bits at its position, one bit for the tenth byte |
| ProtoWire.VarintByte | internal/codec/proto_wire.go:116-122 | byte i of a varint holds bits 7i to 7i+6 of the value, the top bit is set on all but the last, and the last is not superfluous |
| ProtoEvents.AppendString | internal/codec/proto_wire.go:99-106 | appends key, length and bytes, or nothing for the empty string |
| ProtoEvents.AppendNumber | internal/codec/proto_wire.go:108-114 | appends key and value, or nothing for zero |
| ProtoEvents.Marshal | internal/codec/proto_wire.go:13-33 | the sequence of appends and the rule loop give the encoding of the event; which tag carries which field is stated by ProtoLayout.WriterLayout |
| ProtoEvents.ScanString | internal/codec/proto_wire.go:138-151 | the string at the front, or which of the two errors |
| ProtoEvents.Unmarshal | internal/codec/proto_wire.go:35-97 | the loop over fields gives what decoding field by field into the zero event gives, errors included; which tag sets which field is stated by ProtoLayout.IdentityTags, DetailTags and NumberTags |
| ProtoEvents.Continues | internal/codec/proto_wire.go:35-97 | decoding any accepted bytes followed by more is decoding the rest into the event reached; an error stands unless the input had ended too soon |
| ProtoEvents.DecodeMerges | internal/codec/proto_wire.go:35-97 | the message of y decoded into x is the merge: scalars of y unless default, non-empty rules of y after those of x |
| ProtoEvents.ConcatenationMerges | internal/codec/proto_wire.go:13-97 | decoding the concatenation of two messages gives the merge of the two events |
| ProtoEvents.StreamMerges | internal/codec/proto_wire.go:13-97 | the same for any number of messages |
| ProtoEvents.MergeAssociates | internal/codec/proto_wire.go:35-97 | merging is associative |
| ProtoEvents.ZeroMerges | internal/codec/proto_wire.go:35-97 | merging into the zero event drops exactly the empty rules |
| ProtoEvents.RoundTripIff | internal/codec/proto_wire.go:13-97 | an event survives encoding and decoding exactly when none of its rules is empty, negative numbers included |
| ProtoEvents.EmptyRuleIsLost | internal/codec/proto_wire.go:99-102 | the smallest event that does not survive |
| ProtoLayout.WriterLayout | internal/codec/proto_wire.go:13-33 | the message is, in this order, each non-empty text and each non-zero number under its literal tag byte, and the non-empty rules last |
| ProtoLayout.IdentityTags | internal/codec/proto_wire.go:60-78 | reading: which tag byte sets which of the identifying texts, whatever was read before and follows |
| ProtoLayout.DetailTags | internal/codec/proto_wire.go:79-90 | reading: which tag byte sets which of the other texts, and that the last adds a rule |
| ProtoLayout.NumberTags | internal/codec/proto_wire.go:46-59 | reading: which tag byte sets which number, as a signed 64-bit one |
| ProtoLayout.UnknownFieldsAreDropped | internal/codec/proto_wire.go:46-91 | texts and numbers under any other field number leave the event as it is |
| ProtoLayout.OtherWireTypesAreRefused | internal/codec/proto_wire.go:92-93 | any wire type other than varint and length-delimited ends the decoding with an error |
| Cbor.HeadRoundTrip | internal/codec/cbor.go:120-136 | every major type and 64-bit value is read back, whatever follows the head |
| Cbor.HeadIsShortest | internal/codec/cbor.go:196-239 | no head the reader accepts for a value is shorter than the writer's, and one as long is the writer's |
| CborLayout.HeadBytes | internal/codec/cbor.go:120-136 | the bytes the writer puts down for a head: major type and value in one byte below 24, else the width and the value in one, two or four bytes in big-endian order |
| CborLayout.LongHeadBytes | internal/codec/cbor.go:120-136 | the same for values of more than 32 bits, in eight bytes |
| CborLayout.HeadReads | internal/codec/cbor.go:196-239 | reading: what each first byte announces, and the errors of the reserved ones |
| CborLayout.LongHeadReads | internal/codec/cbor.go:196-239 | reading: the eight-byte form, byte by byte |
| CborLayout.ReadersCheckTheType | internal/codec/cbor.go:142-194 | each reader accepts its own major type only |
| Cbor.HeadExtends | internal/codec/cbor.go:196-239 | reading a head is stable under more input: same value, or same error unless the input had ended too soon |
| Cbor.TextRoundTrip | internal/codec/cbor.go:111-114 | every string is read back, whatever follows it |
| Cbor.TextArrayRoundTrip | internal/codec/cbor.go:180-194 | every list of strings is read back, whatever follows it |
| Cbor.TextArrayExtends | internal/codec/cbor.go:180-194 | reading a list is stable under more input |
| Cbor.TextsSnoc | internal/codec/cbor.go:31-34 | appending one more string at the end is encoding the longer list |
| Cbor.Reader.Head | internal/codec/cbor.go:196-239 | advances the unread bytes and answers as the parsing function says, for every width and error |
| Cbor.Reader.Take | internal/codec/cbor.go:204-231 | reads a big-endian value of 1, 2, 4 or 8 bytes, or reports that the input ended |
| Cbor.Reader.ArrayLen | internal/codec/cbor.go:142-151 | reads an array head and converts its length to a signed integer |
| Cbor.Reader.Text | internal/codec/cbor.go:153-167 | reads a text head and that many bytes |
| Cbor.Reader.Uint | internal/codec/cbor.go:169-178 | reads an unsigned integer |
| Cbor.Reader.TextArray | internal/codec/cbor.go:180-194 | the loop reads exactly the announced number of strings |
| CborEvents.Marshal | internal/codec/cbor.go:15-36 | the appends and the rule loop give the encoding of the event |
| CborEvents.Unmarshal | internal/codec/cbor.go:38-105 | the fifteen reads in order give what the parsing function gives, errors and trailing bytes included |
| CborEvents.RoundTrip | internal/codec/cbor.go:15-105 | every payment event survives encoding and decoding, negative numbers included |
| CborEvents.ExtensionRejected | internal/codec/cbor.go:100-103 | bytes added to anything the decoder accepts are reported as exactly that many trailing bytes |
| CborEvents.PrefixRejected | internal/codec/cbor.go:38-105 | every proper prefix of anything the decoder accepts is reported as input that ended too soon |
| CborEvents.EncodingIsShortest | internal/codec/cbor.go:107-136 | of all byte strings that decode to an event the writer's is the shortest, and the only one of its length |
| CborLayout.EventLayout | internal/codec/cbor.go:15-36 | an event is the head of an array of fifteen and then its fields in this order, numbers as their 64-bit patterns and the rules as a list |
| CborLayout.ProfileLayout | internal/codec/cache.go:79-91 | a profile is the head of an array of six and then its fields in this order |
| CborLayout.OtherCountsAreRefused | internal/codec/cbor.go:38-47 | an array of any other length is not an event, nor a profile |
| MsgPack.AppendStringArray | internal/codec/msgpack.go:115-125 | the head and the loop give the encoding of the list |
| MsgPack.StringRoundTrip | internal/codec/msgpack.go:98-105 | every string shorter than 65536 is read back, whatever follows it |
| MsgPack.IntRoundTrip | internal/codec/msgpack.go:107-113 | every 64-bit integer is read back, whatever follows it |
| MsgPack.StringArrayRoundTrip | internal/codec/msgpack.go:115-125 | every list shorter than 65536 of strings shorter than 65536 is read back |
| MsgPack.ReadString | internal/codec/msgpack.go:151-176 | whatever is read is shorter than 65536 |
| MsgPack.ReadStringArray | internal/codec/msgpack.go:198-212 | whatever is read is shorter than 65536, and so are its strings |
| MsgPack.StringArrayExtends | internal/codec/msgpack.go:198-212 | reading a list is stable under more input |
| MsgPack.Reader.ArrayLen | internal/codec/msgpack.go:131-149 | advances the unread bytes and answers as the parsing function says, for both forms and every error |
| MsgPack.Reader.Length | internal/codec/msgpack.go:140-146 | reads a two-byte length |
| MsgPack.Reader.String | internal/codec/msgpack.go:151-176 | reads a string in either form, or the error |
| MsgPack.Reader.Int | internal/codec/msgpack.go:178-196 | reads an integer in either form, or the error |
| MsgPack.Reader.StringArray | internal/codec/msgpack.go:198-212 | the loop reads exactly the announced number of strings |
| MsgPackEvents.Marshal | internal/codec/msgpack.go:13-31 | the appends give the encoding of the event |
| MsgPackEvents.Unmarshal | internal/codec/msgpack.go:33-96 | the fifteen reads in order give what the parsing function gives, errors and trailing bytes included |
| MsgPackEvents.RoundTripIffFits | internal/codec/msgpack.go:13-125 | an event survives exactly when every string and the rule list are shorter than 65536 |
| MsgPackEvents.DecodedFits | internal/codec/msgpack.go:33-96 | every decoded event fits |
| MsgPackEvents.LongFieldIsLost | internal/codec/msgpack.go:98-105 | an event with a 65536-byte identifier is refused by the decoder because its length reads as 0 |
| MsgPackEvents.ExtensionRejected | internal/codec/msgpack.go:92-94 | bytes added to anything the decoder accepts are reported as exactly that many trailing bytes |
| MsgPackEvents.PrefixRejected | internal/codec/msgpack.go:33-96 | every proper prefix of anything the decoder accepts is reported as input that ended too soon |
| MsgPackLayout.StringIs | internal/codec/msgpack.go:98-105 | the bytes of a string: its length in the first byte below 32, else in two more |
| MsgPackLayout.IntIs | internal/codec/msgpack.go:107-113 | the bytes of an integer: one byte from 0 to 127, else 0xd3 and eight bytes in big-endian order |
| MsgPackLayout.ListIs | internal/codec/msgpack.go:115-125 | the bytes of a list: its length in the first byte below 16, else in two more, and then its strings |
| MsgPackLayout.EventLayout | internal/codec/msgpack.go:13-31 | an event is the head of an array of fifteen and then its fields in this order |
| MsgPackLayout.ProfileLayout | internal/codec/cache.go:25-37 | a profile is the head of an array of six and then its fields in this order |
| MsgPackLayout.HeadsRead | internal/codec/msgpack.go:131-196 | reading: which first bytes announce a string, a list or an integer, and what they say |
| MsgPackLayout.WideIntReads | internal/codec/msgpack.go:178-196 | reading: a wide integer is the signed reading of its eight bytes |
| MsgPackLayout.OtherHeadsAreRefused | internal/codec/msgpack.go:131-196 | any other first byte is refused |
| MsgPackLayout.OtherCountsAreRefused | internal/codec/msgpack.go:33-43 | an array of any other length is not an event, nor a profile |
| Profiles.Validate | internal/codec/cache.go:133-153 | succeeds exactly for profiles with receiver, bank, non-negative risk and 0 <= resolved < expires |
| CborProfiles.Marshal | internal/codec/cache.go:79-91 | refuses exactly the invalid profiles, with the first failing check, and otherwise gives the encoding |
| CborProfiles.Unmarshal | internal/codec/cache.go:93-131 | the six reads in order give what the parsing function gives |
| CborProfiles.RoundTrip | internal/codec/cache.go:79-131 | every profile that is encoded survives |
| CborProfiles.ExtensionRejected | internal/codec/cache.go:127-129 | bytes added to anything the decoder accepts are reported as trailing bytes |
| CborProfiles.PrefixRejected | internal/codec/cache.go:93-131 | every proper prefix of anything the decoder accepts is input that ended too soon |
| MsgPackProfiles.Marshal | internal/codec/cache.go:25-37 | refuses exactly the invalid profiles, with the first failing check, and otherwise gives the encoding |
| MsgPackProfiles.Unmarshal | internal/codec/cache.go:39-73 | the six reads in order give what the parsing function gives |
| MsgPackProfiles.RoundTripIffFits | internal/codec/cache.go:25-73 | a profile survives exactly when its three strings are shorter than 65536 |
| MsgPackProfiles.DecodedFits | internal/codec/cache.go:39-73 | every decoded profile fits |
| MsgPackProfiles.ExtensionRejected | internal/codec/cache.go:69-71 | bytes added to anything the decoder accepts are reported as trailing bytes |
| MsgPackProfiles.PrefixRejected | internal/codec/cache.go:39-73 | every proper prefix of anything the decoder accepts is input that ended too soon |
| TokenBucket.WithDefaults | internal/ratelimit/limiter.go:26-41 | each positive setting is kept; the others become 60, the capacity and a minute |
| TokenBucket.Limiter.constructor | internal/ratelimit/limiter.go:26-41 | starts with no buckets and the completed settings |
| TokenBucket.Limiter.Allow | internal/ratelimit/limiter.go:49-74 | new buckets and answer are those of the step function, 64-bit wrap-around of the refill included |
| TokenBucket.RefillIsIdealIff | internal/ratelimit/limiter.go:61-66 | one refill is the capped sum exactly when that sum fits in 64 bits or its low 64 bits are a number from the capacity to the largest |
| TokenBucket.RefillIsNotMore | internal/ratelimit/limiter.go:61-66 | an overflow never grants more tokens than the capped sum |
| TokenSafety.LazyIsEagerIff | internal/ratelimit/limiter.go:49-74 | over a span of time the answers are, on every trace, those of a bucket topped up, capped, at every instant first + k * RefillEvery, exactly when Capacity - 1 + RefillTokens * (whole periods of the span) fits in 64 bits |
| TokenSafety.LazyRefinesEager | internal/ratelimit/limiter.go:49-74 | given that room, the same for one trace, whatever the clock does within the span |
| TokenSafety.OverflowStarves | internal/ratelimit/limiter.go:61-66 | at the first number of periods that overflows, the lazy bucket refuses a request though the eager one is full |
| TokenSafety.HugeRefillsStarve | internal/ratelimit/limiter.go:61-66 | a setting and two requests on which that happens |
| TokenSafety.BurstIsBounded | internal/ratelimit/limiter.go:49-74 | on a non-decreasing clock the requests accepted for a key in [s, e] are at most Capacity + RefillTokens * (ticks in (s, e]), even when refills overflow |
| TokenSafety.TicksUptoIff | internal/ratelimit/limiter.go:60-68 | the tick count used in the bound: the k-th tick has come by t exactly when k is at most the count at t |
| LeakyBucket.WithDefaults | internal/ratelimit/strategies.go:140-152 | each positive setting is kept; the others become 60 and a second |
| LeakyBucket.Limiter.constructor | internal/ratelimit/strategies.go:140-152 | starts with no buckets and the completed settings |
| LeakyBucket.Limiter.Allow | internal/ratelimit/strategies.go:160-185 | new buckets and answer are those of the step function, restart at the zero time included |
| BucketEquivalence.LeakyIsToken | internal/ratelimit/strategies.go:160-185 | on every trace over readings that avoid the zero time and do not straddle it, and with room in the token bucket, a leaky bucket answers as the token bucket with RefillTokens 1, and afterwards every key has the same instant and level = Capacity - tokens |
| BucketEquivalence.LeakyIsTokenForIff | internal/ratelimit/strategies.go:160-185 | on readings after the zero time a leaky bucket agrees with its token bucket on every trace over a span exactly when Capacity - 1 + (whole periods of the span) fits in 64 bits |
| BucketEquivalence.LeakyIsTokenIff | internal/ratelimit/strategies.go:160-185 | the two agree on all traces over a set of readings, for all settings with that room, exactly when the set holds neither the zero time nor two readings a < 0 < b < -a |
| BucketEquivalence.ZeroTimeDiffers | internal/ratelimit/strategies.go:165-169 | two requests at the zero time on which they differ |
| BucketEquivalence.CrossingDiffers | internal/ratelimit/strategies.go:170-177 | three requests around the zero time on which they differ |
| SlidingWindow.Limiter.constructor | internal/ratelimit/strategies.go:79-91 | starts with an empty log and the completed settings |
| SlidingWindow.Limiter.Allow | internal/ratelimit/strategies.go:99-121 | the pruning loop, the test and the append give the step function's log and answer |
| SlidingWindow.WindowIsExact | internal/ratelimit/strategies.go:99-121 | on a non-decreasing clock a request is accepted exactly when fewer than Limit were accepted for its key in (now - Window, now], and the stored list is then exactly the accepted requests of that window, in order |
| SlidingWindow.WindowIsBounded | internal/ratelimit/strategies.go:99-121 | no half-open interval of length Window holds more than Limit accepted requests for a key |
| SlidingWindow.PrunedIsAfter | internal/ratelimit/strategies.go:106-113 | dropping the leading old entries of a sorted list keeps exactly the entries after the cutoff |
| WindowSettings.WithDefaults | internal/ratelimit/strategies.go:29-41 | each positive setting is kept; the others become 60 and a minute |
| FixedWindow.Limiter.constructor | internal/ratelimit/strategies.go:29-41 | starts with no windows and the completed settings |
| FixedWindow.Limiter.Allow | internal/ratelimit/strategies.go:49-65 | new windows and answer are those of the step function; which requests that accepts is stated by FixedWindow.AllowsExactlyWhen |
| FixedWindow.AllowsExactlyWhen | internal/ratelimit/strategies.go:49-65 | on a non-decreasing clock that never reads the zero time, a request is accepted exactly when the last window opened for its key has passed or has accepted fewer than Limit, where a window is opened by the first accepted instant that the one before it does not reach |
| FixedWindow.EveryKeyIsCounted | internal/ratelimit/strategies.go:49-65 | on such a clock the stored window of a key is the last one opened by its accepted requests, and its count is the number of those that fall in it |
| FixedWindow.WindowIsBounded | internal/ratelimit/strategies.go:49-65 | on a non-decreasing clock that never reads the zero time, any half-open interval of length Window holds at most 2 * Limit - 1 accepted requests for a key |
| FixedWindow.BoundIsTight | internal/ratelimit/strategies.go:49-65 | for every limit and every window of two instants or more some trace reaches 2 * Limit - 1 |
| FixedWindow.CrowdIsAdmissible | internal/ratelimit/strategies.go:49-65 | that trace is non-decreasing and avoids the zero time |
| FixedWindow.BoundedIff | internal/ratelimit/strategies.go:55-58 | the bound holds on all traces over a set of readings, for all settings, exactly when the zero time is not among them |
| FixedWindow.ZeroTimeIsUnlimited | internal/ratelimit/strategies.go:55-58 | at the zero time every request is accepted |

## Left out

- HTTP routing, HMAC checks, authentication, process wiring other than the worker's batch loop, configuration, metrics and tracing (`internal/api`, `cmd`, `internal/app`, `internal/config`, `internal/observability`): plumbing over libraries.
- The PostgreSQL store and migrations: the atomic steps of the memory store stand for its transactions; no equivalence with the SQL is claimed.
- The JSON codec: a thin wrapper over a library.
- The DICT resolver, the SPI simulator and the message topology: outside answers are arbitrary inputs here.
- Event payloads, event ids and audit metadata: an event keeps kind, tenant, account, transfer, correlation and time.
- Failure of event construction: it only fails on payloads that cannot be marshalled, and the source then drops the event silently.
- Context cancellation: a call or relay may be abandoned at any step, which covers it for safety, but its error answers are not modelled.
- Health, Outbox and Audit reads of the store: they return copies.
- Delivery order per account through the relay: a failed record is rescheduled while later ones go on, so the code does not promise it.
- Go allocation, capacity hints and the difference between a nil and an empty slice in the codecs; a negative decoded array length, which makes the source panic, is an error here.
- Aliasing of slices: the sliding window's in-place `copy` and the buckets held by reference are fields that the methods reassign.
- Mutexes: each store call and each `Allow` is one atomic step.
- Clock readings further apart than the longest 64-bit duration: the difference is held at the ends of the range as the library does, and the token and leaky bucket results ask for readings within that span.
- Store.MemoryStore.PendingSubmissions: ties in age may come out in any order, because the source sorts the values of a map unstably; the sort is written as insertion by age.
- Drain.Relay.Drain: describes a drain without other relays in between; interleaved drains are the subject of RelaySafety, to which DrainSteps ties it.
- Service.Service.SubmitPendingSpi: describes a batch by a single worker; interleaved submissions are the subject of SwitchSafety.
- Service.Service.RunBatches: the worker's ticker and its shutdown; it states what any number of its batches amount to.
- Prefixes and extensions of Protocol Buffers messages: the format is not self-delimiting, and concatenation means merge.
