/** The language of a transfer's outbox events.  `Replay` reads event kinds in
    sequence order; a legal word ends at a status, and reading it also yields the
    audit actions that the state changes must have left behind. */
module Lifecycle {
  import opened Wrappers
  import opened Instants
  import opened Rail
  import opened Events
  import opened Outbox

  datatype Stage =
    | Start | Requested | Resolved | Scored | Accepting | Blocking | Submitting
    | At(status: Status)
    | Illegal

  /** Where a word has led, and the audit actions it implies. */
  datatype Trace = Trace(stage: Stage, actions: seq<Action>)

  const FRESH: Trace := Trace(Start, [])

  function Next(t: Trace, k: Kind): Trace {
    match (t.stage, k)
    case (Start, TransferRequested) => t.(stage := Requested)
    case (Requested, DictKeyResolved) => t.(stage := Resolved)
    case (Resolved, FraudScored) => t.(stage := Scored)
    case (Scored, TransferAccepted) => Trace(Accepting, t.actions + [TransferDecided])
    case (Scored, ReviewRequested) => Trace(At(Review), t.actions + [TransferDecided])
    case (Scored, TransferBlocked) => Trace(At(Blocked), t.actions + [TransferDecided])
    case (Accepting, SpiSubmissionRequested) => t.(stage := At(Accepted))
    case (At(Review), ReviewApproved) => Trace(Accepting, t.actions + [ReviewRecorded])
    case (At(Review), ReviewBlocked) => Trace(Blocking, t.actions + [ReviewRecorded])
    case (Blocking, TransferBlocked) => t.(stage := At(Blocked))
    case (At(Accepted), SpiMessageCreated) => Trace(Submitting, t.actions + [SubmissionRecorded])
    case (Submitting, TransferApproved) => t.(stage := At(Approved))
    case (At(Approved), TransferSettled) => Trace(At(Settled), t.actions + [SettlementRecorded])
    case (At(Approved), TransferRejected) => Trace(At(Rejected), t.actions + [SettlementRecorded])
    case _ => t.(stage := Illegal)
  }

  function Replay(t: Trace, word: seq<Kind>): Trace
    decreases word
  {
    if word == [] then t else Replay(Next(t, word[0]), word[1..])
  }

  lemma {:induction false} ReplayConcat(t: Trace, a: seq<Kind>, b: seq<Kind>)
    ensures Replay(t, a + b) == Replay(Replay(t, a), b)
    decreases a
  {
    if a == [] {
      assert a + b == b;
    } else {
      ReplayConcat(Next(t, a[0]), a[1..], b);
      assert (a + b)[1..] == a[1..] + b;
    }
  }

  lemma ReplayTwo(t: Trace, a: Kind, b: Kind)
    ensures Replay(t, [a, b]) == Next(Next(t, a), b)
  {
    assert [a, b][1..] == [b];
    assert Replay(t, [a, b]) == Replay(Next(t, a), [b]);
  }

  // -------------------------------------------------- words of one transfer

  /** The event kinds recorded for one transfer, in sequence order. */
  function KindsOf(records: seq<OutboxRecord>, id: string): seq<Kind> {
    if records == [] then []
    else
      var last := records[|records| - 1];
      KindsOf(records[..|records| - 1], id) + (if last.event.transferId == id then [last.event.kind] else [])
  }

  function ActionsOf(audit: seq<AuditRecord>, id: string): seq<Action> {
    if audit == [] then []
    else
      var last := audit[|audit| - 1];
      ActionsOf(audit[..|audit| - 1], id) + (if last.transferId == id then [last.action] else [])
  }

  function Kinds(events: seq<Event>): (r: seq<Kind>)
    ensures |r| == |events|
  {
    seq(|events|, i requires 0 <= i < |events| => events[i].kind)
  }

  predicate AllFor(events: seq<Event>, id: string) {
    forall i :: 0 <= i < |events| ==> events[i].transferId == id
  }

  /** Enqueued events lengthen the word of their own transfer and no other. */
  lemma {:induction false} KindsOfEnqueue(records: seq<OutboxRecord>, nextSeq: int, events: seq<Event>, id: string, x: string)
    requires AllFor(events, id)
    ensures KindsOf(Enqueue(records, nextSeq, events), x)
         == if x == id then KindsOf(records, x) + Kinds(events) else KindsOf(records, x)
  {
    if events == [] {
      assert Enqueue(records, nextSeq, events) == records;
      assert Kinds(events) == [];
    } else {
      var init := events[..|events| - 1];
      KindsOfEnqueue(records, nextSeq, init, id, x);
      var all := Enqueue(records, nextSeq, events);
      assert all[..|all| - 1] == Enqueue(records, nextSeq, init);
      assert Kinds(events) == Kinds(init) + [events[|events| - 1].kind];
    }
  }

  lemma ActionsOfAppend(audit: seq<AuditRecord>, record: AuditRecord, x: string)
    ensures ActionsOf(audit + [record], x)
         == if record.transferId == x then ActionsOf(audit, x) + [record.action] else ActionsOf(audit, x)
  {
    var all := audit + [record];
    assert all[..|all| - 1] == audit;
  }

  /** Delivery bookkeeping does not show in a word. */
  lemma {:induction false} KindsOfSameEvents(a: seq<OutboxRecord>, b: seq<OutboxRecord>, id: string)
    requires |a| == |b| && forall i :: 0 <= i < |a| ==> a[i].event == b[i].event
    ensures KindsOf(a, id) == KindsOf(b, id)
  {
    if a != [] {
      KindsOfSameEvents(a[..|a| - 1], b[..|b| - 1], id);
    }
  }

  // ------------------------------------------ the words the service appends

  function Note(kind: Kind, t: Transfer, correlation: string, at: Instant): Event {
    Event(kind, t.tenant, t.account, t.id, correlation, at)
  }

  function CreationKinds(status: Status): seq<Kind> {
    [TransferRequested, DictKeyResolved, FraudScored]
    + (match status
       case Accepted => [TransferAccepted, SpiSubmissionRequested]
       case Review => [ReviewRequested]
       case Blocked => [TransferBlocked]
       case _ => [])
  }

  lemma CreationWord(status: Status)
    requires status.Accepted? || status.Review? || status.Blocked?
    ensures Replay(FRESH, CreationKinds(status)) == Trace(At(status), [TransferDecided])
  {
    var w := CreationKinds(status);
    var scored := Trace(Scored, []);
    var tail := w[3..];
    assert w == [TransferRequested] + ([DictKeyResolved] + ([FraudScored] + tail));
    ReplayConcat(FRESH, [TransferRequested], [DictKeyResolved] + ([FraudScored] + tail));
    ReplayConcat(Trace(Requested, []), [DictKeyResolved], [FraudScored] + tail);
    ReplayConcat(Trace(Resolved, []), [FraudScored], tail);
    assert Replay(FRESH, w) == Replay(scored, tail);
    if status.Accepted? {
      assert tail == [TransferAccepted, SpiSubmissionRequested];
      ReplayTwo(scored, TransferAccepted, SpiSubmissionRequested);
    } else {
      assert tail == [w[3]] && tail[1..] == [];
    }
  }

  function ReviewKinds(status: Status): seq<Kind> {
    if status.Accepted? then [ReviewApproved, SpiSubmissionRequested] else [ReviewBlocked, TransferBlocked]
  }

  lemma ReviewWord(actions: seq<Action>, status: Status)
    requires status.Accepted? || status.Blocked?
    ensures Replay(Trace(At(Review), actions), ReviewKinds(status)) == Trace(At(status), actions + [ReviewRecorded])
  {
    ReplayTwo(Trace(At(Review), actions), ReviewKinds(status)[0], ReviewKinds(status)[1]);
  }

  const SUBMISSION_KINDS: seq<Kind> := [SpiMessageCreated, TransferApproved]

  lemma SubmissionWord(actions: seq<Action>)
    ensures Replay(Trace(At(Accepted), actions), SUBMISSION_KINDS) == Trace(At(Approved), actions + [SubmissionRecorded])
  {
    ReplayTwo(Trace(At(Accepted), actions), SpiMessageCreated, TransferApproved);
  }

  lemma SettlementWord(actions: seq<Action>, status: Status)
    requires status.Settled? || status.Rejected?
    ensures Replay(Trace(At(Approved), actions), [if status.Settled? then TransferSettled else TransferRejected])
         == Trace(At(status), actions + [SettlementRecorded])
  {
    var k := if status.Settled? then TransferSettled else TransferRejected;
    assert [k][1..] == [];
    assert Replay(Trace(At(Approved), actions), [k]) == Next(Trace(At(Approved), actions), k);
  }
}
