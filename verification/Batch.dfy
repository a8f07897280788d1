/** Batches of SPI submissions by a single worker: what one submission does, what
    one batch does, and how many batches drain the backlog. */
module Batch {
  import opened Wrappers
  import opened Text
  import opened Instants
  import opened Rail
  import opened Events
  import opened Outbox
  import opened Store
  import opened Calls
  import opened Solo

  /** The SPI client, answering per transfer. */
  type Client = string -> Result<SpiMessage, string>

  datatype BatchResult = BatchResult(scanned: nat, submitted: nat, replayed: nat, skipped: nat)

  /** The readings of the i-th submission of a batch; reading 0 was the scan. */
  function Readings(clock: Clock, i: nat): Clock {
    (k: nat) => clock(1 + 4 * i + k)
  }

  predicate Answered(m: Result<SpiMessage, string>) {
    m.Ok? && Trim(m.value.messageId) != "" && Trim(m.value.endToEndId) != ""
  }

  /** `t'` is `t`, approved under the answered identifiers. */
  predicate Approves(t: Transfer, t': Transfer, m: Result<SpiMessage, string>) {
    m.Ok? && Core(t') == Core(t) && t'.status.Approved?
    && t'.spiMessageId == m.value.messageId && t'.endToEndId == m.value.endToEndId
  }

  /** Ids and tenants that trimming leaves alone, as the service stores them. */
  predicate Clean(t: Transfer) {
    Trim(t.tenant) == t.tenant != "" && Trim(t.id) == t.id != ""
  }

  /** A submission that is claimed in time and answered approves its transfer and
      touches no other. */
  lemma SubmissionGoesThrough(s: State, clock: Clock, t: Transfer, token: string, outside: Input)
    requires Filed(s) && t.id in s.transfers && s.transfers[t.id] == t && Clean(t)
    requires Pending(t, clock(1)) && Trim(token) != "" && clock(1) < clock(0) + SPI_CLAIM_TTL
    requires outside.SpiAnswer? && Answered(outside.answer)
    ensures var f := Alone(s, clock, 1, BeginSubmit(t.tenant, t.id, t.correlation, token, clock(0)), outside);
            && f.answer.Submitted? && !f.answer.replay
            && Approves(t, f.answer.transfer, outside.answer)
            && f.state.transfers == s.transfers[t.id := f.answer.transfer]
  {
    var p := SubmitClaim(t.tenant, t.id, Trim(t.correlation), token, clock(0) + SPI_CLAIM_TTL);
    hide Advance, Alone, Trim, Approves, Filed, Pending, Core;
    AloneStep(s, clock, 1, p, outside);
    ClaimTaken(s, clock(1), p);
    var e := Advance(s, clock(1), p, Nothing);
    AnsweredCallRecords(e.state, clock, e.move.phase, outside);
    var f := Alone(e.state, clock, 2, e.move, outside);
    ApprovesSameCore(t, e.move.phase.current, f.answer.transfer, outside.answer);
    assert s.transfers[t.id := e.move.phase.current][t.id := f.answer.transfer] == s.transfers[t.id := f.answer.transfer];
  }

  lemma AnsweredCallRecords(s: State, clock: Clock, p: Phase, outside: Input)
    requires p.SubmitCall? && p.id in s.transfers && s.transfers[p.id].id == p.id && s.transfers[p.id].tenant == p.tenant
    requires s.transfers[p.id].status.Accepted? && s.transfers[p.id].claimToken == p.token && Trim(p.token) != ""
    requires outside.SpiAnswer? && Answered(outside.answer)
    ensures var f := Alone(s, clock, 2, Goes(p), outside);
            && f.answer.Submitted? && !f.answer.replay
            && Approves(s.transfers[p.id], f.answer.transfer, outside.answer)
            && f.state.transfers == s.transfers[p.id := f.answer.transfer]
  {
    hide Advance, Alone, Trim, Approves;
    AloneStep(s, clock, 2, p, outside);
    ReturnTaken(s, clock(2), p, outside);
    var p3 := Advance(s, clock(2), p, outside).move.phase;
    AloneStep(s, clock, 3, p3, outside);
    RecordTaken(s, clock(3), p3);
    var e3 := Advance(s, clock(3), p3, Nothing);
    AloneEnds(e3.state, clock, 4, e3.move, outside);
  }

  lemma ReturnTaken(s: State, now: Instant, p: Phase, i: Input)
    requires p.SubmitCall? && i.SpiAnswer? && i.answer.Ok?
    ensures var e := Advance(s, now, p, i);
            && e.state == s && e.move.Goes? && e.move.phase.SubmitRecord? && e.move.phase.message == i.answer.value
            && e.move.phase.tenant == p.tenant && e.move.phase.id == p.id && e.move.phase.token == p.token
  {
  }

  lemma ClaimTaken(s: State, now: Instant, p: Phase)
    requires p.SubmitClaim? && Filed(s) && p.id in s.transfers && s.transfers[p.id].tenant == p.tenant
    requires Pending(s.transfers[p.id], now) && Trim(p.token) != "" && now < p.until
    ensures var e := Advance(s, now, p, Nothing);
            && e.move.Goes? && e.move.phase.SubmitCall? && e.move.phase.token == p.token
            && e.move.phase.tenant == p.tenant && e.move.phase.id == p.id && e.move.phase.current.id == p.id
            && e.state.transfers == s.transfers[p.id := e.move.phase.current]
            && e.move.phase.current.status.Accepted? && e.move.phase.current.claimToken == p.token
            && e.move.phase.current.tenant == p.tenant
            && Core(e.move.phase.current) == Core(s.transfers[p.id])
  {
  }

  lemma ApprovesSameCore(t: Transfer, claimed: Transfer, t': Transfer, m: Result<SpiMessage, string>)
    requires Core(claimed) == Core(t) && Approves(claimed, t', m)
    ensures Approves(t, t', m)
  {
  }

  lemma RecordTaken(s: State, now: Instant, p: Phase)
    requires p.SubmitRecord? && p.id in s.transfers && s.transfers[p.id].id == p.id && s.transfers[p.id].tenant == p.tenant
    requires s.transfers[p.id].status.Accepted? && s.transfers[p.id].claimToken == p.token && Trim(p.token) != ""
    requires Trim(p.message.messageId) != "" && Trim(p.message.endToEndId) != ""
    ensures var e := Advance(s, now, p, Nothing);
            && e.move.Ends? && e.move.answer.Submitted? && !e.move.answer.replay
            && Approves(s.transfers[p.id], e.move.answer.transfer, Ok(p.message))
            && e.state.transfers == s.transfers[p.id := e.move.answer.transfer]
  {
  }

  // --------------------------------------------------------- what is counted

  predicate Fresh(a: Answer) { a.Submitted? && !a.replay }
  predicate Repeated(a: Answer) { a.Submitted? && a.replay }
  predicate Skipped(a: Answer) { a == Refused(Conflict) }

  function Count(answers: seq<Answer>, what: Answer -> bool): nat {
    if answers == [] then 0 else Count(answers[..|answers| - 1], what) + if what(answers[|answers| - 1]) then 1 else 0
  }

  lemma NothingCounted()
    ensures Count([], Fresh) == Count([], Repeated) == Count([], Skipped) == 0
  {
  }

  lemma CountOneMore(answers: seq<Answer>, a: Answer, what: Answer -> bool)
    ensures Count(answers + [a], what) == Count(answers, what) + if what(a) then 1 else 0
  {
    assert (answers + [a])[..|answers|] == answers;
  }

  /** The submissions of a batch, one after another: `states[i]` is the store before the i-th and
      `answers[i]` is what it came to. */
  ghost predicate OneByOne(states: seq<State>, answers: seq<Answer>, batch: seq<Transfer>, tokens: nat -> string, client: Client,
                           clock: Clock)
  {
    && |states| == |answers| + 1 && |answers| <= |batch|
    && forall i :: 0 <= i < |answers| ==>
         Finished(states[i + 1], answers[i])
         == Alone(states[i], Readings(clock, i), 1,
                  BeginSubmit(batch[i].tenant, batch[i].id, batch[i].correlation, tokens(i), Readings(clock, i)(0)),
                  SpiAnswer(client(batch[i].id)))
  }

  /** A submission ends with a transfer or with a refusal. */
  lemma SubmissionAnswers(s: State, clock: Clock, m: Move, outside: Input, k: nat)
    requires outside.SpiAnswer?
    requires m.Ends? ==> m.answer.Submitted? || m.answer.Refused?
    requires m.Goes? ==> m.phase.SubmitClaim? || m.phase.SubmitCall? || m.phase.SubmitRecord? || m.phase.SubmitRelease?
    ensures var a := Alone(s, clock, k, m, outside).answer; a.Submitted? || a.Refused?
    decreases if m.Goes? then Rank(m.phase) else 0
  {
    if m.Goes? {
      AloneStep(s, clock, k, m.phase, outside);
      var e := Advance(s, clock(k), m.phase, if Fits(m.phase, outside) then outside else Nothing);
      SubmissionAnswers(e.state, clock, e.move, outside, k + 1);
    }
  }

  // ------------------------------------------------------------- one batch

  /** Nothing goes wrong: tokens are usable, claims are taken in time, and the
      client answers. */
  ghost predicate Smooth(s: State, tokens: nat -> string, client: Client, clock: Clock) {
    && (forall id :: id in s.transfers ==> Clean(s.transfers[id]))
    && (forall i: nat :: Trim(tokens(i)) != "")
    && (forall i: nat :: clock(0) <= Readings(clock, i)(1) < Readings(clock, i)(0) + SPI_CLAIM_TTL)
    && (forall id :: id in s.transfers ==> Answered(client(id)))
  }

  function FirstIds(batch: seq<Transfer>, n: nat): set<string>
    requires n <= |batch|
  {
    set i | 0 <= i < n :: batch[i].id
  }

  /** The first `n` of the batch are approved and nothing else has changed. */
  ghost predicate Done(s: State, s': State, batch: seq<Transfer>, n: nat, client: Client)
    requires n <= |batch|
  {
    && s'.transfers.Keys == s.transfers.Keys
    && (forall i :: 0 <= i < n ==>
          batch[i].id in s.transfers
          && Approves(s.transfers[batch[i].id], s'.transfers[batch[i].id], client(batch[i].id)))
    && (forall id :: id in s.transfers && id !in FirstIds(batch, n) ==> s'.transfers[id] == s.transfers[id])
  }

  lemma DoneOneMore(s: State, s1: State, s2: State, batch: seq<Transfer>, n: nat, client: Client, t': Transfer)
    requires n < |batch| && batch[n].id in s.transfers && batch[n].id !in FirstIds(batch, n)
    requires Done(s, s1, batch, n, client)
    requires s2.transfers == s1.transfers[batch[n].id := t'] && Approves(s.transfers[batch[n].id], t', client(batch[n].id))
    ensures Done(s, s2, batch, n + 1, client)
  {
    hide Approves;
    var x := batch[n].id;
    forall i | 0 <= i < n + 1
      ensures batch[i].id in s.transfers
      ensures Approves(s.transfers[batch[i].id], s2.transfers[batch[i].id], client(batch[i].id))
    {
      assert i < n ==> batch[i].id in FirstIds(batch, n);
    }
    FirstIdsGrow(batch, n);
    hide FirstIds;
    forall id | id in s.transfers && id !in FirstIds(batch, n + 1)
      ensures s2.transfers[id] == s.transfers[id]
    {
      assert id != x && id !in FirstIds(batch, n);
    }
  }

  lemma FirstIdsGrow(batch: seq<Transfer>, n: nat)
    requires n < |batch|
    ensures FirstIds(batch, n + 1) == FirstIds(batch, n) + {batch[n].id}
  {
  }

  lemma NextIsUntouched(s: State, s': State, now: Instant, limit: nat, batch: seq<Transfer>, n: nat, client: Client)
    requires OldestPending(s, now, limit, batch) && n < |batch| && Done(s, s', batch, n, client)
    ensures batch[n].id in s'.transfers && s'.transfers[batch[n].id] == batch[n]
    ensures batch[n].id in s.transfers && batch[n].id !in FirstIds(batch, n)
  {
    assert batch[n].id in PendingIds(s, now);
    assert forall k :: 0 <= k < n ==> batch[k].id != batch[n].id;
  }

  /** A finished batch leaves pending exactly what it did not take. */
  lemma BatchShrinksBacklog(s: State, s': State, now: Instant, limit: nat, batch: seq<Transfer>, client: Client, at: Instant)
    requires OldestPending(s, now, limit, batch) && Done(s, s', batch, |batch|, client)
    ensures PendingIds(s', at) == PendingIds(s, at) - Ids(batch)
  {
    assert FirstIds(batch, |batch|) == Ids(batch);
    forall id | id in Ids(batch)
      ensures id !in PendingIds(s', at)
    {
      var i :| 0 <= i < |batch| && batch[i].id == id;
    }
  }

  // ----------------------------------------------------------- many batches

  /** One round: a batch is taken out of the backlog and nothing else joins it. */
  ghost predicate Round(s: State, now: Instant, s': State, now': Instant, limit: nat) {
    exists batch :: OldestPending(s, now, limit, batch) && PendingIds(s', now') == PendingIds(s, now) - Ids(batch)
  }

  ghost predicate Rounds(states: seq<State>, times: seq<Instant>, limit: nat) {
    |states| == |times| > 0
    && forall i :: 0 <= i < |states| - 1 ==> Round(states[i], times[i], states[i + 1], times[i + 1], limit)
  }

  /** A finished batch is a round, if time alone makes nothing eligible before the next one. */
  lemma BatchIsRound(s: State, now: Instant, s': State, now': Instant, limit: nat, batch: seq<Transfer>, client: Client)
    requires OldestPending(s, now, limit, batch) && Done(s, s', batch, |batch|, client)
    requires PendingIds(s, now') == PendingIds(s, now)
    ensures Round(s, now, s', now', limit)
  {
    hide OldestPending, Done, PendingIds, Ids;
    BatchShrinksBacklog(s, s', now, limit, batch, client, now');
  }

  /** What batches without mishap can do to a store: each transfer is as it was, or approved. */
  ghost predicate Advanced(s: State, s': State) {
    && s'.transfers.Keys == s.transfers.Keys
    && (forall id :: id in s.transfers ==>
          s'.transfers[id] == s.transfers[id]
          || (Core(s'.transfers[id]) == Core(s.transfers[id]) && s'.transfers[id].status.Approved?))
  }

  lemma AdvancedTransitive(a: State, b: State, c: State)
    requires Advanced(a, b) && Advanced(b, c)
    ensures Advanced(a, c)
  {
    hide Core;
  }

  lemma DoneAdvances(s: State, s': State, batch: seq<Transfer>, client: Client)
    requires Done(s, s', batch, |batch|, client)
    ensures Advanced(s, s')
  {
    hide Core;
    forall id | id in s.transfers && s'.transfers[id] != s.transfers[id]
      ensures Core(s'.transfers[id]) == Core(s.transfers[id]) && s'.transfers[id].status.Approved?
    {
      assert id in FirstIds(batch, |batch|);
      var i :| 0 <= i < |batch| && batch[i].id == id;
    }
  }

  /** What stays smooth, and what time alone leaves eligible, does so after any batches. */
  lemma AdvancedStaysSmooth(s: State, s': State, tokens: nat -> string, client: Client, clock: Clock)
    requires Advanced(s, s') && Smooth(s, tokens, client, clock)
    ensures Smooth(s', tokens, client, clock)
  {
    hide Trim, Answered;
    forall id | id in s'.transfers
      ensures Clean(s'.transfers[id])
    {
      assert Clean(s.transfers[id]);
      assert s'.transfers[id].tenant == Core(s'.transfers[id]).tenant && s'.transfers[id].id == Core(s'.transfers[id]).id;
    }
  }

  lemma AdvancedStaysSteady(s: State, s': State, now: Instant, now': Instant)
    requires Advanced(s, s') && PendingIds(s, now') == PendingIds(s, now)
    ensures PendingIds(s', now') == PendingIds(s', now)
  {
    hide Core;
    forall id | id in s.transfers
      ensures id in PendingIds(s', now') <==> id in PendingIds(s', now)
    {
      assert id in PendingIds(s, now') <==> id in PendingIds(s, now);
    }
  }

  lemma RoundTakes(s: State, now: Instant, s': State, now': Instant, limit: nat)
    requires Round(s, now, s', now', limit)
    ensures |PendingIds(s', now')| == if |PendingIds(s, now)| <= limit then 0 else |PendingIds(s, now)| - limit
  {
    var batch :| OldestPending(s, now, limit, batch) && PendingIds(s', now') == PendingIds(s, now) - Ids(batch);
    BatchSize(batch);
    assert Ids(batch) <= PendingIds(s, now);
  }

  lemma BatchSize(batch: seq<Transfer>)
    requires forall i, j :: 0 <= i < j < |batch| ==> batch[i].id != batch[j].id && batch[i].createdAt <= batch[j].createdAt
    ensures |Ids(batch)| == |batch|
  {
    DistinctIdsCount(batch);
  }

  /** What `m` rounds of at most `limit` leave of a backlog of `n`. */
  function Left(n: nat, m: nat, limit: nat): nat {
    if n <= m * limit then 0 else n - m * limit
  }

  lemma LeftOneMore(n: nat, m: nat, limit: nat)
    requires m > 0
    ensures Left(n, m, limit) == if Left(n, m - 1, limit) <= limit then 0 else Left(n, m - 1, limit) - limit
  {
    assert m * limit == (m - 1) * limit + limit;
  }

  /** After `m` rounds of at most `limit`, a backlog of `n` is down to
      `max(0, n - m * limit)`; so it is drained exactly from round ceil(n / limit) on. */
  lemma {:induction false} RoundsDrain(states: seq<State>, times: seq<Instant>, limit: nat)
    requires Rounds(states, times, limit) && limit > 0
    ensures var n := |PendingIds(states[0], times[0])|; var m := |states| - 1;
            var left := |PendingIds(states[m], times[m])|;
            left == Left(n, m, limit) && (left == 0 <==> (n + limit - 1) / limit <= m)
    decreases |states|
  {
    var n, m := |PendingIds(states[0], times[0])|, |states| - 1;
    Ceiling(n, limit, m);
    hide Round, PendingIds;
    if m > 0 {
      RoundsDrain(states[..m], times[..m], limit);
      RoundTakes(states[m - 1], times[m - 1], states[m], times[m], limit);
      LeftOneMore(n, m, limit);
    }
    LeftIsNothing(n, m, limit);
    hide Left;
  }

  lemma LeftIsNothing(n: nat, m: nat, limit: nat)
    ensures Left(n, m, limit) == 0 <==> n <= m * limit
    ensures Left(n, 0, limit) == n
  {
  }

  lemma Ceiling(n: nat, limit: nat, m: nat)
    requires limit > 0
    ensures n <= m * limit <==> (n + limit - 1) / limit <= m
  {
    var q := (n + limit - 1) / limit;
    assert q * limit <= n + limit - 1 < q * limit + limit;
    if q <= m {
      assert q * limit <= m * limit;
    } else {
      assert (m + 1) * limit <= q * limit;
    }
  }
}
