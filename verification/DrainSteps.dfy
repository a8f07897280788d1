/** A drain alone on the outbox, as steps of the relay world: claim, then publish and report
    record by record.  What is proved of every run of relays so holds of the relay object. */
module DrainSteps {
  import opened Wrappers
  import opened Instants
  import opened Rail
  import opened Events
  import opened Outbox
  import opened Retry
  import opened Relays
  import opened Drain

  /** One turn per record found, from the k-th on. */
  function Turns(r: nat, outcomes: Outcomes, clock: nat -> Instant, k: nat, n: nat): seq<Step>
    requires k <= n
    decreases n - k
  {
    if k == n then []
    else [Tick(clock(3 + k))] + ([Publish(r, outcomes(k))] + ([Report(r)] + Turns(r, outcomes, clock, k + 1, n)))
  }

  /** The claim, at the three readings it takes. */
  function Opening(r: nat, limit: int, token: string, clock: nat -> Instant, rest: seq<Step>): seq<Step> {
    [Tick(clock(0))] + ([Start(r, limit, token)] + ([Tick(clock(1))] + ([Check(r)] + ([Tick(clock(2))] + ([Take(r, clock(2))] + rest)))))
  }

  lemma Prepend(policy: Policy, w: World, a: Step, rest: seq<Step>)
    requires Enabled(w, a) && Runs(policy, Apply(policy, w, a), rest)
    ensures Runs(policy, w, [a] + rest) && Run(policy, w, [a] + rest) == Run(policy, Apply(policy, w, a), rest)
  {
    assert ([a] + rest)[1..] == rest;
    hide Enabled, Apply;
  }

  ghost predicate ClockGoesOn(clock: nat -> Instant) {
    forall i: nat, j: nat :: i < j ==> clock(i) <= clock(j)
  }

  /** The world halfway: `k` records reported, the relay at work on the rest, or gone. */
  ghost predicate Halfway(policy: Policy, w: World, r: nat, before: seq<OutboxRecord>, found: seq<OutboxRecord>, k: nat,
                          token: string, until: Instant, outcomes: Outcomes, clock: nat -> Instant)
  {
    && k <= |found| && w.clock <= clock(3 + k)
    && Drained(policy, before, w.records, found, k, token, until, outcomes, clock)
    && (if k < |found| then r in w.relays && w.relays[r] == Working(token, until, StampAll(found, token, until)[k..])
        else r !in w.relays)
  }

  /** What publishing the first record of `todo` at `at` and reporting it comes to. */
  lemma TurnStep(policy: Policy, w: World, r: nat, token: string, until: Instant, todo: seq<OutboxRecord>, x: OutboxRecord,
                 outcome: Option<string>, at: Instant)
    requires r in w.relays && todo != [] && w.relays[r] == Working(token, until, todo) && w.clock <= at
    requires todo[0] == Stamp(x, token, until) && token != ""
    requires 1 <= x.sequence <= |w.records| && w.records[x.sequence - 1] == Stamp(x, token, until)
    ensures Enabled(w, Tick(at))
    ensures var w1 := Apply(policy, w, Tick(at));
            && Enabled(w1, Publish(r, outcome))
            && var w2 := Apply(policy, w1, Publish(r, outcome));
               && Enabled(w2, Report(r))
               && var w3 := Apply(policy, w2, Report(r));
                  && w3.clock == at
                  && w3.records == w.records[x.sequence - 1 :=
                       match outcome
                       case None => Published(x, at)
                       case Some(text) => Failed(x, text, at + Backoff(policy, x.attempts + 1))]
                  && w3.relays == if |todo| == 1 then w.relays - {r} else w.relays[r := Working(token, until, todo[1..])]
  {
    hide Backoff;
  }

  lemma NextTurn(policy: Policy, w: World, r: nat, before: seq<OutboxRecord>, found: seq<OutboxRecord>, k: nat,
                 token: string, until: Instant, outcomes: Outcomes, clock: nat -> Instant)
    requires Halfway(policy, w, r, before, found, k, token, until, outcomes, clock)
    requires k < |found| && token != "" && ClockGoesOn(clock)
    ensures Enabled(w, Tick(clock(3 + k)))
    ensures var w1 := Apply(policy, w, Tick(clock(3 + k)));
            && Enabled(w1, Publish(r, outcomes(k)))
            && var w2 := Apply(policy, w1, Publish(r, outcomes(k)));
               && Enabled(w2, Report(r))
               && Halfway(policy, Apply(policy, w2, Report(r)), r, before, found, k + 1, token, until, outcomes, clock)
  {
    var todo := StampAll(found, token, until)[k..];
    assert todo[0] == Stamp(found[k], token, until);
    assert todo[1..] == StampAll(found, token, until)[k + 1..];
    assert clock(3 + k) <= clock(3 + (k + 1));
    DrainHolds(policy, before, w.records, found, k, token, until, outcomes, clock);
    hide Drained, StampAll, Apply, Enabled, Backoff;
    TurnStep(policy, w, r, token, until, todo, found[k], outcomes(k), clock(3 + k));
  }

  lemma {:induction false} TurnsRun(policy: Policy, w: World, r: nat, before: seq<OutboxRecord>, found: seq<OutboxRecord>, k: nat,
                                    token: string, until: Instant, outcomes: Outcomes, clock: nat -> Instant)
    requires Halfway(policy, w, r, before, found, k, token, until, outcomes, clock) && token != "" && ClockGoesOn(clock)
    ensures var steps := Turns(r, outcomes, clock, k, |found|);
            && Runs(policy, w, steps)
            && Halfway(policy, Run(policy, w, steps), r, before, found, |found|, token, until, outcomes, clock)
    decreases |found| - k
  {
    if k < |found| {
      NextTurn(policy, w, r, before, found, k, token, until, outcomes, clock);
      hide Halfway, Apply, Enabled, Runs, Run;
      var tick, publish, report := Tick(clock(3 + k)), Publish(r, outcomes(k)), Report(r);
      var w1 := Apply(policy, w, tick);
      var w2 := Apply(policy, w1, publish);
      var rest := Turns(r, outcomes, clock, k + 1, |found|);
      TurnsRun(policy, Apply(policy, w2, report), r, before, found, k + 1, token, until, outcomes, clock);
      Prepend(policy, w2, report, rest);
      Prepend(policy, w1, publish, [report] + rest);
      Prepend(policy, w, tick, [publish] + ([report] + rest));
    }
  }

  /** The world after the claim. */
  ghost function Opened(policy: Policy, w: World, r: nat, limit: int, token: string, clock: nat -> Instant): World {
    TakeUp(w.(clock := clock(2), issued := w.issued + {token},
              relays := w.relays[r := Checked(limit, token, clock(0) + policy.ttl, clock(1))]),
           r, clock(2))
  }

  lemma OpeningRuns(policy: Policy, w: World, r: nat, limit: int, token: string, clock: nat -> Instant, rest: seq<Step>)
    requires r !in w.relays && token !in w.issued && token != "" && w.clock <= clock(0) && ClockGoesOn(clock)
    requires clock(1) < clock(0) + policy.ttl
    requires Runs(policy, Opened(policy, w, r, limit, token, clock), rest)
    ensures Runs(policy, w, Opening(r, limit, token, clock, rest))
    ensures Run(policy, w, Opening(r, limit, token, clock, rest)) == Run(policy, Opened(policy, w, r, limit, token, clock), rest)
  {
    hide Runs, Run, TakeUp, Acknowledge, PutBack, Backoff;
    assert clock(0) <= clock(1) <= clock(2);
    var w1 := Apply(policy, w, Tick(clock(0)));
    var w2 := Apply(policy, w1, Start(r, limit, token));
    var w3 := Apply(policy, w2, Tick(clock(1)));
    var w4 := Apply(policy, w3, Check(r));
    var w5 := Apply(policy, w4, Tick(clock(2)));
    assert w5 == w.(clock := clock(2), issued := w.issued + {token},
                    relays := w.relays[r := Checked(limit, token, clock(0) + policy.ttl, clock(1))]);
    hide ClockGoesOn;
    Prepend(policy, w5, Take(r, clock(2)), rest);
    var s5 := [Take(r, clock(2))] + rest;
    Prepend(policy, w4, Tick(clock(2)), s5);
    var s4 := [Tick(clock(2))] + s5;
    Prepend(policy, w3, Check(r), s4);
    var s3 := [Check(r)] + s4;
    Prepend(policy, w2, Tick(clock(1)), s3);
    var s2 := [Tick(clock(1))] + s3;
    Prepend(policy, w1, Start(r, limit, token), s2);
    var s1 := [Start(r, limit, token)] + s2;
    Prepend(policy, w, Tick(clock(0)), s1);
  }

  lemma OpenedIsHalfway(policy: Policy, w: World, r: nat, limit: int, token: string, outcomes: Outcomes, clock: nat -> Instant)
    requires r !in w.relays && token != "" && ClockGoesOn(clock) && Numbered(w.records) && Unused(w.records, token)
    ensures var found := Scan(w.records, clock(2), EffectiveLimit(limit));
            Halfway(policy, Opened(policy, w, r, limit, token, clock), r, w.records, found, 0, token, clock(0) + policy.ttl, outcomes, clock)
  {
    hide Drained, Scan, Claim;
    var found := Scan(w.records, clock(2), EffectiveLimit(limit));
    DrainStarts(policy, w.records, clock(2), EffectiveLimit(limit), token, clock(0) + policy.ttl, outcomes, clock);
    assert StampAll(found, token, clock(0) + policy.ttl)[0..] == StampAll(found, token, clock(0) + policy.ttl);
    assert clock(2) <= clock(3 + 0);
  }

  /** A finished drain leaves one outbox only. */
  lemma DrainedIsUnique(policy: Policy, before: seq<OutboxRecord>, a: seq<OutboxRecord>, b: seq<OutboxRecord>, found: seq<OutboxRecord>,
                        token: string, until: Instant, outcomes: Outcomes, clock: nat -> Instant)
    requires Numbered(before)
    requires Drained(policy, before, a, found, |found|, token, until, outcomes, clock)
    requires Drained(policy, before, b, found, |found|, token, until, outcomes, clock)
    ensures a == b
  {
    hide Reported;
    forall i | 0 <= i < |before|
      ensures a[i] == b[i]
    {
      if before[i] in found {
        var j :| 0 <= j < |found| && found[j] == before[i];
        assert found[j].sequence == i + 1;
      }
    }
  }

  lemma NewTokenIsUnused(policy: Policy, w: World, token: string)
    requires Inv(policy, w) && token !in w.issued && token != ""
    ensures Numbered(w.records) && Unused(w.records, token)
  {
    hide RelaysOk, AcksOk, FailuresOk, DeliveriesOk;
  }

  /** A drain alone is a run of the relay world: from any world in which its relay is idle and its
      token new, the claim and one turn per record found are steps that can be taken, and they
      leave the outbox that the relay object leaves. */
  lemma DrainIsARun(policy: Policy, w: World, r: nat, limit: int, token: string, outcomes: Outcomes, clock: nat -> Instant,
                    after: seq<OutboxRecord>)
    requires Inv(policy, w) && r !in w.relays && token !in w.issued && token != ""
    requires w.clock <= clock(0) && ClockGoesOn(clock) && clock(1) < clock(0) + policy.ttl
    requires var found := Scan(w.records, clock(2), EffectiveLimit(limit));
             Drained(policy, w.records, after, found, |found|, token, clock(0) + policy.ttl, outcomes, clock)
    ensures var found := Scan(w.records, clock(2), EffectiveLimit(limit));
            var steps := Opening(r, limit, token, clock, Turns(r, outcomes, clock, 0, |found|));
            && Runs(policy, w, steps)
            && Run(policy, w, steps).records == after
            && r !in Run(policy, w, steps).relays
  {
    hide Inv, Runs, Run, Drained, Scan, Claim, Numbered, Unused, Turns, Opened, Opening, ClockGoesOn;
    var found := Scan(w.records, clock(2), EffectiveLimit(limit));
    var until := clock(0) + policy.ttl;
    NewTokenIsUnused(policy, w, token);
    OpenedIsHalfway(policy, w, r, limit, token, outcomes, clock);
    var w1 := Opened(policy, w, r, limit, token, clock);
    TurnsRun(policy, w1, r, w.records, found, 0, token, until, outcomes, clock);
    var turns := Turns(r, outcomes, clock, 0, |found|);
    OpeningRuns(policy, w, r, limit, token, clock, turns);
    DrainedIsUnique(policy, w.records, Run(policy, w1, turns).records, after, found, token, until, outcomes, clock);
  }
}
