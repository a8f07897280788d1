/** The switch and its relays together, over one store and one clock.  A step of
    the whole is a step of one side; the other side sees appended events, or
    changed delivery fields.  Every run of the whole projects onto a run of the
    switch and a run of the relays, so what holds of those holds here. */
module System {
  import opened Wrappers
  import opened Instants
  import opened Rail
  import opened Events
  import opened Outbox
  import opened Retry
  import opened Store
  import Consistency
  import Calls
  import Switch = World
  import Invariant
  import WorldSteps
  import Relays
  import RelaySteps

  datatype Whole = Whole(switch: Switch.World, relays: Relays.World)

  datatype Step =
    | Tick(to: Instant)
    | BySwitch(step: Switch.Step)
    | ByRelay(relayStep: Relays.Step)

  const INITIAL: Whole := Whole(Switch.INITIAL, Relays.INITIAL)

  /** Both sides look at the same outbox and the same clock. */
  predicate Linked(w: Whole) {
    w.switch.store.events == w.relays.records && w.switch.clock == w.relays.clock
  }

  ghost predicate Enabled(issuer: Consistency.Issuer, w: Whole, a: Step) {
    match a
    case Tick(to) => w.switch.clock <= to && w.relays.clock <= to
    case BySwitch(s) => !s.Tick? && !s.Deliver? && Switch.Enabled(issuer, w.switch, s)
    case ByRelay(r) => !r.Tick? && !r.Append? && Relays.Enabled(w.relays, r)
  }

  /** The events behind the records from position `n` on. */
  function EventsFrom(records: seq<OutboxRecord>, n: nat): (r: seq<Event>)
    requires n <= |records|
    ensures |r| == |records| - n
  {
    seq(|records| - n, i requires 0 <= i < |records| - n => records[n + i].event)
  }

  function Arrived(before: seq<OutboxRecord>, after: seq<OutboxRecord>): seq<Event> {
    if |before| <= |after| then EventsFrom(after, |before|) else []
  }

  /** What each side sees of a step. */
  ghost function SwitchSees(issuer: Consistency.Issuer, policy: Policy, w: Whole, a: Step): Switch.Step
    requires Enabled(issuer, w, a)
  {
    match a
    case Tick(to) => Switch.Tick(to)
    case BySwitch(s) => s
    case ByRelay(r) => Switch.Deliver(Relays.Apply(policy, w.relays, r).records)
  }

  ghost function RelaysSee(issuer: Consistency.Issuer, w: Whole, a: Step): Relays.Step
    requires Enabled(issuer, w, a)
  {
    match a
    case Tick(to) => Relays.Tick(to)
    case BySwitch(s) => Relays.Append(Arrived(w.switch.store.events, Switch.Apply(issuer, w.switch, s).store.events))
    case ByRelay(r) => r
  }

  ghost function Apply(issuer: Consistency.Issuer, policy: Policy, w: Whole, a: Step): Whole
    requires Enabled(issuer, w, a)
  {
    match a
    case Tick(to) => Whole(w.switch.(clock := to), w.relays.(clock := to))
    case BySwitch(s) =>
      var switch := Switch.Apply(issuer, w.switch, s);
      Whole(switch, w.relays.(records := switch.store.events))
    case ByRelay(r) =>
      var relays := Relays.Apply(policy, w.relays, r);
      Whole(w.switch.(store := w.switch.store.(events := relays.records)), relays)
  }

  ghost predicate Runs(issuer: Consistency.Issuer, policy: Policy, w: Whole, steps: seq<Step>)
    decreases steps
  {
    steps == [] || (Enabled(issuer, w, steps[0]) && Runs(issuer, policy, Apply(issuer, policy, w, steps[0]), steps[1..]))
  }

  ghost function Run(issuer: Consistency.Issuer, policy: Policy, w: Whole, steps: seq<Step>): Whole
    requires Runs(issuer, policy, w, steps)
    decreases steps
  {
    if steps == [] then w else Run(issuer, policy, Apply(issuer, policy, w, steps[0]), steps[1..])
  }

  ghost function SwitchSide(issuer: Consistency.Issuer, policy: Policy, w: Whole, steps: seq<Step>): seq<Switch.Step>
    requires Runs(issuer, policy, w, steps)
    decreases steps
  {
    if steps == [] then []
    else [SwitchSees(issuer, policy, w, steps[0])] + SwitchSide(issuer, policy, Apply(issuer, policy, w, steps[0]), steps[1..])
  }

  ghost function RelaySide(issuer: Consistency.Issuer, policy: Policy, w: Whole, steps: seq<Step>): seq<Relays.Step>
    requires Runs(issuer, policy, w, steps)
    decreases steps
  {
    if steps == [] then []
    else [RelaysSee(issuer, w, steps[0])] + RelaySide(issuer, policy, Apply(issuer, policy, w, steps[0]), steps[1..])
  }

  // ---------------------------------------------------------------- one step

  /** A phase of a call leaves the outbox alone or enqueues behind it. */
  lemma PhaseEnqueues(s: State, now: Instant, p: Calls.Phase, i: Calls.Input)
    requires Calls.Fits(p, i) && s.nextSeq == |s.events|
    ensures var after := Calls.Advance(s, now, p, i).state.events;
            |s.events| <= |after| && after == Enqueue(s.events, |s.events|, EventsFrom(after, |s.events|))
  {
    var after := Calls.Advance(s, now, p, i).state.events;
    assert after == s.events || exists events :: after == Enqueue(s.events, s.nextSeq, events) by {
      hide Enqueue, Calls.Fraud.Decide, EffectiveHash;
      if after != s.events {
        assert after == Enqueue(s.events, s.nextSeq, p.events);
      }
    }
  }

  lemma SwitchStepEnqueues(issuer: Consistency.Issuer, w: Switch.World, a: Switch.Step)
    requires Invariant.Inv(issuer, w) && Switch.Enabled(issuer, w, a) && !a.Deliver?
    ensures var after := Switch.Apply(issuer, w, a).store.events;
            after == Enqueue(w.store.events, |w.store.events|, Arrived(w.store.events, after))
  {
    assert w.store.nextSeq == |w.store.events|;
    hide Invariant.Inv, Calls.Advance, Switch.Remember;
    if a.Proceed? {
      PhaseEnqueues(w.store, w.clock, w.calls[a.call], a.input);
    }
  }

  lemma RelayStepDelivers(policy: Policy, w: Relays.World, a: Relays.Step)
    requires Relays.Inv(policy, w) && Relays.Enabled(w, a) && !a.Append?
    ensures Switch.SameEvents(w.records, Relays.Apply(policy, w, a).records)
  {
    RelaySteps.StepKeeps(policy, w, a);
    hide Relays.Inv, Backoff, Claim, Scan, StampAll;
    assert |Relays.Apply(policy, w, a).records| == |w.records|;
  }

  ghost predicate Inv(issuer: Consistency.Issuer, policy: Policy, w: Whole) {
    Linked(w) && Invariant.Inv(issuer, w.switch) && Relays.Inv(policy, w.relays)
  }

  /** A step of the whole, seen from both sides. */
  ghost predicate Projects(issuer: Consistency.Issuer, policy: Policy, w: Whole, a: Step)
    requires Enabled(issuer, w, a)
  {
    var s := SwitchSees(issuer, policy, w, a);
    var r := RelaysSee(issuer, w, a);
    var w' := Apply(issuer, policy, w, a);
    && Switch.Enabled(issuer, w.switch, s) && Switch.Apply(issuer, w.switch, s) == w'.switch
    && Relays.Enabled(w.relays, r) && Relays.Apply(policy, w.relays, r) == w'.relays
    && Linked(w')
  }

  lemma SwitchStepProjects(issuer: Consistency.Issuer, policy: Policy, w: Whole, a: Step)
    requires a.BySwitch? && Inv(issuer, policy, w) && Enabled(issuer, w, a)
    ensures Projects(issuer, policy, w, a)
  {
    hide Invariant.Inv, Relays.Inv, Arrived, Enqueue, Switch.Apply, Switch.Enabled;
    SwitchStepEnqueues(issuer, w.switch, a.step);
    SwitchKeepsClock(issuer, w.switch, a.step);
  }

  lemma RelayStepProjects(issuer: Consistency.Issuer, policy: Policy, w: Whole, a: Step)
    requires a.ByRelay? && Inv(issuer, policy, w) && Enabled(issuer, w, a)
    ensures Projects(issuer, policy, w, a)
  {
    hide Invariant.Inv, Relays.Inv, Relays.Apply;
    RelayStepDelivers(policy, w.relays, a.relayStep);
    RelayKeepsClock(policy, w.relays, a.relayStep);
  }

  /** One step of the whole is one step of each side. */
  lemma StepProjects(issuer: Consistency.Issuer, policy: Policy, w: Whole, a: Step)
    requires Inv(issuer, policy, w) && Enabled(issuer, w, a)
    ensures Projects(issuer, policy, w, a) && Inv(issuer, policy, Apply(issuer, policy, w, a))
  {
    if a.BySwitch? {
      SwitchStepProjects(issuer, policy, w, a);
    } else if a.ByRelay? {
      RelayStepProjects(issuer, policy, w, a);
    }
    hide Invariant.Inv, Relays.Inv, Switch.Apply, Relays.Apply, Arrived;
    assert Projects(issuer, policy, w, a) by {
      if a.Tick? {
        TickProjects(issuer, policy, w, a);
      }
    }
    WorldSteps.StepKeeps(issuer, w.switch, SwitchSees(issuer, policy, w, a));
    RelaySteps.StepKeeps(policy, w.relays, RelaysSee(issuer, w, a));
  }

  lemma TickProjects(issuer: Consistency.Issuer, policy: Policy, w: Whole, a: Step)
    requires a.Tick? && Linked(w) && Enabled(issuer, w, a)
    ensures Projects(issuer, policy, w, a)
  {
  }

  lemma SwitchKeepsClock(issuer: Consistency.Issuer, w: Switch.World, a: Switch.Step)
    requires Switch.Enabled(issuer, w, a) && !a.Tick?
    ensures Switch.Apply(issuer, w, a).clock == w.clock
  {
    hide Calls.Advance, Switch.Remember;
  }

  lemma RelayKeepsClock(policy: Policy, w: Relays.World, a: Relays.Step)
    requires Relays.Enabled(w, a) && !a.Tick?
    ensures Relays.Apply(policy, w, a).clock == w.clock
  {
  }

  /** Every run of the whole is a run of the switch and a run of the relays that
      agree on outbox and clock. */
  lemma {:induction false} RunProjects(issuer: Consistency.Issuer, policy: Policy, w: Whole, steps: seq<Step>)
    requires Inv(issuer, policy, w) && Runs(issuer, policy, w, steps)
    ensures var s := SwitchSide(issuer, policy, w, steps); var r := RelaySide(issuer, policy, w, steps);
            var w' := Run(issuer, policy, w, steps);
            && Switch.Runs(issuer, w.switch, s) && Switch.Run(issuer, w.switch, s) == w'.switch
            && Relays.Runs(policy, w.relays, r) && Relays.Run(policy, w.relays, r) == w'.relays
            && Inv(issuer, policy, w')
    decreases steps
  {
    hide Inv, Enabled, Apply, SwitchSees, RelaysSee, Linked, Switch.Apply, Switch.Enabled, Relays.Apply, Relays.Enabled;
    if steps != [] {
      StepProjects(issuer, policy, w, steps[0]);
      var w1 := Apply(issuer, policy, w, steps[0]);
      RunProjects(issuer, policy, w1, steps[1..]);
      var s, r := SwitchSide(issuer, policy, w, steps), RelaySide(issuer, policy, w, steps);
      assert s[1..] == SwitchSide(issuer, policy, w1, steps[1..]) && r[1..] == RelaySide(issuer, policy, w1, steps[1..]);
    }
  }

  lemma SystemRuns(issuer: Consistency.Issuer, policy: Policy, steps: seq<Step>)
    requires Runs(issuer, policy, INITIAL, steps)
    ensures var w := Run(issuer, policy, INITIAL, steps);
            && Linked(w)
            && Switch.Runs(issuer, Switch.INITIAL, SwitchSide(issuer, policy, INITIAL, steps))
            && Switch.Run(issuer, Switch.INITIAL, SwitchSide(issuer, policy, INITIAL, steps)) == w.switch
            && Relays.Runs(policy, Relays.INITIAL, RelaySide(issuer, policy, INITIAL, steps))
            && Relays.Run(policy, Relays.INITIAL, RelaySide(issuer, policy, INITIAL, steps)) == w.relays
  {
    hide Invariant.Inv, Relays.Inv, Runs, Switch.Runs, Relays.Runs;
    Invariant.InitialInv(issuer);
    Relays.InitialInv(policy);
    RunProjects(issuer, policy, INITIAL, steps);
  }
}
