/** The invariant holds in every world that any run of the switch reaches, and
    every run only extends the store. */
module WorldSteps {
  import opened Wrappers
  import opened Text
  import opened Instants
  import opened Rail
  import opened Events
  import opened Outbox
  import opened Store
  import opened Lifecycle
  import opened Calls
  import opened Consistency
  import opened StoreSteps
  import opened World
  import opened Invariant
  import opened PhaseSteps

  lemma TickKeepsClaims(now: Instant, later: Instant, ts: Transfers, h: History)
    requires ClaimsOk(now, ts, h) && now <= later
    ensures ClaimsOk(later, ts, h)
  {
    hide HoldersOk, TokensOk, LatestOk, AllSeparated;
    forall i | 0 <= i < |h.claims|
      ensures EntryOk(later, h.claims[i])
    {
      assert EntryOk(now, h.claims[i]);
    }
  }

  lemma JoiningKeepsNonces(issued: set<string>, calls: map<nat, Phase>, c: nat, p: Phase, minted: set<string>)
    requires NoncesOk(issued, calls)
    requires Nonce(p).Some? ==>
               Nonce(p).value in issued + minted && forall d :: d in calls && d != c ==> Nonce(calls[d]) != Nonce(p)
    ensures NoncesOk(issued + minted, calls[c := p])
  {
  }

  lemma LeavingKeepsCalls(issuer: Issuer, s: State, h: History, issued: set<string>, calls: map<nat, Phase>, c: nat, minted: set<string>)
    requires CallsOk(issuer, s, h, calls) && NoncesOk(issued, calls)
    ensures CallsOk(issuer, s, h, calls - {c}) && NoncesOk(issued + minted, calls - {c})
  {
    hide PhaseOk, Nonce;
  }

  /** A call that starts takes at most a new token with it. */
  lemma StartKeeps(issuer: Issuer, w: World, c: nat, m: Move, minted: set<string>)
    requires Inv(issuer, w) && c !in w.calls
    requires m.Goes? ==> PhaseOk(issuer, w.store, w.hist, m.phase)
    requires m.Goes? && Nonce(m.phase).Some? ==> Nonce(m.phase).value in minted && Nonce(m.phase).value !in w.issued
    ensures Inv(issuer, Moved(w, c, m).(issued := w.issued + minted))
  {
    hide Consistent, ClaimsOk, CreatesOk, PhaseOk, Nonce;
    if m.Goes? {
      JoiningKeepsNonces(w.issued, w.calls, c, m.phase, minted);
    } else {
      LeavingKeepsCalls(issuer, w.store, w.hist, w.issued, w.calls, c, minted);
    }
  }

  lemma StartCreateKeeps(issuer: Issuer, w: World, a: Step)
    requires a.StartCreate? && Inv(issuer, w) && Enabled(issuer, w, a)
    ensures Inv(issuer, Apply(issuer, w, a))
  {
    hide Inv;
    FingerprintsAreNotEmpty(Normalise(a.req), SettlementCallback("", "", "", SettlementAccepted, "", "", "", 0));
    StartKeeps(issuer, w, a.call, BeginCreate(a.req), {});
    assert w.issued + {} == w.issued;
  }

  lemma StartSubmitKeeps(issuer: Issuer, w: World, a: Step)
    requires a.StartSubmit? && Inv(issuer, w) && Enabled(issuer, w, a)
    ensures Inv(issuer, Apply(issuer, w, a))
  {
    assert a.token !in w.hist.byToken;
    hide Inv;
    StartKeeps(issuer, w, a.call, BeginSubmit(a.tenant, a.id, a.correlation, a.token, w.clock), {a.token});
  }

  lemma StartReviewKeeps(issuer: Issuer, w: World, a: Step)
    requires a.StartReview? && Inv(issuer, w) && Enabled(issuer, w, a)
    ensures Inv(issuer, Apply(issuer, w, a))
  {
    hide Inv;
    StartKeeps(issuer, w, a.call, BeginReview(a.review, w.clock), {});
    assert w.issued + {} == w.issued;
  }

  lemma StartSettleKeeps(issuer: Issuer, w: World, a: Step)
    requires a.StartSettle? && Inv(issuer, w) && Enabled(issuer, w, a)
    ensures Inv(issuer, Apply(issuer, w, a))
  {
    hide Inv, CallbackFingerprint;
    var m := BeginSettle(a.callback, a.correlation, w.clock);
    if m.Goes? {
      EffectiveHashNotEmpty(a.callback, m.phase.callback);
    }
    StartKeeps(issuer, w, a.call, m, {});
    assert w.issued + {} == w.issued;
  }

  lemma EffectiveHashNotEmpty(given: SettlementCallback, c: SettlementCallback)
    requires exists c1 :: c.callbackHash == EffectiveHash(c1)
    ensures c.callbackHash != ""
  {
    var c1 :| c.callbackHash == EffectiveHash(c1);
    FingerprintsAreNotEmpty(CreateRequest("", "", "", "", 0, "", "", "", ""), c1);
  }

  lemma NextNonce(s: State, now: Instant, p: Phase, i: Input)
    requires Fits(p, i) && Advance(s, now, p, i).move.Goes?
    ensures var q := Advance(s, now, p, i).move.phase;
            Nonce(q).None? || Nonce(q) == Nonce(p) || (i.Resolution? && Nonce(q) == Some(i.newId))
  {
  }

  lemma OthersStayOk(issuer: Issuer, w: World, c: nat, s': State, h': History)
    requires c in w.calls && CallsOk(issuer, w.store, w.hist, w.calls) && NoncesOk(w.issued, w.calls)
    requires Contained(w.store, s', w.hist, h', Nonce(w.calls[c]))
    ensures CallsOk(issuer, s', h', w.calls - {c})
  {
    hide PhaseOk, Contained, Nonce;
    forall d | d in w.calls - {c}
      ensures PhaseOk(issuer, s', h', w.calls[d])
    {
      OthersUndisturbed(issuer, w.store, s', w.hist, h', Nonce(w.calls[c]), w.calls[d]);
    }
  }

  lemma IssuedGrows(w: World, s': State, h': History, nonce: Option<string>, minted: set<string>)
    requires IssuedOk(w.issued, w.store.transfers, w.hist)
    requires Contained(w.store, s', w.hist, h', nonce)
    requires nonce.Some? ==> nonce.value in w.issued
    ensures IssuedOk(w.issued + minted, s'.transfers, h')
  {
    hide Extends;
    forall token | token in h'.byToken
      ensures token in w.issued + minted
    {
      assert nonce != Some(token) ==> SameEntry(w.hist, h', token);
    }
  }

  lemma CallsAfter(issuer: Issuer, w: World, c: nat, m: Move, s': State, h': History, minted: set<string>)
    requires c in w.calls && CallsOk(issuer, s', h', w.calls - {c}) && NoncesOk(w.issued, w.calls)
    requires m.Goes? ==> PhaseOk(issuer, s', h', m.phase)
    requires m.Goes? && Nonce(m.phase).Some? ==>
               Nonce(m.phase) == Nonce(w.calls[c]) || (Nonce(m.phase).value in minted && Nonce(m.phase).value !in w.issued)
    ensures CallsOk(issuer, s', h', Moved(w, c, m).calls) && NoncesOk(w.issued + minted, Moved(w, c, m).calls)
  {
    hide PhaseOk, Nonce;
    if m.Goes? {
      forall d | d in w.calls && d != c
        ensures PhaseOk(issuer, s', h', w.calls[d])
      {
        assert d in w.calls - {c};
      }
      JoiningKeepsNonces(w.issued, w.calls, c, m.phase, minted);
    } else {
      forall d, e | d in w.calls - {c} && e in w.calls - {c} && d != e && Nonce(w.calls[d]).Some?
        ensures Nonce(w.calls[d]) != Nonce(w.calls[e])
      {
      }
    }
  }

  lemma ProceedKeeps(issuer: Issuer, w: World, a: Step)
    requires a.Proceed? && Inv(issuer, w) && Enabled(issuer, w, a)
    ensures Inv(issuer, Apply(issuer, w, a)) && Extends(w.store, Apply(issuer, w, a).store)
  {
    hide Consistent, ClaimsOk, CreatesOk, PhaseOk, Nonce, Extends, Advance, SameEntry, Remember;
    var p := w.calls[a.call];
    var e := Advance(w.store, w.clock, p, a.input);
    var h' := Remember(w.hist, w.store, w.clock, p, e.move);
    var minted := if a.input.Resolution? then {a.input.newId} else {};
    EveryPhase(issuer, w.store, w.clock, w.hist, p, a.input);
    if e.move.Goes? {
      NextNonce(w.store, w.clock, p, a.input);
    }
    OthersStayOk(issuer, w, a.call, e.state, h');
    CallsAfter(issuer, w, a.call, e.move, e.state, h', minted);
    IssuedGrows(w, e.state, h', Nonce(p), minted);
    assert w.issued + {} == w.issued;
  }

  lemma DeliveryKeepsConsistent(issuer: Issuer, s: State, records: seq<OutboxRecord>)
    requires Consistent(issuer, s) && SameEvents(s.events, records)
    ensures Consistent(issuer, s.(events := records)) && Extends(s, s.(events := records))
  {
    hide Journalled, AllSound, Indexed, CallbacksMatch;
    forall id
      ensures Journalled(s.transfers, records, s.audit, id)
    {
      DeliveryKeepsJournal(s, records, id);
    }
  }

  lemma DeliverKeeps(issuer: Issuer, w: World, a: Step)
    requires a.Deliver? && Inv(issuer, w) && Enabled(issuer, w, a)
    ensures Inv(issuer, Apply(issuer, w, a)) && Extends(w.store, Apply(issuer, w, a).store)
  {
    hide Consistent, ClaimsOk, CreatesOk, PhaseOk, NoncesOk, Extends;
    DeliveryKeepsConsistent(issuer, w.store, a.records);
    var s' := w.store.(events := a.records);
    ContainedCommit(w.store, s', w.hist, None);
    forall c | c in w.calls
      ensures PhaseOk(issuer, s', w.hist, w.calls[c])
    {
      OthersUndisturbed(issuer, w.store, s', w.hist, w.hist, None, w.calls[c]);
    }
  }

  /** Every step of every actor keeps the invariant and only extends the store. */
  lemma StepKeeps(issuer: Issuer, w: World, a: Step)
    requires Inv(issuer, w) && Enabled(issuer, w, a)
    ensures Inv(issuer, Apply(issuer, w, a)) && Extends(w.store, Apply(issuer, w, a).store)
  {
    hide Consistent, ClaimsOk, CreatesOk, CallsOk, NoncesOk, Extends;
    ExtendsReflexive(w.store);
    match a
    case Tick(to) => TickKeepsClaims(w.clock, to, w.store.transfers, w.hist);
    case StartCreate(_, _) => StartCreateKeeps(issuer, w, a);
    case StartSubmit(_, _, _, _, _) => StartSubmitKeeps(issuer, w, a);
    case StartReview(_, _) => StartReviewKeeps(issuer, w, a);
    case StartSettle(_, _, _) => StartSettleKeeps(issuer, w, a);
    case Proceed(_, _) => ProceedKeeps(issuer, w, a);
    case Abandon(c) =>
      LeavingKeepsCalls(issuer, w.store, w.hist, w.issued, w.calls, c, {});
      assert w.issued + {} == w.issued;
    case Deliver(_) => DeliverKeeps(issuer, w, a);
  }

  lemma {:induction false} RunKeeps(issuer: Issuer, w: World, steps: seq<Step>)
    requires Inv(issuer, w) && Runs(issuer, w, steps)
    ensures Inv(issuer, Run(issuer, w, steps)) && Extends(w.store, Run(issuer, w, steps).store)
    decreases steps
  {
    hide Inv, Extends, Apply, Enabled;
    ExtendsReflexive(w.store);
    if steps != [] {
      StepKeeps(issuer, w, steps[0]);
      var w1 := Apply(issuer, w, steps[0]);
      RunKeeps(issuer, w1, steps[1..]);
      ExtendsTransitive(w.store, w1.store, Run(issuer, w1, steps[1..]).store);
    }
  }
}
