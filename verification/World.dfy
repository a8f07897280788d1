/** The switch at work: one store, a clock that never runs backwards, any number
    of calls in flight, and relays touching delivery fields of the outbox.  Every
    store call is one atomic step; between two store calls of one call, any other
    step may happen.  Two logs that the program does not keep record who claimed
    what and what each create call returned. */
module World {
  import opened Wrappers
  import opened Text
  import opened Instants
  import opened Rail
  import opened Events
  import opened Store
  import opened Calls
  import opened Consistency

  /** One successful SPI claim: when, until when, when its Submit returned, and
      the retry time if its holder released it. */
  datatype ClaimEntry = ClaimEntry(id: string, token: string, at: Instant, until: Instant,
                                   returned: Option<Instant>, retryAt: Option<Instant>)

  /** One create call that succeeded. */
  datatype CreateEntry = CreateEntry(tenant: string, key: string, hash: string, id: string, replay: bool)

  datatype History = History(
    claims: seq<ClaimEntry>,
    byToken: map<string, nat>,   // which claim a token made
    latest: map<string, nat>,    // the latest claim on a transfer
    creates: seq<CreateEntry>,
    born: map<string, nat>)      // the create call that made a transfer

  datatype World = World(store: State, clock: Instant, calls: map<nat, Phase>, issued: set<string>, hist: History)

  const INITIAL: World := World(EMPTY, 0, map[], {}, History([], map[], map[], [], map[]))

  datatype Step =
    | Tick(to: Instant)
    | StartCreate(call: nat, req: CreateRequest)
    | StartSubmit(call: nat, tenant: string, id: string, correlation: string, token: string)
    | StartReview(call: nat, review: ReviewRequest)
    | StartSettle(call: nat, callback: SettlementCallback, correlation: string)
    | Proceed(call: nat, input: Input)
    | Abandon(call: nat)
    | Deliver(records: seq<OutboxRecord>)

  /** Tenants hold no colon, new ids and tokens are new and not blank, and the
      SPI client issues a message id for one transfer only. */
  ghost predicate Enabled(issuer: Issuer, w: World, a: Step) {
    match a
    case Tick(to) => w.clock <= to
    case StartCreate(c, req) => c !in w.calls && ColonFree(Trim(req.tenant))
    case StartSubmit(c, _, _, _, token) => c !in w.calls && token !in w.issued && Trim(token) != ""
    case StartReview(c, _) => c !in w.calls
    case StartSettle(c, _, _) => c !in w.calls
    case Proceed(c, input) =>
      && c in w.calls && Fits(w.calls[c], input)
      && (input.Resolution? ==> input.newId !in w.issued && input.newId != "")
      && (input.SpiAnswer? && input.answer.Ok? ==> issuer(input.answer.value.messageId) == w.calls[c].id)
    case Abandon(c) => c in w.calls
    case Deliver(records) => SameEvents(w.store.events, records)
  }

  predicate SameEvents(a: seq<OutboxRecord>, b: seq<OutboxRecord>) {
    |a| == |b| && forall i :: 0 <= i < |a| ==> b[i].event == a[i].event && b[i].sequence == a[i].sequence
  }

  function Moved(w: World, c: nat, m: Move): World {
    match m
    case Goes(p) => w.(calls := w.calls[c := p])
    case Ends(_) => w.(calls := w.calls - {c})
  }

  function Apply(issuer: Issuer, w: World, a: Step): World
    requires Enabled(issuer, w, a)
  {
    match a
    case Tick(to) => w.(clock := to)
    case StartCreate(c, req) => Moved(w, c, BeginCreate(req))
    case StartSubmit(c, tenant, id, correlation, token) =>
      Moved(w, c, BeginSubmit(tenant, id, correlation, token, w.clock)).(issued := w.issued + {token})
    case StartReview(c, review) => Moved(w, c, BeginReview(review, w.clock))
    case StartSettle(c, callback, correlation) => Moved(w, c, BeginSettle(callback, correlation, w.clock))
    case Proceed(c, input) =>
      var e := Advance(w.store, w.clock, w.calls[c], input);
      Moved(w, c, e.move).(
        store := e.state,
        issued := if input.Resolution? then w.issued + {input.newId} else w.issued,
        hist := Remember(w.hist, w.store, w.clock, w.calls[c], e.move))
    case Abandon(c) => w.(calls := w.calls - {c})
    case Deliver(records) => w.(store := w.store.(events := records))
  }

  // ---------------------------------------------------------------- the logs

  function Remember(h: History, s: State, now: Instant, p: Phase, m: Move): History {
    match p
    case CreateFind(req, hash) => LogCreate(h, req, hash, m)
    case CreateInsert(req, hash, _, _, _) => LogCreate(h, req, hash, m)
    case CreateRefind(req, hash) => LogCreate(h, req, hash, m)
    case SubmitClaim(_, id, _, token, until) => if m.Goes? then LogClaim(h, id, token, now, until) else h
    case SubmitCall(_, _, _, token, _, _) => LogReturn(h, token, now)
    case SubmitRelease(tenant, id, token, _, retryAt) =>
      if Lookup(s, tenant, id).Some? && s.transfers[id].claimToken == token then LogRelease(h, token, retryAt) else h
    case _ => h
  }

  function LogCreate(h: History, req: CreateRequest, hash: string, m: Move): History {
    if m.Ends? && m.answer.Created? then
      var t := m.answer.transfer;
      h.(creates := h.creates + [CreateEntry(req.tenant, req.idempotencyKey, hash, t.id, m.answer.replay)],
         born := if m.answer.replay then h.born else h.born[t.id := |h.creates|])
    else h
  }

  function LogClaim(h: History, id: string, token: string, now: Instant, until: Instant): History {
    h.(claims := h.claims + [ClaimEntry(id, token, now, until, None, None)],
       byToken := h.byToken[token := |h.claims|],
       latest := h.latest[id := |h.claims|])
  }

  function LogReturn(h: History, token: string, now: Instant): History {
    if token in h.byToken && h.byToken[token] < |h.claims| then
      var k := h.byToken[token];
      h.(claims := h.claims[k := h.claims[k].(returned := Some(now))])
    else h
  }

  function LogRelease(h: History, token: string, retryAt: Instant): History {
    if token in h.byToken && h.byToken[token] < |h.claims| then
      var k := h.byToken[token];
      h.(claims := h.claims[k := h.claims[k].(retryAt := Some(retryAt))])
    else h
  }

  // -------------------------------------------------------------------- runs

  /** A run: every step is enabled where it is taken. */
  ghost predicate Runs(issuer: Issuer, w: World, steps: seq<Step>)
    decreases steps
  {
    steps == [] || (Enabled(issuer, w, steps[0]) && Runs(issuer, Apply(issuer, w, steps[0]), steps[1..]))
  }

  ghost function Run(issuer: Issuer, w: World, steps: seq<Step>): World
    requires Runs(issuer, w, steps)
    decreases steps
  {
    if steps == [] then w else Run(issuer, Apply(issuer, w, steps[0]), steps[1..])
  }
}
