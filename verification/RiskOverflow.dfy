/** A run in which a receiver of the highest risk obtains SPI identifiers: its score overflows,
    so it is accepted, submitted and approved. */
module RiskOverflow {
  import opened Wrappers
  import opened Text
  import opened Rail
  import opened Events
  import opened Store
  import opened Calls
  import opened Consistency
  import opened World
  import opened SwitchSafety
  import Fraud
  import Int64

  const REQUEST: CreateRequest := CreateRequest("t", "a", "k", "", 1, "BRL", "r", "CPF", "")
  const RISKY: DictEntry := DictEntry("r", "n", "b", "h", Int64.INT64_MAX)
  const MESSAGE: SpiMessage := SpiMessage("m", "e", 0)
  const HASH: string := RequestFingerprint(REQUEST)

  function Stored(): Transfer {
    NewTransfer(REQUEST, HASH, RISKY, Fraud.Decide(REQUEST.amountCents, REQUEST.account, RISKY), "id", 0)
  }

  lemma Trimmed()
    ensures Trim("t") == "t" && Trim("a") == "a" && Trim("k") == "k" && Trim("r") == "r" && Trim("") == ""
    ensures Trim("id") == "id" && Trim("c") == "c" && Trim("m") == "m" && Trim("e") == "e"
  {
  }

  /** One call in flight at time 0, over this store. */
  ghost predicate Stage(w: World, s: State, call: nat, p: Phase, issued: set<string>) {
    w.store == s && w.clock == 0 && w.calls == map[call := p] && w.issued == issued
  }

  lemma Requested(issuer: Issuer)
    ensures Enabled(issuer, INITIAL, StartCreate(0, REQUEST))
    ensures Stage(Apply(issuer, INITIAL, StartCreate(0, REQUEST)), EMPTY, 0, CreateFind(REQUEST, HASH), {})
  {
    Trimmed();
    hide Trim, RequestFingerprint;
    assert Normalise(REQUEST) == REQUEST;
  }

  lemma NotFoundYet(issuer: Issuer, w: World)
    requires Stage(w, EMPTY, 0, CreateFind(REQUEST, HASH), {})
    ensures Enabled(issuer, w, Proceed(0, Nothing))
    ensures Stage(Apply(issuer, w, Proceed(0, Nothing)), EMPTY, 0, CreateDecide(REQUEST, HASH), {})
  {
    hide RequestFingerprint, Fraud.Decide, CreationEvents;
  }

  function Insertion(): Phase {
    CreateInsert(REQUEST, HASH, Stored(), CreationEvents(Stored(), 0), CreationAudit(Stored(), 0))
  }

  lemma Judged(issuer: Issuer, w: World)
    requires Stage(w, EMPTY, 0, CreateDecide(REQUEST, HASH), {})
    ensures var a := Proceed(0, Resolution(true, true, Ok(RISKY), "id"));
            Enabled(issuer, w, a) && Stage(Apply(issuer, w, a), EMPTY, 0, Insertion(), {"id"})
  {
    hide Fraud.Decide, CreationEvents, RequestFingerprint;
  }

  lemma Inserted(issuer: Issuer, w: World)
    requires Stage(w, EMPTY, 0, Insertion(), {"id"})
    ensures Enabled(issuer, w, Proceed(0, Nothing))
    ensures var w' := Apply(issuer, w, Proceed(0, Nothing));
            w'.store.transfers == map["id" := Stored()] && w'.clock == 0 && w'.calls == map[] && w'.issued == {"id"}
  {
    hide Fraud.Decide, CreationEvents, RequestFingerprint;
  }

  function Claiming(): Phase {
    SubmitClaim("t", "id", "", "c", SPI_CLAIM_TTL)
  }

  lemma Submitting(issuer: Issuer, w: World)
    requires w.clock == 0 && w.calls == map[] && w.issued == {"id"}
    ensures var a := StartSubmit(1, "t", "id", "", "c");
            Enabled(issuer, w, a) && Stage(Apply(issuer, w, a), w.store, 1, Claiming(), {"id", "c"})
  {
    Trimmed();
    hide Trim;
  }

  function Held(): Transfer {
    Stored().(claimToken := "c", claimedUntil := Some(SPI_CLAIM_TTL), attempts := 1)
  }

  lemma StoredIsAccepted()
    ensures Stored().status == Accepted
  {
    Fraud.LargestRiskIsAccepted(REQUEST.amountCents, REQUEST.account, RISKY);
  }

  lemma Claimed(issuer: Issuer, w: World)
    requires w.store.transfers == map["id" := Stored()] && Stage(w, w.store, 1, Claiming(), {"id", "c"})
    ensures Enabled(issuer, w, Proceed(1, Nothing))
    ensures var w' := Apply(issuer, w, Proceed(1, Nothing));
            && w'.store.transfers == map["id" := Held()]
            && Stage(w', w'.store, 1, SubmitCall("t", "id", "", "c", SPI_CLAIM_TTL, Held()), {"id", "c"})
  {
    StoredIsAccepted();
    Trimmed();
    hide Trim, Fraud.Decide, RequestFingerprint;
    assert ClaimSubmission(Stored(), "c", SPI_CLAIM_TTL, 0) == Ok(Held());
  }

  function Recording(): Phase {
    SubmitRecord("t", "id", "c", MESSAGE, SubmissionEvents(Held(), "", 0), SubmissionAudit(Held(), "", MESSAGE))
  }

  lemma Answered(issuer: Issuer, w: World)
    requires issuer("m") == "id" && Stage(w, w.store, 1, SubmitCall("t", "id", "", "c", SPI_CLAIM_TTL, Held()), {"id", "c"})
    ensures var a := Proceed(1, SpiAnswer(Ok(MESSAGE)));
            Enabled(issuer, w, a) && Stage(Apply(issuer, w, a), w.store, 1, Recording(), {"id", "c"})
  {
    hide Fraud.Decide, RequestFingerprint;
  }

  lemma Recorded(issuer: Issuer, w: World)
    requires w.store.transfers == map["id" := Held()] && Stage(w, w.store, 1, Recording(), {"id", "c"})
    ensures Enabled(issuer, w, Proceed(1, Nothing))
    ensures var ts := Apply(issuer, w, Proceed(1, Nothing)).store.transfers;
            "id" in ts && ts["id"].receiverRisk == Int64.INT64_MAX && ts["id"].spiMessageId == "m" && ts["id"].status == Approved
  {
    StoredIsAccepted();
    Trimmed();
    hide Trim, Fraud.Decide, RequestFingerprint;
  }

  // ------------------------------------------------------------------ the run

  lemma Prepend(issuer: Issuer, w: World, a: Step, rest: seq<Step>)
    requires Enabled(issuer, w, a) && Runs(issuer, Apply(issuer, w, a), rest)
    ensures Runs(issuer, w, [a] + rest) && Run(issuer, w, [a] + rest) == Run(issuer, Apply(issuer, w, a), rest)
  {
    assert ([a] + rest)[1..] == rest;
    hide Enabled, Apply;
  }

  /** Claim, call and record. */
  const SUBMISSION: seq<Step> := [Proceed(1, Nothing)] + ([Proceed(1, SpiAnswer(Ok(MESSAGE)))] + ([Proceed(1, Nothing)] + []))

  /** Create: find, decide, insert; then submit. */
  const CREATION: seq<Step> :=
    [StartCreate(0, REQUEST)]
    + ([Proceed(0, Nothing)]
       + ([Proceed(0, Resolution(true, true, Ok(RISKY), "id"))]
          + ([Proceed(0, Nothing)]
             + ([StartSubmit(1, "t", "id", "", "c")] + SUBMISSION))))

  ghost predicate Paid(w: World) {
    var ts := w.store.transfers;
    "id" in ts && ts["id"].receiverRisk == Int64.INT64_MAX && ts["id"].spiMessageId == "m" && ts["id"].status == Approved
  }

  lemma SubmissionRuns(issuer: Issuer, w: World)
    requires issuer("m") == "id"
    requires w.store.transfers == map["id" := Stored()] && Stage(w, w.store, 1, Claiming(), {"id", "c"})
    ensures Runs(issuer, w, SUBMISSION) && Paid(Run(issuer, w, SUBMISSION))
  {
    hide Enabled, Apply, Runs, Run, Stored, Held, Claiming, Recording;
    var claim, call := Proceed(1, Nothing), Proceed(1, SpiAnswer(Ok(MESSAGE)));
    Claimed(issuer, w);
    var w1 := Apply(issuer, w, claim);
    Answered(issuer, w1);
    var w2 := Apply(issuer, w1, call);
    Recorded(issuer, w2);
    Stops(issuer, Apply(issuer, w2, claim));
    Prepend(issuer, w2, claim, []);
    Prepend(issuer, w1, call, [claim] + []);
    Prepend(issuer, w, claim, [call] + ([claim] + []));
  }

  lemma Stops(issuer: Issuer, w: World)
    ensures Runs(issuer, w, []) && Run(issuer, w, []) == w
  {
  }

  /** So the promise that such a receiver never obtains identifiers has a run that breaks it. */
  lemma RiskyReceiverIsPaid(issuer: Issuer)
    requires issuer("m") == "id"
    ensures Runs(issuer, INITIAL, CREATION) && Paid(Reach(issuer, CREATION))
  {
    hide Enabled, Apply, Runs, Run, Stored, Claiming, Insertion, Paid;
    var find, decide := Proceed(0, Nothing), Proceed(0, Resolution(true, true, Ok(RISKY), "id"));
    var submit := StartSubmit(1, "t", "id", "", "c");
    Requested(issuer);
    var w1 := Apply(issuer, INITIAL, StartCreate(0, REQUEST));
    NotFoundYet(issuer, w1);
    var w2 := Apply(issuer, w1, find);
    Judged(issuer, w2);
    var w3 := Apply(issuer, w2, decide);
    Inserted(issuer, w3);
    var w4 := Apply(issuer, w3, find);
    Submitting(issuer, w4);
    var w5 := Apply(issuer, w4, submit);
    SubmissionRuns(issuer, w5);
    Prepend(issuer, w4, submit, SUBMISSION);
    Prepend(issuer, w3, find, [submit] + SUBMISSION);
    Prepend(issuer, w2, decide, [find] + ([submit] + SUBMISSION));
    Prepend(issuer, w1, find, [decide] + ([find] + ([submit] + SUBMISSION)));
    Prepend(issuer, INITIAL, StartCreate(0, REQUEST), [find] + ([decide] + ([find] + ([submit] + SUBMISSION))));
  }
}
