/** A service call that runs with no other actor in between: its phases, one
    after another. */
module Solo {
  import opened Wrappers
  import opened Instants
  import opened Rail
  import opened Store
  import opened Calls

  /** The clock as a call reads it: its k-th reading. */
  type Clock = nat -> Instant

  datatype Finished = Finished(state: State, answer: Answer)

  /** How many phases may still follow. */
  function Rank(p: Phase): nat {
    match p
    case CreateFind(_, _) => 4
    case CreateDecide(_, _) => 3
    case CreateInsert(_, _, _, _, _) => 2
    case CreateRefind(_, _) => 1
    case SubmitClaim(_, _, _, _, _) => 3
    case SubmitCall(_, _, _, _, _, _) => 2
    case SubmitRecord(_, _, _, _, _, _) => 1
    case SubmitRelease(_, _, _, _, _) => 1
    case ReviewRead(_) => 2
    case ReviewCommit(_, _, _, _, _, _) => 1
    case SettleRead(_) => 2
    case SettleCommit(_, _, _) => 1
  }

  /** A call run to its end with nothing in between; the k-th phase reads `clock(k)`. */
  function Alone(s: State, clock: Clock, k: nat, m: Move, outside: Input): Finished
    requires m.Goes? ==> (m.phase.CreateFind? || m.phase.CreateDecide? ==> outside.Resolution?)
    requires m.Goes? ==> (m.phase.SubmitClaim? || m.phase.SubmitCall? ==> outside.SpiAnswer?)
    decreases if m.Goes? then Rank(m.phase) else 0
  {
    match m
    case Ends(answer) => Finished(s, answer)
    case Goes(p) =>
      var e := Advance(s, clock(k), p, if Fits(p, outside) then outside else Nothing);
      Alone(e.state, clock, k + 1, e.move, outside)
  }

  /** A call in phase `p` makes that phase and goes on alone. */
  lemma AloneStep(s: State, clock: Clock, k: nat, p: Phase, outside: Input)
    requires p.CreateFind? || p.CreateDecide? ==> outside.Resolution?
    requires p.SubmitClaim? || p.SubmitCall? ==> outside.SpiAnswer?
    ensures var e := Advance(s, clock(k), p, if Fits(p, outside) then outside else Nothing);
            Alone(s, clock, k, Goes(p), outside) == Alone(e.state, clock, k + 1, e.move, outside)
  {
  }

  lemma AloneEnds(s: State, clock: Clock, k: nat, m: Move, outside: Input)
    requires m.Ends?
    ensures Alone(s, clock, k, m, outside) == Finished(s, m.answer)
  {
  }
}
