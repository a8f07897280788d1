/** Requests to a rate limiter, and what a limiter does with a whole sequence of them. */
module Traces {
  import opened Int64

  datatype Request = Request(key: string, now: int)

  /** The difference of two instants, held at the ends of the 64-bit range. */
  function Since(now: int, start: int): (r: int64)
    ensures -INT64_MAX - 1 <= now - start <= INT64_MAX ==> r == now - start
  {
    var d := now - start;
    if d > INT64_MAX then INT64_MAX else if d < -INT64_MAX - 1 then -INT64_MAX - 1 else d
  }

  function Front(trace: seq<Request>): seq<Request>
    requires trace != []
  {
    trace[..|trace| - 1]
  }

  function Last(trace: seq<Request>): Request
    requires trace != []
  {
    trace[|trace| - 1]
  }

  ghost predicate NonDecreasing(trace: seq<Request>) {
    forall i, j :: 0 <= i < j < |trace| ==> trace[i].now <= trace[j].now
  }

  /** Every reading lies between the two instants, whose distance fits in a duration. */
  ghost predicate Within(trace: seq<Request>, lo: int, hi: int) {
    && hi - lo <= INT64_MAX
    && forall i :: 0 <= i < |trace| ==> lo <= trace[i].now <= hi
  }

  /** Every reading comes from the set. */
  ghost predicate Over(trace: seq<Request>, readings: iset<int>) {
    forall i :: 0 <= i < |trace| ==> trace[i].now in readings
  }

  lemma FrontKeeps(trace: seq<Request>, lo: int, hi: int)
    requires trace != []
    ensures NonDecreasing(trace) ==> NonDecreasing(Front(trace))
    ensures Within(trace, lo, hi) ==> Within(Front(trace), lo, hi) && lo <= Last(trace).now <= hi
  {
  }

  lemma NonDecreasingFront(trace: seq<Request>)
    requires trace != [] && NonDecreasing(trace)
    ensures NonDecreasing(Front(trace))
    ensures Front(trace) != [] ==> Last(Front(trace)).now <= Last(trace).now
  {
  }

  /** The state of a limiter after a sequence of requests. */
  function Run<S>(step: (S, Request) -> (S, bool), init: S, trace: seq<Request>): S {
    if trace == [] then init else step(Run(step, init, Front(trace)), Last(trace)).0
  }

  /** Its answer to the last of them. */
  function Answer<S>(step: (S, Request) -> (S, bool), init: S, trace: seq<Request>): bool
    requires trace != []
  {
    step(Run(step, init, Front(trace)), Last(trace)).1
  }

  /** When it accepted a request for a key. */
  function Accepted<S>(step: (S, Request) -> (S, bool), init: S, trace: seq<Request>, key: string): seq<int> {
    if trace == [] then []
    else Accepted(step, init, Front(trace), key) + (if Last(trace).key == key && Answer(step, init, trace) then [Last(trace).now] else [])
  }

  /** One more request, spelled out. */
  lemma Unfold<S>(step: (S, Request) -> (S, bool), init: S, trace: seq<Request>, key: string)
    requires trace != []
    ensures var (state, ok) := step(Run(step, init, Front(trace)), Last(trace));
            && Run(step, init, trace) == state
            && Answer(step, init, trace) == ok
            && Accepted(step, init, trace, key) ==
               Accepted(step, init, Front(trace), key) + (if Last(trace).key == key && ok then [Last(trace).now] else [])
  {
  }

  /** How many of the instants lie between the two, ends included. */
  function CountIn(times: seq<int>, s: int, e: int): nat {
    if times == [] then 0
    else CountIn(times[..|times| - 1], s, e) + (if s <= times[|times| - 1] <= e then 1 else 0)
  }

  lemma CountSnoc(times: seq<int>, t: int, s: int, e: int)
    ensures CountIn(times + [t], s, e) == CountIn(times, s, e) + (if s <= t <= e then 1 else 0)
  {
    assert (times + [t])[..|times|] == times;
  }

  lemma AcceptedGrows<S>(step: (S, Request) -> (S, bool), init: S, trace: seq<Request>, key: string, s: int, e: int)
    requires trace != []
    ensures CountIn(Accepted(step, init, trace, key), s, e) ==
            CountIn(Accepted(step, init, Front(trace), key), s, e)
            + (if Last(trace).key == key && Answer(step, init, trace) && s <= Last(trace).now <= e then 1 else 0)
  {
    var times := Accepted(step, init, Front(trace), key);
    CountSnoc(times, Last(trace).now, s, e);
    assert times + [] == times;
  }
}
