/** The sliding window: a log of accepted requests, pruned from the front. */
module SlidingWindow {
  import opened Int64
  import opened Traces
  import opened WindowSettings

  type Log = map<string, seq<int>>

  /** Drops the leading instants that are not after the cutoff. */
  function Pruned(events: seq<int>, cutoff: int): seq<int> {
    if events != [] && events[0] <= cutoff then Pruned(events[1..], cutoff) else events
  }

  function Lookup(log: Log, key: string): seq<int> {
    if key in log then log[key] else []
  }

  function Step(c: Settings, log: Log, r: Request): (Log, bool) {
    var events := Pruned(Lookup(log, r.key), r.now - c.window);
    if |events| >= c.limit then (log[r.key := events], false)
    else (log[r.key := events + [r.now]], true)
  }

  function Stepper(c: Settings): (Log, Request) -> (Log, bool) {
    (log, r) => Step(c, log, r)
  }

  class Limiter {
    var config: Settings
    var log: Log

    constructor (c: Config)
      ensures config == WithDefaults(c) && log == map[]
    {
      config := WithDefaults(c);
      log := map[];
    }

    method Allow(key: string, now: int) returns (ok: bool)
      modifies this`log
      ensures (log, ok) == Step(config, old(log), Request(key, now))
    {
      var cutoff := now - config.window;
      var events := if key in log then log[key] else [];
      var keepFrom := 0;
      assert events[0..] == events;
      while keepFrom < |events| && !(events[keepFrom] > cutoff)
        invariant 0 <= keepFrom <= |events|
        invariant Pruned(events, cutoff) == Pruned(events[keepFrom..], cutoff)
      {
        assert events[keepFrom..][1..] == events[keepFrom + 1..];
        keepFrom := keepFrom + 1;
      }
      if keepFrom > 0 {
        events := events[keepFrom..];
      }
      if |events| >= config.limit {
        log := log[key := events];
        return false;
      }
      events := events + [now];
      log := log[key := events];
      return true;
    }
  }

  // ------------------------------------------------------------------- the log

  /** Those of the instants after the cutoff, in order. */
  function After(times: seq<int>, cutoff: int): seq<int> {
    if times == [] then []
    else After(times[..|times| - 1], cutoff) + (if times[|times| - 1] > cutoff then [times[|times| - 1]] else [])
  }

  ghost predicate Sorted(times: seq<int>) {
    forall i, j :: 0 <= i < j < |times| ==> times[i] <= times[j]
  }

  lemma AfterSnoc(times: seq<int>, t: int, cutoff: int)
    ensures After(times + [t], cutoff) == After(times, cutoff) + (if t > cutoff then [t] else [])
  {
    assert (times + [t])[..|times|] == times;
  }

  lemma {:induction false} AfterAll(times: seq<int>, cutoff: int)
    requires forall i :: 0 <= i < |times| ==> times[i] > cutoff
    ensures After(times, cutoff) == times
  {
    if times != [] {
      var init := times[..|times| - 1];
      AfterAll(init, cutoff);
      assert times == init + [times[|times| - 1]];
    }
  }

  lemma {:induction false} AfterCons(t: int, times: seq<int>, cutoff: int)
    ensures After([t] + times, cutoff) == (if t > cutoff then [t] else []) + After(times, cutoff)
    decreases |times|
  {
    var all := [t] + times;
    if times == [] {
      assert all[..0] == [];
      assert After(all, cutoff) == After(all[..0], cutoff) + (if t > cutoff then [t] else []);
    } else {
      var init, last := times[..|times| - 1], times[|times| - 1];
      assert all[..|all| - 1] == [t] + init;
      AfterCons(t, init, cutoff);
    }
  }

  /** Pruning a sorted log keeps exactly what is after the cutoff. */
  lemma {:induction false} PrunedIsAfter(times: seq<int>, cutoff: int)
    requires Sorted(times)
    ensures Pruned(times, cutoff) == After(times, cutoff)
    decreases |times|
  {
    if times != [] {
      if times[0] <= cutoff {
        PrunedIsAfter(times[1..], cutoff);
        assert times == [times[0]] + times[1..];
        AfterCons(times[0], times[1..], cutoff);
      } else {
        AfterAll(times, cutoff);
      }
    }
  }

  /** An earlier cutoff first makes no difference. */
  lemma {:induction false} AfterTwice(times: seq<int>, early: int, late: int)
    requires early <= late
    ensures After(After(times, early), late) == After(times, late)
  {
    if times != [] {
      var init, last := times[..|times| - 1], times[|times| - 1];
      AfterTwice(init, early, late);
      AfterSnoc(After(init, early), last, late);
      assert After(init, early) + [] == After(init, early);
    }
  }

  lemma {:induction false} AfterSorted(times: seq<int>, cutoff: int)
    requires Sorted(times)
    ensures Sorted(After(times, cutoff))
    ensures forall t :: t in After(times, cutoff) ==> t in times
  {
    if times != [] {
      var init := times[..|times| - 1];
      AfterSorted(init, cutoff);
      var kept := After(init, cutoff);
      forall i | 0 <= i < |kept| ensures kept[i] <= times[|times| - 1] {
        assert kept[i] in kept;
      }
    }
  }

  /** As many as lie between the cutoff and the last instant. */
  lemma {:induction false} AfterCounts(times: seq<int>, cutoff: int, now: int)
    requires AllUpto(times, now)
    ensures |After(times, cutoff)| == CountIn(times, cutoff + 1, now)
  {
    if times != [] {
      AfterCounts(times[..|times| - 1], cutoff, now);
    }
  }

  // ---------------------------------------------------------------- whole runs

  ghost predicate AllUpto(times: seq<int>, now: int) {
    forall i :: 0 <= i < |times| ==> times[i] <= now
  }

  /** Accepted requests come in clock order. */
  lemma {:induction false} AcceptedSorted(c: Settings, trace: seq<Request>, key: string)
    requires NonDecreasing(trace)
    ensures Sorted(Accepted(Stepper(c), map[], trace, key))
    ensures trace != [] ==> AllUpto(Accepted(Stepper(c), map[], trace, key), Last(trace).now)
    decreases |trace|
  {
    if trace != [] {
      var before := Front(trace);
      AcceptedSorted(c, before, key);
      hide Step;
      assert before != [] ==> Last(before).now <= Last(trace).now;
    }
  }

  /** What is stored for a key, and what was accepted for it, after a run. */
  function Stored(c: Settings, trace: seq<Request>, key: string): seq<int> {
    Lookup(Run(Stepper(c), map[], trace), key)
  }

  function Passed(c: Settings, trace: seq<Request>, key: string): seq<int> {
    Accepted(Stepper(c), map[], trace, key)
  }

  /** Pruning a log, whenever it was pruned before, leaves what was accepted since. */
  lemma PruneIsExact(accepted: seq<int>, early: int, late: int)
    requires Sorted(accepted) && early <= late
    ensures Pruned(After(accepted, early), late) == After(accepted, late)
  {
    hide After, Pruned;
    AfterSorted(accepted, early);
    PrunedIsAfter(After(accepted, early), late);
    AfterTwice(accepted, early, late);
  }

  lemma StepIsExact(c: Settings, log: Log, r: Request, accepted: seq<int>)
    requires Pruned(Lookup(log, r.key), r.now - c.window) == After(accepted, r.now - c.window)
    ensures var (log', ok) := Step(c, log, r);
            && (ok <==> |After(accepted, r.now - c.window)| < c.limit)
            && Lookup(log', r.key) == After(accepted + (if ok then [r.now] else []), r.now - c.window)
  {
    hide Pruned, After;
    AfterSnoc(accepted, r.now, r.now - c.window);
    assert accepted + [] == accepted;
  }

  lemma StepElsewhere(c: Settings, log: Log, r: Request, key: string)
    requires key != r.key
    ensures Lookup(Step(c, log, r).0, key) == Lookup(log, key)
  {
    hide Pruned;
  }

  lemma OneMore(c: Settings, trace: seq<Request>, key: string)
    requires trace != []
    ensures var r := Last(trace); var (log', ok) := Step(c, Run(Stepper(c), map[], Front(trace)), r);
            && Answer(Stepper(c), map[], trace) == ok
            && Stored(c, trace, key) == Lookup(log', key)
            && Passed(c, trace, key) == Passed(c, Front(trace), key) + (if r.key == key && ok then [r.now] else [])
  {
    hide Step;
    Unfold(Stepper(c), map[], trace, key);
  }

  lemma LogStep(c: Settings, trace: seq<Request>, key: string, early: int)
    requires trace != [] && Sorted(Passed(c, Front(trace), key))
    requires Stored(c, Front(trace), key) == After(Passed(c, Front(trace), key), early)
    requires early <= Last(trace).now - c.window
    ensures var r := Last(trace); var passed := Passed(c, Front(trace), key);
            && Stored(c, trace, key) == After(Passed(c, trace, key), if r.key == key then r.now - c.window else early)
            && (r.key == key ==>
                  (Answer(Stepper(c), map[], trace) <==> |After(passed, r.now - c.window)| < c.limit))
  {
    hide Passed, After, Pruned, Lookup, Step, Answer, Run, Sorted, Front, Last;
    var r, passed := Last(trace), Passed(c, Front(trace), key);
    var log := Run(Stepper(c), map[], Front(trace));
    OneMore(c, trace, key);
    if r.key == key {
      PruneIsExact(passed, early, r.now - c.window);
      StepIsExact(c, log, r, passed);
    } else {
      StepElsewhere(c, log, r, key);
      assert passed + [] == passed;
    }
  }

  lemma SortedPassed(c: Settings, trace: seq<Request>, key: string)
    requires NonDecreasing(trace)
    ensures Sorted(Passed(c, trace, key))
  {
    AcceptedSorted(c, trace, key);
  }

  /** A log is what was accepted since some cutoff that every later request is past. */
  lemma {:induction false} LogSince(c: Settings, trace: seq<Request>, key: string, now: int) returns (cutoff: int)
    requires NonDecreasing(trace) && (trace != [] ==> Last(trace).now <= now)
    ensures Stored(c, trace, key) == After(Passed(c, trace, key), cutoff)
    ensures cutoff <= now - c.window
    decreases |trace|
  {
    if trace == [] {
      cutoff := now - c.window;
    } else {
      hide Passed, Stored, After, Answer, Sorted, NonDecreasing;
      NonDecreasingFront(trace);
      var early := LogSince(c, Front(trace), key, Last(trace).now);
      SortedPassed(c, Front(trace), key);
      LogStep(c, trace, key, early);
      cutoff := if Last(trace).key == key then Last(trace).now - c.window else early;
    }
  }

  /** On a clock that does not go back, a request is accepted exactly when fewer than the limit
      were accepted in the window that ends with it, and the log is then exactly what was
      accepted in that window. */
  lemma WindowIsExact(c: Settings, trace: seq<Request>)
    requires trace != [] && NonDecreasing(trace)
    ensures var r := Last(trace);
            && (Answer(Stepper(c), map[], trace) <==>
                CountIn(Passed(c, Front(trace), r.key), r.now - c.window + 1, r.now) < c.limit)
            && Stored(c, trace, r.key) == After(Passed(c, trace, r.key), r.now - c.window)
  {
    hide Passed, Stored, After, Answer, Sorted, NonDecreasing, AllUpto, CountIn;
    var before, r := Front(trace), Last(trace);
    NonDecreasingFront(trace);
    var early := LogSince(c, before, r.key, r.now);
    SortedPassed(c, before, r.key);
    LogStep(c, trace, r.key, early);
    EarlierAccepted(c, before, r.key, r.now);
    AfterCounts(Passed(c, before, r.key), r.now - c.window, r.now);
  }

  lemma {:induction false} CountNarrows(times: seq<int>, s: int, e: int, s': int, now: int)
    requires AllUpto(times, now) && s' <= s
    ensures CountIn(times, s, e) <= CountIn(times, s', now)
  {
    if times != [] {
      CountNarrows(times[..|times| - 1], s, e, s', now);
    }
  }

  /** A request in the stretch that was accepted found the stretch short of the limit. */
  lemma AcceptedFindsRoom(c: Settings, trace: seq<Request>, s: int)
    requires trace != [] && NonDecreasing(trace) && Answer(Stepper(c), map[], trace)
    requires s <= Last(trace).now <= s + c.window - 1
    ensures CountIn(Passed(c, Front(trace), Last(trace).key), s, s + c.window - 1) < c.limit
  {
    hide Answer, NonDecreasing, CountIn, Passed, After, Stored, AllUpto, Stepper;
    var before, r := Front(trace), Last(trace);
    NonDecreasingFront(trace);
    WindowIsExact(c, trace);
    EarlierAccepted(c, before, r.key, r.now);
    CountNarrows(Passed(c, before, r.key), s, s + c.window - 1, r.now - c.window + 1, r.now);
  }

  lemma NothingPassed(c: Settings, key: string, s: int, e: int)
    ensures CountIn(Passed(c, [], key), s, e) == 0
  {
  }

  /** No stretch of time as long as the window holds more accepted requests than the limit. */
  lemma {:induction false} WindowIsBounded(c: Settings, trace: seq<Request>, key: string, s: int)
    requires NonDecreasing(trace)
    ensures CountIn(Passed(c, trace, key), s, s + c.window - 1) <= c.limit
    decreases |trace|
  {
    hide Answer, NonDecreasing, CountIn, Passed, Stepper;
    if trace == [] {
      NothingPassed(c, key, s, s + c.window - 1);
    } else {
      NonDecreasingFront(trace);
      WindowIsBounded(c, Front(trace), key, s);
      PassedGrows(c, trace, key, s, s + c.window - 1);
      if Last(trace).key == key && Answer(Stepper(c), map[], trace) && s <= Last(trace).now <= s + c.window - 1 {
        AcceptedFindsRoom(c, trace, s);
      }
    }
  }

  lemma PassedGrows(c: Settings, trace: seq<Request>, key: string, s: int, e: int)
    requires trace != []
    ensures CountIn(Passed(c, trace, key), s, e) ==
            CountIn(Passed(c, Front(trace), key), s, e)
            + (if Last(trace).key == key && Answer(Stepper(c), map[], trace) && s <= Last(trace).now <= e then 1 else 0)
  {
    AcceptedGrows(Stepper(c), map[], trace, key, s, e);
  }

  lemma EarlierAccepted(c: Settings, trace: seq<Request>, key: string, now: int)
    requires NonDecreasing(trace) && (trace != [] ==> Last(trace).now <= now)
    ensures AllUpto(Passed(c, trace, key), now)
  {
    AcceptedSorted(c, trace, key);
  }
}
