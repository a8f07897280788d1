/** The fixed window: a count that starts over once the window has passed. */
module FixedWindow {
  import opened Instants
  import opened Int64
  import opened Traces
  import opened WindowSettings

  datatype Window = Window(start: int, count: nat)

  type Windows = map<string, Window>

  /** A missing window reads as one that started at the zero time, and either starts anew. */
  predicate StartsAnew(c: Settings, windows: Windows, r: Request) {
    || r.key !in windows
    || windows[r.key].start == ZERO_TIME
    || Since(r.now, windows[r.key].start) >= c.window
  }

  function Step(c: Settings, windows: Windows, r: Request): (Windows, bool) {
    if StartsAnew(c, windows, r) then (windows[r.key := Window(r.now, 1)], true)
    else if windows[r.key].count >= c.limit then (windows, false)
    else (windows[r.key := Window(windows[r.key].start, windows[r.key].count + 1)], true)
  }

  function Stepper(c: Settings): (Windows, Request) -> (Windows, bool) {
    (windows, r) => Step(c, windows, r)
  }

  class Limiter {
    var config: Settings
    var windows: Windows

    constructor (c: Config)
      ensures config == WithDefaults(c) && windows == map[]
    {
      config := WithDefaults(c);
      windows := map[];
    }

    method Allow(key: string, now: int) returns (ok: bool)
      modifies this`windows
      ensures (windows, ok) == Step(config, old(windows), Request(key, now))
    {
      var window := if key in windows then windows[key] else Window(ZERO_TIME, 0);
      if window.start == ZERO_TIME || Since(now, window.start) >= config.window {
        windows := windows[key := Window(now, 1)];
        return true;
      }
      if window.count >= config.limit {
        return false;
      }
      window := window.(count := window.count + 1);
      windows := windows[key := window];
      return true;
    }
  }

  // ---------------------------------------------------------------- whole runs

  function Passed(c: Settings, trace: seq<Request>, key: string): seq<int> {
    Accepted(Stepper(c), map[], trace, key)
  }

  ghost predicate NeverZero(trace: seq<Request>) {
    forall i :: 0 <= i < |trace| ==> trace[i].now != ZERO_TIME
  }

  /** What is known of a stretch `[s, s + window)` in which `seen` requests were accepted, from
      the current window of the key: if that started before the stretch, its first request is
      outside; if it started within, the one before it did not, and so had its first request
      outside. */
  ghost predicate Tally(c: Settings, w: Window, seen: nat, s: int) {
    && 1 <= w.count <= c.limit
    && w.start != ZERO_TIME
    && seen <= 2 * c.limit - 1
    && (w.start < s ==> seen <= w.count - 1)
    && (s <= w.start < s + c.window ==> seen <= c.limit - 1 + w.count)
  }

  ghost predicate KeyIsTallied(c: Settings, trace: seq<Request>, key: string, s: int) {
    var windows := Run(Stepper(c), map[], trace);
    var seen := CountIn(Passed(c, trace, key), s, s + c.window - 1);
    && (key !in windows ==> seen == 0)
    && (key in windows ==> Tally(c, windows[key], seen, s) && trace != [] && windows[key].start <= Last(trace).now)
    && (trace != [] && Last(trace).now < s ==> seen == 0)
  }

  lemma SinceReaches(now: int, start: int, window: int64)
    requires window > 0
    ensures Since(now, start) >= window <==> now - start >= window
  {
  }

  lemma StepIsTallied(c: Settings, windows: Windows, r: Request, seen: nat, s: int)
    requires r.now != ZERO_TIME && (r.now < s ==> seen == 0)
    requires r.key in windows ==> Tally(c, windows[r.key], seen, s) && windows[r.key].start <= r.now
    requires r.key !in windows ==> seen == 0
    ensures var (windows', ok) := Step(c, windows, r);
            && r.key in windows' && windows'[r.key].start <= r.now
            && Tally(c, windows'[r.key], seen + (if ok && s <= r.now <= s + c.window - 1 then 1 else 0), s)
  {
    hide Since;
    if r.key in windows {
      SinceReaches(r.now, windows[r.key].start, c.window);
    }
  }

  lemma {:induction false} EveryKeyIsTallied(c: Settings, trace: seq<Request>, key: string, s: int)
    requires NonDecreasing(trace) && NeverZero(trace)
    ensures KeyIsTallied(c, trace, key, s)
    decreases |trace|
  {
    if trace != [] {
      var before, r := Front(trace), Last(trace);
      NonDecreasingFront(trace);
      assert r.now != ZERO_TIME;
      EveryKeyIsTallied(c, before, key, s);
      hide CountIn, Passed, Run, NonDecreasing, NeverZero, Tally, Step, Front, Last;
      Extended(c, trace, key, s, s + c.window - 1);
      var windows := Run(Stepper(c), map[], before);
      if r.key == key {
        StepIsTallied(c, windows, r, CountIn(Passed(c, before, key), s, s + c.window - 1), s);
      } else {
        StepElsewhere(c, windows, r, key);
      }
    }
  }

  lemma Extended(c: Settings, trace: seq<Request>, key: string, s: int, e: int)
    requires trace != []
    ensures var r := Last(trace); var (windows, ok) := Step(c, Run(Stepper(c), map[], Front(trace)), r);
            && Run(Stepper(c), map[], trace) == windows
            && CountIn(Passed(c, trace, key), s, e) ==
               CountIn(Passed(c, Front(trace), key), s, e) + (if r.key == key && ok && s <= r.now <= e then 1 else 0)
  {
    hide Step, CountIn;
    Unfold(Stepper(c), map[], trace, key);
    AcceptedGrows(Stepper(c), map[], trace, key, s, e);
  }

  lemma StepElsewhere(c: Settings, windows: Windows, r: Request, key: string)
    requires key != r.key
    ensures var windows' := Step(c, windows, r).0;
            (key in windows' <==> key in windows) && (key in windows ==> windows'[key] == windows[key])
  {
  }

  /** On a clock that does not go back and never reads the zero time, a stretch of time as long
      as the window holds fewer than twice the limit of accepted requests. */
  lemma WindowIsBounded(c: Settings, trace: seq<Request>, key: string, s: int)
    requires NonDecreasing(trace) && NeverZero(trace)
    ensures CountIn(Passed(c, trace, key), s, s + c.window - 1) <= 2 * c.limit - 1
  {
    hide Run, CountIn, Passed, NonDecreasing, NeverZero;
    EveryKeyIsTallied(c, trace, key, s);
  }

  // ------------------------------------------------------------- which are accepted

  /** Of accepted instants in order, the one that opened the last window: each window is opened
      by the first instant that the one before it does not reach. */
  function LastOpening(times: seq<int>, window: int): int
    requires times != []
  {
    var last := times[|times| - 1];
    if |times| == 1 then last
    else
      var opening := LastOpening(times[..|times| - 1], window);
      if last - opening >= window then last else opening
  }

  lemma OpeningSnoc(times: seq<int>, t: int, window: int)
    ensures LastOpening(times + [t], window)
            == if times == [] || t - LastOpening(times, window) >= window then t else LastOpening(times, window)
  {
    assert (times + [t])[..|times|] == times;
  }

  ghost predicate AllBelow(times: seq<int>, bound: int) {
    forall i :: 0 <= i < |times| ==> times[i] < bound
  }

  lemma {:induction false} NoneCounted(times: seq<int>, s: int, e: int)
    requires AllBelow(times, s)
    ensures CountIn(times, s, e) == 0
  {
    if times != [] {
      NoneCounted(times[..|times| - 1], s, e);
    }
  }

  /** The stored window is the last one opened, and counts what it accepted. */
  ghost predicate Counts(c: Settings, w: Window, passed: seq<int>) {
    && passed != [] && w.start == LastOpening(passed, c.window) && w.start != ZERO_TIME
    && w.count == CountIn(passed, w.start, w.start + c.window - 1)
    && AllBelow(passed, w.start + c.window)
  }

  ghost predicate KeyIsCounted(c: Settings, trace: seq<Request>, key: string) {
    var windows, passed := Run(Stepper(c), map[], trace), Passed(c, trace, key);
    && (key !in windows ==> passed == [])
    && (key in windows ==> Counts(c, windows[key], passed) && trace != [] && windows[key].start <= Last(trace).now)
  }

  /** What a request finds: no window, one that has passed, or one with room. */
  predicate Admits(c: Settings, passed: seq<int>, now: int) {
    || passed == []
    || now - LastOpening(passed, c.window) >= c.window
    || CountIn(passed, LastOpening(passed, c.window), LastOpening(passed, c.window) + c.window - 1) < c.limit
  }

  lemma StepCounts(c: Settings, windows: Windows, r: Request, passed: seq<int>)
    requires r.now != ZERO_TIME && (r.key !in windows ==> passed == [])
    requires r.key in windows ==> Counts(c, windows[r.key], passed) && windows[r.key].start <= r.now
    ensures var (windows', ok) := Step(c, windows, r);
            && (ok <==> Admits(c, passed, r.now))
            && r.key in windows' && windows'[r.key].start <= r.now
            && Counts(c, windows'[r.key], passed + if ok then [r.now] else [])
  {
    hide Since, LastOpening, CountIn;
    var (windows', ok) := Step(c, windows, r);
    OpeningSnoc(passed, r.now, c.window);
    CountSnoc(passed, r.now, windows'[r.key].start, windows'[r.key].start + c.window - 1);
    if r.key in windows {
      SinceReaches(r.now, windows[r.key].start, c.window);
    }
    if StartsAnew(c, windows, r) {
      NoneCounted(passed, r.now, r.now + c.window - 1);
    }
    assert passed + [] == passed;
  }

  lemma {:induction false} EveryKeyIsCounted(c: Settings, trace: seq<Request>, key: string)
    requires NonDecreasing(trace) && NeverZero(trace)
    ensures KeyIsCounted(c, trace, key)
    decreases |trace|
  {
    if trace != [] {
      var before, r := Front(trace), Last(trace);
      NonDecreasingFront(trace);
      assert r.now != ZERO_TIME;
      EveryKeyIsCounted(c, before, key);
      hide Run, NonDecreasing, NeverZero, Counts, Step, Front, Last, Accepted, LastOpening, CountIn;
      Unfold(Stepper(c), map[], trace, key);
      var windows := Run(Stepper(c), map[], before);
      if r.key == key {
        StepCounts(c, windows, r, Passed(c, before, key));
      } else {
        StepElsewhere(c, windows, r, key);
        assert Passed(c, before, key) + [] == Passed(c, before, key);
      }
    }
  }

  /** On a clock that does not go back and never reads the zero time, a request is accepted exactly
      when the last window opened has passed, or has accepted fewer than the limit. */
  lemma AllowsExactlyWhen(c: Settings, trace: seq<Request>)
    requires trace != [] && NonDecreasing(trace) && NeverZero(trace)
    ensures Answer(Stepper(c), map[], trace) <==> Admits(c, Passed(c, Front(trace), Last(trace).key), Last(trace).now)
  {
    var before, r := Front(trace), Last(trace);
    NonDecreasingFront(trace);
    assert r.now != ZERO_TIME;
    EveryKeyIsCounted(c, before, r.key);
    hide Run, NonDecreasing, NeverZero, Counts, Step, Front, Last, Accepted, Admits;
    Unfold(Stepper(c), map[], trace, r.key);
    StepCounts(c, Run(Stepper(c), map[], before), r, Passed(c, before, r.key));
  }

  // ------------------------------------------------------------------ exactness

  ghost predicate Holds(c: Settings, trace: seq<Request>, key: string, s: int) {
    CountIn(Passed(c, trace, key), s, s + c.window - 1) <= 2 * c.limit - 1
  }

  /** At the zero time every request starts a window anew. */
  lemma ZeroTimeIsUnlimited(key: string)
    ensures var c: Settings := Config(1, 1); !Holds(c, [Request(key, 0), Request(key, 0)], key, 0)
  {
    var c: Settings := Config(1, 1);
    var trace := [Request(key, 0), Request(key, 0)];
    var front := [Request(key, 0)];
    assert Front(trace) == front && Front(front) == [];
    assert Run(Stepper(c), map[], front) == map[key := Window(0, 1)];
    Unfold(Stepper(c), map[], front, key);
    Unfold(Stepper(c), map[], trace, key);
    assert Passed(c, trace, key) == [0] + [0];
    CountSnoc([0], 0, 0, 0);
    CountSnoc([], 0, 0, 0);
    assert [] + [0] == [0];
  }

  lemma HoldsWithoutZero(c: Settings, trace: seq<Request>, key: string, s: int, readings: iset<int>)
    requires NonDecreasing(trace) && Over(trace, readings) && ZERO_TIME !in readings
    ensures Holds(c, trace, key, s)
  {
    hide CountIn, Passed;
    WindowIsBounded(c, trace, key, s);
  }

  lemma FailsWithZero(trace: seq<Request>, readings: iset<int>)
    requires ZERO_TIME in readings && trace == [Request("", 0), Request("", 0)]
    ensures NonDecreasing(trace) && Over(trace, readings) && !Holds(Config(1, 1), trace, "", 0)
  {
    hide CountIn, Passed, Holds;
    ZeroTimeIsUnlimited("");
  }

  /** The bound holds on every trace over a set of readings, whatever the settings, exactly when
      the zero time is not among them. */
  lemma BoundedIff(readings: iset<int>)
    ensures (forall c: Settings, trace: seq<Request>, key: string, s: int ::
               NonDecreasing(trace) && Over(trace, readings) ==> Holds(c, trace, key, s))
            <==> ZERO_TIME !in readings
  {
    hide Holds, NonDecreasing, Over;
    if ZERO_TIME in readings {
      var c: Settings := Config(1, 1);
      var trace := [Request("", 0), Request("", 0)];
      FailsWithZero(trace, readings);
      assert !Holds(c, trace, "", 0);
    } else {
      forall c: Settings, trace: seq<Request>, key: string, s: int | NonDecreasing(trace) && Over(trace, readings)
        ensures Holds(c, trace, key, s)
      {
        HoldsWithoutZero(c, trace, key, s, readings);
      }
    }
  }

  // ------------------------------------------------------------------ tightness

  function Repeated(key: string, t: int, n: nat): seq<Request> {
    if n == 0 then [] else Repeated(key, t, n - 1) + [Request(key, t)]
  }

  lemma OneMore(c: Settings, front: seq<Request>, r: Request, s: int, e: int)
    ensures var trace := front + [r]; var (windows, ok) := Step(c, Run(Stepper(c), map[], front), r);
            && Run(Stepper(c), map[], trace) == windows
            && CountIn(Passed(c, trace, r.key), s, e) ==
               CountIn(Passed(c, front, r.key), s, e) + (if ok && s <= r.now <= e then 1 else 0)
  {
    assert Front(front + [r]) == front && Last(front + [r]) == r;
    hide Step, CountIn, Passed, Run;
    Extended(c, front + [r], r.key, s, e);
  }

  ghost predicate Stands(c: Settings, trace: seq<Request>, key: string, w: Window, s: int, e: int, seen: nat) {
    var windows := Run(Stepper(c), map[], trace);
    && key in windows
    && windows[key] == w
    && CountIn(Passed(c, trace, key), s, e) == seen
  }

  lemma AcceptOne(c: Settings, base: seq<Request>, key: string, t: int, w: Window, s: int, e: int, seen: nat)
    requires Stands(c, base, key, w, s, e, seen)
    requires w.start != ZERO_TIME && t - w.start < c.window && w.count < c.limit && s <= t <= e
    ensures Stands(c, base + [Request(key, t)], key, Window(w.start, w.count + 1), s, e, seen + 1)
  {
    hide CountIn, Passed, Run, Since;
    OneMore(c, base, Request(key, t), s, e);
    SinceReaches(t, w.start, c.window);
  }

  /** Requests within the current window are accepted up to the limit. */
  lemma {:induction false} FillUp(c: Settings, base: seq<Request>, key: string, t: int, n: nat, w: Window, s: int, e: int, seen: nat)
    requires Stands(c, base, key, w, s, e, seen)
    requires w.start != ZERO_TIME && t - w.start < c.window && w.count + n <= c.limit && s <= t <= e
    ensures Stands(c, base + Repeated(key, t, n), key, Window(w.start, w.count + n), s, e, seen + n)
  {
    hide Stands;
    if n == 0 {
      assert base + Repeated(key, t, n) == base;
    } else {
      FillUp(c, base, key, t, n - 1, w, s, e, seen);
      var front := base + Repeated(key, t, n - 1);
      assert base + Repeated(key, t, n) == front + [Request(key, t)];
      AcceptOne(c, front, key, t, Window(w.start, w.count + n - 1), s, e, seen + n - 1);
    }
  }

  /** Once the window has passed, a request starts the next one. */
  lemma StartNext(c: Settings, base: seq<Request>, key: string, t: int, w: Window, s: int, e: int, seen: nat)
    requires Stands(c, base, key, w, s, e, seen) && t - w.start >= c.window
    ensures Stands(c, base + [Request(key, t)], key, Window(t, 1), s, e, seen + if s <= t <= e then 1 else 0)
  {
    hide CountIn, Passed, Run, Since;
    OneMore(c, base, Request(key, t), s, e);
    SinceReaches(t, w.start, c.window);
  }

  lemma StartFirst(c: Settings, key: string, t: int, s: int, e: int)
    ensures Stands(c, [Request(key, t)], key, Window(t, 1), s, e, if s <= t <= e then 1 else 0)
  {
    assert [] + [Request(key, t)] == [Request(key, t)];
    OneMore(c, [], Request(key, t), s, e);
  }

  /** One request, then the rest of its window's at the end of the window, then a full window. */
  function Crowd(c: Settings, key: string): seq<Request> {
    [Request(key, 1)] + Repeated(key, c.window, c.limit - 1) + [Request(key, c.window + 1)]
    + Repeated(key, c.window + 1, c.limit - 1)
  }

  /** The bound is reached, for every limit and every window of two instants or more. */
  lemma BoundIsTight(c: Settings, key: string)
    requires c.window >= 2
    ensures CountIn(Passed(c, Crowd(c, key), key), 2, 2 + c.window - 1) == 2 * c.limit - 1
  {
    hide Stands, Repeated, CountIn, Passed;
    var s, e := 2, c.window + 1;
    var t1 := [Request(key, 1)];
    StartFirst(c, key, 1, s, e);
    FillUp(c, t1, key, c.window, c.limit - 1, Window(1, 1), s, e, 0);
    var t2 := t1 + Repeated(key, c.window, c.limit - 1);
    StartNext(c, t2, key, c.window + 1, Window(1, c.limit), s, e, c.limit - 1);
    var t3 := t2 + [Request(key, c.window + 1)];
    FillUp(c, t3, key, c.window + 1, c.limit - 1, Window(c.window + 1, 1), s, e, c.limit);
    StandsCounts(c, t3 + Repeated(key, c.window + 1, c.limit - 1), key, Window(c.window + 1, c.limit), s, e, 2 * c.limit - 1);
  }

  lemma StandsCounts(c: Settings, trace: seq<Request>, key: string, w: Window, s: int, e: int, seen: nat)
    requires Stands(c, trace, key, w, s, e, seen)
    ensures CountIn(Passed(c, trace, key), s, e) == seen
  {
  }

  /** That crowd is a trace the bound speaks of. */
  lemma CrowdIsAdmissible(c: Settings, key: string)
    requires c.window >= 2
    ensures NonDecreasing(Crowd(c, key)) && NeverZero(Crowd(c, key))
  {
    RepeatedIs(key, c.window, c.limit - 1);
    RepeatedIs(key, c.window + 1, c.limit - 1);
    hide Repeated;
  }

  lemma {:induction false} RepeatedIs(key: string, t: int, n: nat)
    ensures |Repeated(key, t, n)| == n
    ensures forall i :: 0 <= i < n ==> Repeated(key, t, n)[i].now == t
  {
    if n > 0 {
      RepeatedIs(key, t, n - 1);
    }
  }
}
