/** The classifier's circuit breaker: after enough consecutive transport failures the network
    call is skipped until a cooldown has passed. Times are in whole clock ticks. */
module Breaker {

  /** A threshold of zero or less means the breaker never opens. */
  datatype Settings = Settings(threshold: int, cooldown: nat)

  datatype State = State(openUntil: int, failures: nat)

  predicate IsOpen(b: State, now: int) {
    now < b.openUntil
  }

  /** Opening starts the count over. */
  function Failed(c: Settings, b: State, now: int): State {
    if c.threshold > 0 && b.failures + 1 >= c.threshold
    then State(now + c.cooldown, 0)
    else b.(failures := b.failures + 1)
  }

  /** One classification: when it starts, when the network gave up or answered, and whether it
      answered. */
  datatype Attempt = Attempt(start: int, end: int, answered: bool)

  function Closed(): State { State(0, 0) }

  function After(c: Settings, b: State, a: Attempt): State {
    if IsOpen(b, a.start) then b
    else if a.answered then Closed()
    else Failed(c, b, a.end)
  }

  class CircuitBreaker {
    const settings: Settings
    var circuitOpenUntil: int
    var consecutiveFailures: nat

    ghost function View(): State
      reads this
    {
      State(circuitOpenUntil, consecutiveFailures)
    }

    constructor (settings: Settings)
      ensures View() == Closed() && this.settings == settings
    {
      this.settings, circuitOpenUntil, consecutiveFailures := settings, 0, 0;
    }

    method RecordTransportFailure(now: int)
      modifies this
      ensures View() == Failed(settings, old(View()), now)
    {
      consecutiveFailures := consecutiveFailures + 1;
      if settings.threshold > 0 && consecutiveFailures >= settings.threshold {
        circuitOpenUntil := now + settings.cooldown;
        consecutiveFailures := 0;
      }
    }

    method RecordSuccess()
      modifies this
      ensures View() == Closed()
    {
      consecutiveFailures, circuitOpenUntil := 0, 0;
    }

    /** The network is called unless the breaker is open; text with nothing to classify, the
        offline switch and a missing key never reach this point. */
    method Classify(a: Attempt) returns (called: bool)
      modifies this
      ensures called <==> !IsOpen(old(View()), a.start)
      ensures View() == After(settings, old(View()), a)
    {
      if a.start < circuitOpenUntil {
        return false;
      }
      if a.answered {
        RecordSuccess();
      } else {
        RecordTransportFailure(a.end);
      }
      called := true;
    }
  }

  // ---------------------------------------------------------------- an outage

  /** One request after another from `from` on, the last starting by `to`, none answered. */
  predicate Outage(run: seq<Attempt>, from: int, to: int) {
    && (forall i | 0 <= i < |run| :: from <= run[i].start <= run[i].end && run[i].start <= to && !run[i].answered)
    && (forall i | 0 < i < |run| :: run[i - 1].end <= run[i].start)
  }

  /** How often the network is called. */
  function Calls(c: Settings, b: State, run: seq<Attempt>): nat
    decreases |run|
  {
    if run == [] then 0
    else (if IsOpen(b, run[0].start) then 0 else 1) + Calls(c, After(c, b, run[0]), run[1..])
  }

  function Max(a: int, b: int): int {
    if a < b then b else a
  }

  lemma {:induction false} NoneWhileOpen(c: Settings, b: State, run: seq<Attempt>, from: int, to: int)
    requires Outage(run, from, to) && to < b.openUntil
    ensures Calls(c, b, run) == 0
  {
    if run != [] {
      assert IsOpen(b, run[0].start);
      OutageTail(run, from, to);
      NoneWhileOpen(c, b, run[1..], run[0].end, to);
    }
  }

  lemma OutageTail(run: seq<Attempt>, from: int, to: int)
    requires Outage(run, from, to) && run != []
    ensures Outage(run[1..], run[0].end, to)
  {
    var rest := run[1..];
    forall i | 0 <= i < |rest| ensures run[0].end <= rest[i].start {
      EndsBefore(run, from, to, i + 1);
    }
  }

  lemma {:induction false} EndsBefore(run: seq<Attempt>, from: int, to: int, n: nat)
    requires Outage(run, from, to) && 0 < n < |run|
    ensures run[0].end <= run[n].start
  {
    if n > 1 {
      EndsBefore(run, from, to, n - 1);
    }
  }

  lemma MulMonotone(t: nat, x: int, y: int)
    requires x <= y
    ensures t * x <= t * y
  {
  }

  lemma MulSucc(t: nat, x: int)
    ensures t * (x + 1) == t * x + t
  {
  }

  lemma DivMonotone(d: int, e: int, c: nat)
    requires c > 0 && d <= e
    ensures d / c <= e / c
  {
    var x, y := d / c, e / c;
    assert d == c * x + d % c && e == c * y + e % c;
    if y < x {
      MulMonotone(c, y + 1, x);
      MulSucc(c, y);
      assert false;
    }
  }

  lemma DivStep(d: int, c: nat)
    requires c > 0
    ensures (d - c) / c == d / c - 1
  {
    var x, y := d / c, (d - c) / c;
    assert d == c * x + d % c && d - c == c * y + (d - c) % c;
    if y < x - 1 {
      MulMonotone(c, y + 2, x);
      MulSucc(c, y);
      MulSucc(c, y + 1);
      assert false;
    } else if y > x - 1 {
      MulMonotone(c, x, y);
      assert false;
    }
  }

  /** From any state: what is still possible depends on the time left once the breaker is closed
      and on the failures already counted. */
  lemma {:induction false} CallsFrom(c: Settings, b: State, run: seq<Attempt>, from: int, to: int)
    requires c.threshold > 0 && c.cooldown > 0 && b.failures < c.threshold
    requires Outage(run, from, to) && Max(from, b.openUntil) <= to
    ensures Calls(c, b, run) + b.failures <= c.threshold * ((to - Max(from, b.openUntil)) / c.cooldown + 1)
    decreases |run|
  {
    var s := Max(from, b.openUntil);
    DivMonotone(0, to - s, c.cooldown);
    MulMonotone(c.threshold, 1, (to - s) / c.cooldown + 1);
    if run != [] {
      OutageTail(run, from, to);
      var b' := After(c, b, run[0]);
      var s' := Max(run[0].end, b'.openUntil);
      if to < s' {
        NoCallsAfter(c, b', run[1..], run[0].end, to);
      } else {
        CallsFrom(c, b', run[1..], run[0].end, to);
        if !IsOpen(b, run[0].start) && b.failures + 1 >= c.threshold {
          DivStep(to - s, c.cooldown);
          DivMonotone(to - s', to - s - c.cooldown, c.cooldown);
          MulMonotone(c.threshold, (to - s') / c.cooldown + 1, (to - s) / c.cooldown);
          MulSucc(c.threshold, (to - s) / c.cooldown);
        } else {
          DivMonotone(to - s', to - s, c.cooldown);
          MulMonotone(c.threshold, (to - s') / c.cooldown + 1, (to - s) / c.cooldown + 1);
        }
      }
    }
  }

  lemma NoCallsAfter(c: Settings, b: State, run: seq<Attempt>, from: int, to: int)
    requires Outage(run, from, to) && to < Max(from, b.openUntil)
    ensures Calls(c, b, run) == 0
  {
    if run != [] && to < b.openUntil {
      NoneWhileOpen(c, b, run, from, to);
    }
  }

  /** During an outage of length D the network is called at most threshold times per started
      cooldown, however many requests there are. */
  lemma OutageCallsBounded(c: Settings, b: State, run: seq<Attempt>, from: int, to: int)
    requires c.threshold > 0 && c.cooldown > 0 && b.failures < c.threshold
    requires Outage(run, from, to) && from <= to
    ensures Calls(c, b, run) <= c.threshold * ((to - from) / c.cooldown + 1)
  {
    var s := Max(from, b.openUntil);
    DivMonotone(0, to - from, c.cooldown);
    MulMonotone(c.threshold, 0, (to - from) / c.cooldown + 1);
    if to < s {
      NoCallsAfter(c, b, run, from, to);
    } else {
      CallsFrom(c, b, run, from, to);
      DivMonotone(to - s, to - from, c.cooldown);
      MulMonotone(c.threshold, (to - s) / c.cooldown + 1, (to - from) / c.cooldown + 1);
    }
  }

  function AfterAll(c: Settings, b: State, history: seq<Attempt>): State
    decreases |history|
  {
    if history == [] then b else AfterAll(c, After(c, b, history[0]), history[1..])
  }

  lemma {:induction false} CountStaysBelow(c: Settings, b: State, history: seq<Attempt>)
    requires c.threshold > 0 && b.failures < c.threshold
    ensures AfterAll(c, b, history).failures < c.threshold
    decreases |history|
  {
    if history != [] {
      CountStaysBelow(c, After(c, b, history[0]), history[1..]);
    }
  }

  /** The bound holds for an outage that begins after anything whatsoever. */
  lemma OutageAfterAnything(c: Settings, history: seq<Attempt>, run: seq<Attempt>, from: int, to: int)
    requires c.threshold > 0 && c.cooldown > 0 && Outage(run, from, to) && from <= to
    ensures Calls(c, AfterAll(c, Closed(), history), run) <= c.threshold * ((to - from) / c.cooldown + 1)
  {
    CountStaysBelow(c, Closed(), history);
    OutageCallsBounded(c, AfterAll(c, Closed(), history), run, from, to);
  }

  // ---------------------------------------------------------------- only failures in a row count

  /** However the failures stood before, one answered call clears them: it takes a whole threshold of
      failures after it to open the breaker, each of them is called, and the last of them opens it
      for the cooldown. */
  lemma {:induction false} AnswerStartsOver(c: Settings, b: State, a: Attempt, run: seq<Attempt>, to: int)
    requires c.threshold > 0 && !IsOpen(b, a.start) && a.answered && 0 <= a.end
    requires Outage(run, a.end, to) && |run| <= c.threshold
    ensures var after := AfterAll(c, After(c, b, a), run);
            && Calls(c, After(c, b, a), run) == |run|
            && (|run| < c.threshold ==> forall now | 0 <= now :: !IsOpen(after, now))
            && (|run| == c.threshold ==> forall now :: IsOpen(after, now) <==> now < run[|run| - 1].end + c.cooldown)
  {
    FailuresCount(c, State(0, 0), run, a.end, to);
  }

  lemma {:induction false} FailuresCount(c: Settings, b: State, run: seq<Attempt>, from: int, to: int)
    requires c.threshold > 0 && b.openUntil == 0 && b.failures < c.threshold && 0 <= from
    requires Outage(run, from, to) && b.failures + |run| <= c.threshold
    ensures Calls(c, b, run) == |run|
    ensures AfterAll(c, b, run) == if run != [] && b.failures + |run| == c.threshold then State(run[|run| - 1].end + c.cooldown, 0)
                                   else State(0, b.failures + |run|)
    decreases |run|
  {
    if run != [] {
      OutageTail(run, from, to);
      if |run| > 1 {
        FailuresCount(c, After(c, b, run[0]), run[1..], run[0].end, to);
        assert run[1..][|run| - 2] == run[|run| - 1];
      }
    }
  }

  // ---------------------------------------------------------------- the bound is reached

  /** n requests at the same instant, all failing at once. */
  function Burst(at: int, n: nat): seq<Attempt> {
    if n == 0 then [] else [Attempt(at, at, false)] + Burst(at, n - 1)
  }

  /** A burst of threshold requests at the end of every cooldown. */
  function Bursts(c: Settings, at: int, rounds: nat): seq<Attempt>
    requires c.threshold > 0
    decreases rounds
  {
    if rounds == 0 then [] else Burst(at, c.threshold) + Bursts(c, at + c.cooldown, rounds - 1)
  }

  lemma {:induction false} BurstCalls(c: Settings, b: State, at: int, n: nat, rest: seq<Attempt>)
    requires c.threshold > 0 && 0 < n && b.failures + n == c.threshold && b.openUntil <= at
    ensures Calls(c, b, Burst(at, n) + rest) == n + Calls(c, State(at + c.cooldown, 0), rest)
    decreases n
  {
    var run := Burst(at, n) + rest;
    assert run[1..] == Burst(at, n - 1) + rest;
    if n > 1 {
      BurstCalls(c, After(c, b, run[0]), at, n - 1, rest);
    } else {
      assert run[1..] == rest;
    }
  }

  lemma {:induction false} BurstsCalls(c: Settings, b: State, at: int, rounds: nat)
    requires c.threshold > 0 && b.failures == 0 && b.openUntil <= at
    ensures Calls(c, b, Bursts(c, at, rounds)) == c.threshold * rounds
    decreases rounds
  {
    if rounds > 0 {
      BurstCalls(c, b, at, c.threshold, Bursts(c, at + c.cooldown, rounds - 1));
      BurstsCalls(c, State(at + c.cooldown, 0), at + c.cooldown, rounds - 1);
      MulSucc(c.threshold, rounds - 1);
    }
  }

  lemma {:induction false} BurstsAreOutage(c: Settings, at: int, rounds: nat)
    requires c.threshold > 0
    ensures Outage(Bursts(c, at, rounds), at, at + c.cooldown * (if rounds == 0 then 0 else rounds - 1))
    decreases rounds
  {
    if rounds > 0 {
      BurstsAreOutage(c, at + c.cooldown, rounds - 1);
      BurstIsOutage(at, c.threshold);
      if rounds > 1 {
        MulSucc(c.cooldown, rounds - 2);
      }
    }
  }

  /** The count starts over when the breaker opens, so each cooldown is followed by threshold
      calls, not by a single trial: the bound cannot be improved. */
  lemma BoundIsReached(c: Settings, b: State, at: int, rounds: nat)
    requires c.threshold > 0 && c.cooldown > 0 && b.failures == 0 && b.openUntil <= at && rounds > 0
    ensures var run, to := Bursts(c, at, rounds), at + c.cooldown * (rounds - 1);
            Outage(run, at, to) && Calls(c, b, run) == c.threshold * ((to - at) / c.cooldown + 1)
  {
    BurstsCalls(c, b, at, rounds);
    BurstsAreOutage(c, at, rounds);
    DivExact(rounds - 1, c.cooldown);
  }

  lemma DivExact(n: nat, c: nat)
    requires c > 0
    ensures c * n / c == n
  {
    var q := c * n / c;
    assert c * n == c * q + c * n % c;
    if q < n {
      MulMonotone(c, q + 1, n);
      MulSucc(c, q);
      assert false;
    } else if n < q {
      MulMonotone(c, n + 1, q);
      MulSucc(c, n);
      assert false;
    }
  }

  lemma {:induction false} BurstIsOutage(at: int, n: nat)
    ensures |Burst(at, n)| == n && forall i | 0 <= i < n :: Burst(at, n)[i] == Attempt(at, at, false)
  {
    if n > 0 {
      BurstIsOutage(at, n - 1);
    }
  }
}
