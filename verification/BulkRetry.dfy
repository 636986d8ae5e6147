/**
 executeWithRetry of internal/bulkops/controller.go: which attempt ends the loop, what it reports, and
 how long each backoff waits. Durations are integers; products with floats are exact reals, truncated as
 the conversion to a duration does.
 */
module BulkRetry {
  import opened Basics
  import opened BulkModel

  datatype Reply = Done | Retryable | Fatal

  // One attempt: what the operation returned, whether the job was canceled by then or during the wait
  // that followed, and the clock digits that set the jitter.
  datatype Try = Try(result: Reply, canceled: bool, canceledWaiting: bool, clock: nat)

  function Trunc(x: real): int { if x >= 0.0 then x.Floor else -((-x).Floor) }

  // Between -4.9% and +5%, from the last digits of the clock.
  function Jitter(clock: nat): real { 0.1 * (0.5 - (clock % 100) as real / 100.0) }

  function Capped(backoff: int, multiplier: real, maxBackoff: int): int {
    var grown := Trunc(backoff as real * multiplier);
    if grown > maxBackoff then maxBackoff else grown
  }

  function Scaled(d: int, f: real): real { d as real * f }

  function Jittered(d: int, f: real): int { d + Trunc(Scaled(d, f)) }

  function NextBackoff(backoff: int, multiplier: real, maxBackoff: int, clock: nat): int {
    Jittered(Capped(backoff, multiplier, maxBackoff), Jitter(clock))
  }

  lemma TruncBelow(y: real, bound: real)
    requires y <= bound && bound >= 0.0
    ensures Trunc(y) as real <= bound
  {
  }

  lemma Product(x: real, y: real)
    requires x >= 0.0 && y >= 0.0
    ensures x * y >= 0.0
  {
  }

  lemma ScaledBelow(d: int, f: real)
    requires -0.1 <= f <= 0.05
    ensures Scaled(d, f) <= if d >= 0 then 0.05 * d as real else -(d as real)
  {
    var x := d as real;
    if d >= 0 {
      Product(x, 0.05 - f);
      assert x * (0.05 - f) == 0.05 * x - x * f;
    } else {
      Product(-x, f + 1.0);
      assert -x * (f + 1.0) == -x * f - x;
    }
  }

  lemma JitterRange(clock: nat)
    ensures -0.049 <= Jitter(clock) <= 0.05
  {
  }

  lemma SumBelow(d: int, y: real, cap: int)
    requires d <= cap && cap >= 0
    requires y <= if d >= 0 then 0.05 * d as real else -(d as real)
    ensures (d + Trunc(y)) as real <= 1.05 * cap as real
  {
    TruncBelow(y, if d >= 0 then 0.05 * d as real else -(d as real));
  }

  lemma JitteredBelow(d: int, f: real, cap: int)
    requires -0.1 <= f <= 0.05 && d <= cap && cap >= 0
    ensures Jittered(d, f) as real <= 1.05 * cap as real
  {
    ScaledBelow(d, f);
    SumBelow(d, Scaled(d, f), cap);
  }

  // Jitter adds at most five percent to the cap.
  lemma BackoffBound(backoff: int, multiplier: real, maxBackoff: int, clock: nat)
    requires maxBackoff >= 0
    ensures NextBackoff(backoff, multiplier, maxBackoff, clock) as real <= 1.05 * maxBackoff as real
  {
    JitterRange(clock);
    JitteredBelow(Capped(backoff, multiplier, maxBackoff), Jitter(clock), maxBackoff);
  }

  // Of a backoff that is not negative, jitter takes at most 4.9 percent, ...
  lemma ScaledAbove(d: int, f: real)
    requires -0.049 <= f && d >= 0
    ensures Scaled(d, f) >= -0.049 * d as real
  {
    var x := d as real;
    Product(x, f + 0.049);
    assert x * (f + 0.049) == x * f + 0.049 * x;
  }

  lemma SumAbove(d: int, y: real)
    requires d >= 0 && y >= -0.049 * d as real
    ensures (d + Trunc(y)) as real >= 0.951 * d as real
  {}

  lemma JitteredWithin(d: int, f: real)
    requires -0.049 <= f <= 0.05 && d >= 0
    ensures 0.951 * d as real <= Jittered(d, f) as real <= 1.05 * d as real
  {
    ScaledAbove(d, f);
    SumAbove(d, Scaled(d, f));
    JitteredBelow(d, f, d);
  }

  // What the backoff grows to before jitter, in exact arithmetic.
  function Goal(backoff: int, multiplier: real, maxBackoff: int): real {
    var grown := backoff as real * multiplier;
    if grown > maxBackoff as real then maxBackoff as real else grown
  }

  lemma CappedWithin(backoff: int, multiplier: real, maxBackoff: int)
    requires Goal(backoff, multiplier, maxBackoff) >= 0.0
    ensures 0 <= Capped(backoff, multiplier, maxBackoff)
    ensures Goal(backoff, multiplier, maxBackoff) - 1.0 < Capped(backoff, multiplier, maxBackoff) as real
            <= Goal(backoff, multiplier, maxBackoff)
  {}

  // ... so the next one is the last one times the multiplier, at most the maximum, within five percent and a
  // nanosecond.
  lemma BackoffWithin(backoff: int, multiplier: real, maxBackoff: int, clock: nat)
    requires Goal(backoff, multiplier, maxBackoff) >= 0.0
    ensures var goal := Goal(backoff, multiplier, maxBackoff);
            var next := NextBackoff(backoff, multiplier, maxBackoff, clock);
            0.951 * (goal - 1.0) <= next as real <= 1.05 * goal
  {
    JitterRange(clock);
    CappedWithin(backoff, multiplier, maxBackoff);
    JitteredWithin(Capped(backoff, multiplier, maxBackoff), Jitter(clock));
  }

  method ExecuteWithRetry(tries: nat -> Try, maxRetries: int, initialBackoff: int, maxBackoff: int, multiplier: real)
    returns (status: Outcome, attempts: nat, waits: seq<int>)
    // The attempt reported is the first one after which the loop does not go on.
    ensures attempts == 0 <==> maxRetries < 1
    ensures attempts <= Max(maxRetries, 0)
    ensures forall n :: 1 <= n < attempts ==>
              tries(n).result == Retryable && !tries(n).canceled && !tries(n).canceledWaiting
    ensures 1 <= attempts < maxRetries && tries(attempts).result == Retryable
            ==> tries(attempts).canceled || tries(attempts).canceledWaiting
    // It decides the status, whatever the job's state when the operation succeeds.
    ensures status == Unset <==> attempts == 0
    ensures status == Success <==> attempts >= 1 && tries(attempts).result == Done
    ensures status == Canceled <==>
              && attempts >= 1 && tries(attempts).result != Done
              && (tries(attempts).canceled || (attempts < maxRetries && tries(attempts).result == Retryable))
    ensures status == Failure <==>
              && attempts >= 1 && tries(attempts).result != Done && !tries(attempts).canceled
              && (attempts == maxRetries || tries(attempts).result == Fatal)
    // Every attempt but the last was followed by one wait, the last one only if the job was canceled during it; no
    // wait exceeds the cap by more than 5%.
    ensures |waits| == if 1 <= attempts < maxRetries && tries(attempts).result == Retryable && !tries(attempts).canceled
                       then attempts else Max(attempts - 1, 0)
    ensures |waits| > 0 ==> waits[0] == initialBackoff
    ensures forall i :: 0 <= i < |waits| - 1 ==>
              waits[i + 1] == NextBackoff(waits[i], multiplier, maxBackoff, tries(i + 1).clock)
    ensures 0 <= maxBackoff && initialBackoff <= maxBackoff ==>
              forall i :: 0 <= i < |waits| ==> waits[i] as real <= 1.05 * maxBackoff as real
  {
    var backoff := initialBackoff;
    status, attempts, waits := Unset, 0, [];
    var attempt := 1;
    while attempt <= maxRetries
      invariant 1 <= attempt && attempts == attempt - 1 && |waits| == attempts && attempts <= Max(maxRetries, 0)
      invariant forall n :: 1 <= n < attempt ==>
                  tries(n).result == Retryable && !tries(n).canceled && !tries(n).canceledWaiting
      invariant attempt > 1 ==> attempt <= maxRetries
      invariant status == Unset
      invariant |waits| == 0 ==> backoff == initialBackoff
      invariant |waits| > 0 ==> waits[0] == initialBackoff
                                && backoff == NextBackoff(waits[|waits| - 1], multiplier, maxBackoff,
                                                          tries(|waits|).clock)
      invariant forall i :: 0 <= i < |waits| - 1 ==>
                  waits[i + 1] == NextBackoff(waits[i], multiplier, maxBackoff, tries(i + 1).clock)
      invariant 0 <= maxBackoff && initialBackoff <= maxBackoff ==>
                  backoff as real <= 1.05 * maxBackoff as real
                  && forall i :: 0 <= i < |waits| ==> waits[i] as real <= 1.05 * maxBackoff as real
    {
      attempts := attempt;
      var t := tries(attempt);
      if t.result == Done { return Success, attempts, waits; }
      if t.canceled { return Canceled, attempts, waits; }
      if attempt < maxRetries && t.result == Retryable {
        waits := waits + [backoff];
        if t.canceledWaiting { return Canceled, attempts, waits; }
        if maxBackoff >= 0 { BackoffBound(backoff, multiplier, maxBackoff, t.clock); }
        backoff := NextBackoff(backoff, multiplier, maxBackoff, t.clock);
        attempt := attempt + 1;
        continue;
      }
      return Failure, attempts, waits;
    }
  }
}
