/** Exponential backoff for reconnection (src/utils/backoff.py). */
module Backoff {
  import opened Wrappers

  function Pow2(n: nat): (r: nat)
    ensures r >= 1
  {
    if n == 0 then 1 else 2 * Pow2(n - 1)
  }

  lemma {:induction false} Pow2Monotone(i: nat, j: nat)
    requires i <= j
    ensures Pow2(i) <= Pow2(j)
    decreases j
  {
    if i < j {
      Pow2Monotone(i, j - 1);
    }
  }

  /** The delay handed out at 0-based attempt `attempt`: initial * 2^attempt, capped. */
  function DelayAt(initial: real, maxDelay: real, attempt: nat): real
  {
    MinReal(initial * Pow2(attempt) as real, maxDelay)
  }

  /** Every delay lies between the initial delay and the cap. */
  lemma DelayBounds(initial: real, maxDelay: real, attempt: nat)
    requires 0.0 < initial <= maxDelay
    ensures initial <= DelayAt(initial, maxDelay, attempt) <= maxDelay
  {
    var p := Pow2(attempt) as real;
    assert initial * p >= initial * 1.0 by {
      assert initial * p - initial * 1.0 == initial * (p - 1.0);
    }
  }

  /** Successive delays never decrease. */
  lemma DelayMonotone(initial: real, maxDelay: real, i: nat, j: nat)
    requires 0.0 < initial && i <= j
    ensures DelayAt(initial, maxDelay, i) <= DelayAt(initial, maxDelay, j)
  {
    Pow2Monotone(i, j);
    var p, q := Pow2(i) as real, Pow2(j) as real;
    assert initial * q - initial * p == initial * (q - p);
  }

  /** With the cap equal to the initial delay the delay never changes. */
  lemma ConstantDelay(initial: real, attempt: nat)
    requires 0.0 < initial
    ensures DelayAt(initial, initial, attempt) == initial
  {
    DelayBounds(initial, initial, attempt);
  }

  /** With 1 s / 30 s the delays run 1, 2, 4, 8, 16 and then 30 for ever. */
  lemma DefaultDelays(attempt: nat)
    ensures DelayAt(1.0, 30.0, 0) == 1.0 && DelayAt(1.0, 30.0, 1) == 2.0 && DelayAt(1.0, 30.0, 2) == 4.0
    ensures DelayAt(1.0, 30.0, 3) == 8.0 && DelayAt(1.0, 30.0, 4) == 16.0
    ensures attempt >= 5 ==> DelayAt(1.0, 30.0, attempt) == 30.0
  {
    assert Pow2(5) == 32;
    if attempt >= 5 {
      DelayMonotone(1.0, 30.0, 5, attempt);
      DelayBounds(1.0, 30.0, attempt);
    }
  }

  /** The sum of the first `n` delays. */
  function TotalWait(initial: real, maxDelay: real, n: nat): real
  {
    if n == 0 then 0.0 else TotalWait(initial, maxDelay, n - 1) + DelayAt(initial, maxDelay, n - 1)
  }

  /** n attempts wait between n * initial and n * max in total. */
  lemma {:induction false} TotalWaitBounds(initial: real, maxDelay: real, n: nat)
    requires 0.0 < initial <= maxDelay
    ensures n as real * initial <= TotalWait(initial, maxDelay, n) <= n as real * maxDelay
  {
    if n > 0 {
      TotalWaitBounds(initial, maxDelay, n - 1);
      DelayBounds(initial, maxDelay, n - 1);
      BoundsStep((n - 1) as real, initial, maxDelay, TotalWait(initial, maxDelay, n - 1), DelayAt(initial, maxDelay, n - 1));
      assert n as real == (n - 1) as real + 1.0;
    }
  }

  /** One more summand between `lo` and `hi` keeps the sum between the bounds. */
  lemma BoundsStep(m: real, lo: real, hi: real, prev: real, d: real)
    requires m * lo <= prev <= m * hi && lo <= d <= hi
    ensures (m + 1.0) * lo <= prev + d <= (m + 1.0) * hi
  {
    assert (m + 1.0) * lo == m * lo + lo;
    assert (m + 1.0) * hi == m * hi + hi;
  }

  /** The defaults 1 s / 30 s / 10 attempts wait 181 s in total. */
  lemma DefaultTotalWait()
    ensures TotalWait(1.0, 30.0, 10) == 181.0
  {
    DefaultDelays(5);
    DefaultDelays(6);
    DefaultDelays(7);
    DefaultDelays(8);
    DefaultDelays(9);
  }

  datatype ConfigError = NonPositiveInitialDelay | MaxBelowInitialDelay

  /** Python multiplies the float initial delay by the integer 2 ** attempt,
      converting the integer to a float first; from 2 ** 1024 on that
      conversion raises OverflowError (the largest float is below 2^1024). */
  const FloatExponentLimit: nat := 1024

  /** Why a delay or a total cannot be computed. */
  datatype BackoffError = UnlimitedAttempts | FloatOverflow

  class ExponentialBackoff {
    const initialDelay: real
    const maxDelay: real
    /** None means unlimited. */
    const maxAttempts: Option<nat>
    var attempt: nat

    ghost predicate Valid()
    {
      0.0 < initialDelay <= maxDelay
    }

    constructor Init(initial: real, cap: real, attempts: Option<nat>)
      requires 0.0 < initial <= cap
      ensures Valid()
      ensures initialDelay == initial && maxDelay == cap && maxAttempts == attempts && attempt == 0
    {
      initialDelay := initial;
      maxDelay := cap;
      maxAttempts := attempts;
      attempt := 0;
    }

    /** Construction fails iff the initial delay is not positive (checked
        first) or the cap is below it. */
    static method Create(initial: real, cap: real, attempts: Option<nat>)
      returns (r: Result<ExponentialBackoff, ConfigError>)
      ensures r.Err? <==> initial <= 0.0 || cap < initial
      ensures r.Err? ==> r.error == if initial <= 0.0 then NonPositiveInitialDelay else MaxBelowInitialDelay
      ensures r.Ok? ==> fresh(r.value) && r.value.Valid() && r.value.attempt == 0
      ensures r.Ok? ==> r.value.initialDelay == initial && r.value.maxDelay == cap && r.value.maxAttempts == attempts
    {
      if initial <= 0.0 {
        return Err(NonPositiveInitialDelay);
      }
      if cap < initial {
        return Err(MaxBelowInitialDelay);
      }
      var b := new ExponentialBackoff.Init(initial, cap, attempts);
      return Ok(b);
    }

    /** Hands out the delay for the current attempt and counts the attempt.
        From attempt 1024 on, 2 ** attempt no longer converts to a float: the
        call fails and the counter stays. */
    method NextDelay() returns (r: Result<real, BackoffError>)
      requires Valid()
      modifies this`attempt
      ensures r.Err? <==> old(attempt) >= FloatExponentLimit
      ensures r.Err? ==> r.error == FloatOverflow && attempt == old(attempt)
      ensures r.Ok? ==> r.value == DelayAt(initialDelay, maxDelay, old(attempt))
      ensures r.Ok? ==> initialDelay <= r.value <= maxDelay && attempt == old(attempt) + 1
    {
      if attempt >= FloatExponentLimit {
        return Err(FloatOverflow);
      }
      var delay := MinReal(initialDelay * Pow2(attempt) as real, maxDelay);
      DelayBounds(initialDelay, maxDelay, attempt);
      attempt := attempt + 1;
      return Ok(delay);
    }

    /** Never true without a limit; immediately true with a limit of 0. */
    predicate ShouldGiveUp()
      reads this
      ensures maxAttempts.None? ==> !ShouldGiveUp()
      ensures maxAttempts == Some(0) ==> ShouldGiveUp()
    {
      if maxAttempts.None? then false else attempt >= maxAttempts.value
    }

    /** Clears the attempt counter after a success. */
    method Reset()
      requires Valid()
      modifies this`attempt
      ensures attempt == 0
      ensures DelayAt(initialDelay, maxDelay, attempt) == initialDelay
      ensures ShouldGiveUp() <==> maxAttempts == Some(0)
    {
      attempt := 0;
    }

    /** The total wait if every attempt is used; refused for unlimited
        attempts, and failing once the loop reaches attempt 1024. */
    method GetTotalWaitTime() returns (r: Result<real, BackoffError>)
      ensures r.Err? <==> maxAttempts.None? || maxAttempts.value > FloatExponentLimit
      ensures r.Err? ==> r.error == if maxAttempts.None? then UnlimitedAttempts else FloatOverflow
      ensures r.Ok? ==> r.value == TotalWait(initialDelay, maxDelay, maxAttempts.value)
    {
      if maxAttempts.None? {
        return Err(UnlimitedAttempts);
      }
      var total := 0.0;
      for i := 0 to maxAttempts.value
        invariant i <= FloatExponentLimit
        invariant total == TotalWait(initialDelay, maxDelay, i)
      {
        if i >= FloatExponentLimit {
          return Err(FloatOverflow);
        }
        var delay := MinReal(initialDelay * Pow2(i) as real, maxDelay);
        total := total + delay;
      }
      return Ok(total);
    }

    /** The retry loop of a client that keeps failing: from the current
        attempt it takes delays until the policy gives up.  From a reset
        state the delays it takes add up to the total wait time.  A limit
        above 1024 makes the loop fail at attempt 1024. */
    method DelaysUntilGiveUp() returns (r: Result<seq<real>, BackoffError>)
      requires Valid() && maxAttempts.Some?
      modifies this`attempt
      ensures r.Err? <==> old(attempt) < maxAttempts.value && maxAttempts.value > FloatExponentLimit
      ensures r.Err? ==> r.error == FloatOverflow
      ensures r.Err? ==> attempt == if old(attempt) >= FloatExponentLimit then old(attempt) else FloatExponentLimit
      ensures r.Ok? ==> ShouldGiveUp()
      ensures r.Ok? ==> attempt == if old(attempt) >= maxAttempts.value then old(attempt) else maxAttempts.value
      ensures r.Ok? ==> forall k :: 0 <= k < |r.value| ==> r.value[k] == DelayAt(initialDelay, maxDelay, old(attempt) + k)
      ensures r.Ok? && old(attempt) == 0 ==> Sum(r.value) == TotalWait(initialDelay, maxDelay, maxAttempts.value)
    {
      var delays: seq<real> := [];
      ghost var start := attempt;
      while !ShouldGiveUp()
        invariant attempt == start + |delays|
        invariant start >= maxAttempts.value ==> delays == []
        invariant start < maxAttempts.value ==> attempt <= maxAttempts.value
        invariant delays != [] ==> attempt <= FloatExponentLimit
        invariant forall k :: 0 <= k < |delays| ==> delays[k] == DelayAt(initialDelay, maxDelay, start + k)
        invariant start == 0 ==> Sum(delays) == TotalWait(initialDelay, maxDelay, attempt)
        decreases maxAttempts.value - attempt
      {
        var d := NextDelay();
        if d.Err? {
          return Err(d.error);
        }
        SumAppend(delays, d.value);
        delays := delays + [d.value];
      }
      return Ok(delays);
    }
  }

  function Sum(xs: seq<real>): real
  {
    if xs == [] then 0.0 else Sum(xs[..|xs| - 1]) + xs[|xs| - 1]
  }

  lemma SumAppend(xs: seq<real>, x: real)
    ensures Sum(xs + [x]) == Sum(xs) + x
  {
    assert (xs + [x])[..|xs|] == xs;
  }
}
