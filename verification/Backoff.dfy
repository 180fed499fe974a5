/** Full-jitter exponential reconnect delays (src/tracking/backoff.rs). Durations are nanoseconds. */
module Backoff {
  import opened Wrappers

  datatype BackoffState = BackoffState(attempt: nat, minDelay: nat, maxDelay: nat, maxAttempts: nat)

  const NANOS_PER_MILLI: nat := 1_000_000

  function NewBackoff(minDelay: nat, maxDelay: nat, maxAttempts: nat): BackoffState {
    BackoffState(0,
                 if minDelay == 0 then 500 * NANOS_PER_MILLI else minDelay,
                 if maxDelay == 0 then 30_000 * NANOS_PER_MILLI else maxDelay,
                 maxAttempts)
  }

  function Pow2(n: nat): (p: nat)
    ensures p >= 1
  {
    if n == 0 then 1 else 2 * Pow2(n - 1)
  }

  predicate Exhausted(b: BackoffState) {
    b.maxAttempts > 0 && b.attempt >= b.maxAttempts
  }

  /** The ceiling of the k-th delay, in milliseconds. */
  function Ceiling(b: BackoffState, k: nat): nat {
    var exp := b.minDelay / NANOS_PER_MILLI * Pow2(k);
    if exp > b.maxDelay / NANOS_PER_MILLI then b.maxDelay / NANOS_PER_MILLI else exp
  }

  function Unit(random: real): (r: real)
    ensures 0.0 <= r <= 1.0
  {
    if random < 0.0 then 0.0 else if random > 1.0 then 1.0 else random
  }

  /** A share of `ceiling`, rounded down. */
  function Jitter(random: real, ceiling: nat): (d: nat)
    ensures d <= ceiling
  {
    JitterBelow(Unit(random), ceiling as real);
    (Unit(random) * ceiling as real).Floor
  }

  /** Milliseconds to sleep, or None when attempts are exhausted. */
  function Delay(b: BackoffState, random: real): (d: Option<nat>)
    ensures d.None? <==> Exhausted(b)
    ensures d.Some? ==> d.value <= Ceiling(b, b.attempt)
  {
    if Exhausted(b) then None else Some(Jitter(random, Ceiling(b, b.attempt)))
  }

  /** The k-th delay is the whole milliseconds of a random share of the maximum, or of the minimum
      doubled k times, whichever is less; a random number outside [0, 1] counts as the nearer end. */
  lemma DelayIsShare(b: BackoffState, random: real)
    requires !Exhausted(b)
    ensures var lo, hi := b.minDelay / 1_000_000, b.maxDelay / 1_000_000;
            var share := if random <= 0.0 then 0.0 else if random >= 1.0 then 1.0 else random;
            var x := share * (if lo * Pow2(b.attempt) < hi then lo * Pow2(b.attempt) else hi) as real;
            Delay(b, random).Some? && Delay(b, random).value as real <= x < Delay(b, random).value as real + 1.0
  {
    JitterShare(random, Ceiling(b, b.attempt));
    hide Jitter, Pow2;
  }

  lemma JitterShare(random: real, ceiling: nat)
    ensures var share := if random <= 0.0 then 0.0 else if random >= 1.0 then 1.0 else random;
            Jitter(random, ceiling) as real <= share * ceiling as real < Jitter(random, ceiling) as real + 1.0
  {
  }

  /** Attempts run out exactly when a limit was set and as many were counted; a reset gives them back. */
  lemma AttemptsRunOut(b: BackoffState)
    ensures Delay(b, 0.0).None? <==> b.maxAttempts != 0 && b.attempt >= b.maxAttempts
    ensures Delay(b, 0.0).Some? ==> After(b) == b.(attempt := b.attempt + 1)
    ensures Delay(b, 0.0).None? ==> After(b) == b
    ensures Reset(b) == b.(attempt := 0) && Delay(Reset(b), 0.0).Some?
    ensures b.minDelay > 0 && b.maxDelay > 0 ==> NewBackoff(b.minDelay, b.maxDelay, b.maxAttempts) == Reset(b)
  {
  }

  /** Attempt by attempt the ceiling starts at the minimum and doubles up to the maximum; with no
      delays given it runs 500, 1000, 2000, 4000, 8000, 16000 and 30000 milliseconds. */
  lemma Doubling(b: BackoffState, k: nat)
    ensures var lo, hi := b.minDelay / 1_000_000, b.maxDelay / 1_000_000;
            && Ceiling(b, 0) == (if lo < hi then lo else hi)
            && Ceiling(b, k + 1) == (if 2 * Ceiling(b, k) < hi then 2 * Ceiling(b, k) else hi)
    ensures var d := NewBackoff(0, 0, b.maxAttempts);
            && [Ceiling(d, 0), Ceiling(d, 1), Ceiling(d, 2), Ceiling(d, 3), Ceiling(d, 4), Ceiling(d, 5), Ceiling(d, 6)]
               == [500, 1000, 2000, 4000, 8000, 16000, 30000]
            && !Exhausted(d.(maxAttempts := 0)) && d.attempt == 0 && d.maxAttempts == b.maxAttempts
  {
    var lo, hi := b.minDelay / 1_000_000, b.maxDelay / 1_000_000;
    assert lo * Pow2(k + 1) == 2 * (lo * Pow2(k)) by {
      Twice(lo, Pow2(k));
    }
    FirstPowers();
    hide Pow2;
  }

  lemma Twice(lo: nat, p: nat)
    ensures lo * (2 * p) == 2 * (lo * p)
  {
  }

  lemma FirstPowers()
    ensures Pow2(0) == 1 && Pow2(1) == 2 && Pow2(2) == 4 && Pow2(3) == 8 && Pow2(4) == 16 && Pow2(5) == 32 && Pow2(6) == 64
  {
  }

  lemma JitterBelow(r: real, exp: real)
    requires 0.0 <= r <= 1.0 && exp >= 0.0
    ensures 0.0 <= r * exp <= exp
  {
    assert (1.0 - r) * exp >= 0.0;
  }

  function After(b: BackoffState): BackoffState {
    if Exhausted(b) then b else b.(attempt := b.attempt + 1)
  }

  function Reset(b: BackoffState): BackoffState {
    b.(attempt := 0)
  }

  class Reconnects {
    var attempt: nat
    const minDelay: nat
    const maxDelay: nat
    const maxAttempts: nat

    ghost function View(): BackoffState
      reads this
    {
      BackoffState(attempt, minDelay, maxDelay, maxAttempts)
    }

    constructor (minDelay: nat, maxDelay: nat, maxAttempts: nat)
      ensures View() == NewBackoff(minDelay, maxDelay, maxAttempts)
    {
      attempt := 0;
      this.minDelay := if minDelay == 0 then 500 * NANOS_PER_MILLI else minDelay;
      this.maxDelay := if maxDelay == 0 then 30_000 * NANOS_PER_MILLI else maxDelay;
      this.maxAttempts := maxAttempts;
    }

    method NextDelay(random: real) returns (d: Option<nat>)
      modifies this
      ensures d == Delay(old(View()), random)
      ensures View() == After(old(View()))
    {
      if maxAttempts > 0 && attempt >= maxAttempts {
        return None;
      }
      var minMs, maxMs := minDelay / NANOS_PER_MILLI, maxDelay / NANOS_PER_MILLI;
      var exp := minMs * Pow2(attempt);
      if exp > maxMs {
        exp := maxMs;
      }
      assert exp == Ceiling(View(), attempt);
      d := Some(Jitter(random, exp));
      attempt := attempt + 1;
    }

    method ResetAttempts()
      modifies this
      ensures View() == Reset(old(View()))
    {
      attempt := 0;
    }
  }
}
