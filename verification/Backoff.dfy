/** Exponential backoff in 64-bit arithmetic, and the retry loop that sleeps by it. */
module Backoff {
  import opened Wrappers
  import opened Powers

  const TWO_62: int := 0x4000_0000_0000_0000
  const TWO_64: int := 0x1_0000_0000_0000_0000

  /** What an int64 holds after an operation whose true result is x. */
  function Wrap(x: int): int {
    (x + TWO_63) % TWO_64 - TWO_63
  }

  /** base * 2^n, without overflow. */
  function Ideal(base: int, n: nat): int {
    if n == 0 then base else 2 * Ideal(base, n - 1)
  }

  lemma {:induction false} IdealIsProduct(base: int, n: nat)
    ensures Ideal(base, n) == base * Pow2(n)
  {
    if n > 0 {
      IdealIsProduct(base, n - 1);
    }
  }

  lemma {:induction false} IdealShift(base: int, n: nat)
    ensures Ideal(2 * base, n) == Ideal(base, n + 1)
  {
    if n > 0 {
      IdealShift(base, n - 1);
    }
  }

  function Min(a: int, b: int): int {
    if a < b then a else b
  }

  /** The doubling loop, with its overflow. */
  function Doubled(b: int, steps: nat, max: int): int
    decreases steps
  {
    if steps == 0 || b >= max then b else Doubled(Wrap(2 * b), steps - 1, max)
  }

  /** The interval a delay is drawn from is 1..Envelope; 0 means no delay. */
  function Envelope(attempt: int, base: int, max: int): nat {
    var e := Min(Doubled(base, if attempt < 1 then 0 else attempt - 1, max), max);
    if e <= 0 then 0 else e
  }

  /** A delay; drawn is the random number below the envelope. */
  method Backoff(attempt: int, base: int, max: int, drawn: nat) returns (delay: nat)
    requires Int64(base) && Int64(max)
    requires Envelope(attempt, base, max) > 0 ==> drawn < Envelope(attempt, base, max)
    ensures if Envelope(attempt, base, max) == 0 then delay == 0 else 1 <= delay <= Envelope(attempt, base, max)
    ensures Envelope(attempt, base, max) > 0 ==> delay == drawn + 1
  {
    var n := if attempt < 1 then 1 else attempt;
    var backoff := base;
    var i := 1;
    while i < n && backoff < max
      invariant 1 <= i <= n && Doubled(base, n - 1, max) == Doubled(backoff, n - i, max)
    {
      backoff := Wrap(backoff * 2);
      i := i + 1;
    }
    if backoff > max {
      backoff := max;
    }
    delay := if backoff <= 0 then 0 else drawn + 1;
  }

  // ---------------------------------------------------------------- when the arithmetic is exact

  /** Doubling base never passes from below max to beyond the int64 range. */
  ghost predicate DoublesSafely(base: int, max: int) {
    forall k: nat :: !(TWO_62 <= Ideal(base, k) < max)
  }

  ghost predicate Exact(base: int, max: int) {
    forall n: nat | n >= 1 :: Envelope(n, base, max) == Min(max, Ideal(base, n - 1))
  }

  lemma DoubleSafely(b: int, max: int)
    requires DoublesSafely(b, max)
    ensures DoublesSafely(2 * b, max) && !(TWO_62 <= b < max)
  {
    forall k: nat
      ensures !(TWO_62 <= Ideal(2 * b, k) < max)
    {
      IdealShift(b, k);
    }
    assert Ideal(b, 0) == b;
  }

  lemma {:induction false} GrowsByDoubling(b: int, m: nat, n: nat)
    requires b > 0 && m <= n
    ensures Ideal(b, n) >= Ideal(b, m) >= b
    decreases n
  {
    if m < n {
      GrowsByDoubling(b, m, n - 1);
    } else if m > 0 {
      GrowsByDoubling(b, m - 1, n - 1);
    }
  }

  lemma {:induction false} DoublesExactly(b: int, steps: nat, max: int)
    requires 0 < b && 0 < max < TWO_63 && DoublesSafely(b, max)
    ensures Min(Doubled(b, steps, max), max) == Min(max, Ideal(b, steps))
    decreases steps
  {
    if steps > 0 {
      GrowsByDoubling(b, 0, steps);
      if b < max {
        DoubleSafely(b, max);
        DoublesExactly(2 * b, steps - 1, max);
        IdealShift(b, steps - 1);
      }
    }
  }

  /** Below max the loop just multiplies. */
  lemma {:induction false} DoublesUpTo(b: int, k: nat, more: nat, max: int)
    requires 0 < b && max < TWO_63 && Ideal(b, k) < max
    ensures Doubled(b, k + more, max) == Doubled(Ideal(b, k), more, max)
    decreases k
  {
    if k > 0 {
      GrowsByDoubling(b, 1, k);
      IdealShift(b, k - 1);
      DoublesUpTo(2 * b, k - 1, more, max);
    }
  }

  lemma OverflowShows(base: int, max: int, k: nat)
    requires 0 < base && 0 < max < TWO_63 && TWO_62 <= Ideal(base, k) < max
    ensures Envelope(k + 2, base, max) == 0 && Min(max, Ideal(base, k + 1)) == max
  {
    DoublesUpTo(base, k, 1, max);
  }

  /** The envelope is min(max, base * 2^(n-1)) for every attempt n, exactly when no doubling of
      base lies between 2^62 and max. */
  lemma ExactIff(base: int, max: int)
    requires 0 < base && 0 < max < TWO_63
    ensures Exact(base, max) <==> DoublesSafely(base, max)
  {
    if DoublesSafely(base, max) {
      forall n: nat | n >= 1
        ensures Envelope(n, base, max) == Min(max, Ideal(base, n - 1))
      {
        DoublesExactly(base, n - 1, max);
        GrowsByDoubling(base, 0, n - 1);
      }
    } else {
      var k: nat :| TWO_62 <= Ideal(base, k) < max;
      OverflowShows(base, max, k);
      assert Envelope(k + 2, base, max) != Min(max, Ideal(base, k + 2 - 1));
    }
  }

  /** In particular for every max up to 2^62 nanoseconds, about 146 years. */
  lemma ExactUpToTwo62(base: int, max: int)
    requires 0 < base && 0 < max <= TWO_62
    ensures Exact(base, max)
  {
    ExactIff(base, max);
  }

  lemma EnvelopeMonotone(base: int, max: int, m: int, n: int)
    requires 0 < base && 0 < max && Exact(base, max) && m <= n
    ensures Envelope(m, base, max) <= Envelope(n, base, max)
  {
    var m', n' := if m < 1 then 1 else m, if n < 1 then 1 else n;
    assert Envelope(m, base, max) == Envelope(m', base, max) && Envelope(n, base, max) == Envelope(n', base, max);
    GrowsByDoubling(base, m' - 1, n' - 1);
  }

  // ---------------------------------------------------------------- retrying

  /** What one attempt meets: a cancelled context before it, its error, the random number, and
      whether the context ends during the sleep. */
  datatype Attempt = Attempt(cancelled: bool, error: Option<Severity>, drawn: nat, interrupted: bool)

  function Most(attempts: int): nat {
    if attempts < 1 then 1 else attempts
  }

  /** What the first n sleeps take: each the number drawn, from 1 on, unless the envelope is empty. */
  function SleptFor(script: seq<Attempt>, n: nat, base: int, max: int): nat
    requires n <= |script|
  {
    if n == 0 then 0
    else SleptFor(script, n - 1, base, max) + if Envelope(n, base, max) == 0 then 0 else script[n - 1].drawn + 1
  }

  lemma NoSleep(script: seq<Attempt>, most: nat, base: int, max: int)
    ensures SleptFor(script, 0, base, max) == 0
    ensures base > 0 && max > 0 ==> SleptWithin(0, 0, base, max) && AtMost(0, most, base, max)
  {
    if base > 0 && max > 0 {
      assert SleptWithin(0, 0, base, max);
      SleepsAddUp(0, 0, most, base, max);
    }
  }

  lemma NextSleep(script: seq<Attempt>, n: nat, base: int, max: int, delay: nat)
    requires n < |script|
    requires if Envelope(n + 1, base, max) == 0 then delay == 0 else delay == script[n].drawn + 1
    ensures SleptFor(script, n + 1, base, max) == SleptFor(script, n, base, max) + delay
  {
  }

  /** What n sleeps can take altogether. */
  ghost predicate SleptWithin(slept: nat, n: nat, base: int, max: int) {
    slept <= n * max && slept <= Ideal(base, n) - base
  }

  lemma OneMoreSleep(slept: nat, n: nat, delay: nat, base: int, max: int)
    requires 0 < base && 0 < max && Exact(base, max)
    requires SleptWithin(slept, n, base, max) && delay <= Envelope(n + 1, base, max)
    ensures SleptWithin(slept + delay, n + 1, base, max)
  {
    assert Envelope(n + 1, base, max) == Min(max, Ideal(base, n));
    assert (n + 1) * max == n * max + max;
  }

  /** What so many sleeps take at most: that many longest ones, and no more than doubling gives. */
  predicate AtMost(slept: nat, sleeps: nat, base: int, max: int) {
    slept <= sleeps * max && slept <= base * (Pow2(sleeps) - 1)
  }

  lemma SleepsAddUp(slept: nat, n: nat, most: nat, base: int, max: int)
    requires 0 < base && 0 < max && n <= most && SleptWithin(slept, n, base, max)
    ensures AtMost(slept, most, base, max)
  {
    GrowsByDoubling(base, n, most);
    IdealIsProduct(base, most);
    assert base * (Pow2(most) - 1) == base * Pow2(most) - base;
    assert n * max <= most * max;
  }

  /** Runs until success, a fatal failure or the last attempt, sleeping in between: k attempts
      sleep at most min((k-1) * max, base * (2^(k-1) - 1)) altogether. Every run but a last one
      that decides is followed by its sleep. */
  method Retry(attempts: int, base: int, max: int, script: seq<Attempt>)
    returns (ok: bool, runs: nat, slept: nat, last: Option<Severity>, ghost sleeps: nat)
    requires Int64(base) && Int64(max)
    requires forall i | 0 <= i < |script| && Envelope(i + 1, base, max) > 0 ::
               script[i].drawn < Envelope(i + 1, base, max)
    ensures runs <= (if attempts < 1 then 1 else attempts) && runs <= |script|
    ensures forall i | 0 <= i < runs - 1 :: script[i].error == Some(Retryable)
    ensures runs > 0 ==> last == script[runs - 1].error
    ensures ok <==> runs > 0 && last == None
    ensures !ok ==> || runs == (if attempts < 1 then 1 else attempts) || runs == |script| || script[runs].cancelled
                    || (runs > 0 && (last != Some(Retryable) || script[runs - 1].interrupted))
    ensures sleeps <= runs && slept == SleptFor(script, sleeps, base, max)
    ensures sleeps == if runs > 0 && (last != Some(Retryable) || runs == Most(attempts)) then runs - 1 else runs
    ensures base > 0 && max > 0 && Exact(base, max) ==> AtMost(slept, Most(attempts) - 1, base, max)
  {
    var n := Most(attempts);
    ok, runs, slept, last, sleeps := false, 0, 0, None, 0;
    ghost var exact := base > 0 && max > 0 && Exact(base, max);
    NoSleep(script, n - 1, base, max);
    hide Envelope, Exact, Ideal, SleptWithin, SleptFor, AtMost;
    while runs < n
      invariant runs <= n && runs <= |script| && !ok && sleeps == runs
      invariant forall i | 0 <= i < runs :: script[i].error == Some(Retryable)
      invariant runs > 0 ==> last == script[runs - 1].error
      invariant runs < n && (exact ==> SleptWithin(slept, sleeps, base, max) && AtMost(slept, n - 1, base, max))
      invariant slept == SleptFor(script, sleeps, base, max)
    {
      if runs >= |script| || script[runs].cancelled {
        return;
      }
      var a := script[runs];
      runs := runs + 1;
      last := a.error;
      if last == None {
        ok := true;
        return;
      }
      if last != Some(Retryable) {
        return;
      }
      if runs == n {
        break;
      }
      slept := Sleep(script, runs, n - 1, slept, base, max);
      sleeps := sleeps + 1;
      if a.interrupted {
        return;
      }
    }
  }

  /** The sleep after the given run. */
  method Sleep(script: seq<Attempt>, run: nat, ghost most: nat, slept: nat, base: int, max: int) returns (slept': nat)
    requires Int64(base) && Int64(max) && 0 < run <= |script| && run <= most
    requires Envelope(run, base, max) > 0 ==> script[run - 1].drawn < Envelope(run, base, max)
    requires slept == SleptFor(script, run - 1, base, max)
    requires base > 0 && max > 0 && Exact(base, max) ==> SleptWithin(slept, run - 1, base, max)
    ensures slept' == SleptFor(script, run, base, max)
    ensures base > 0 && max > 0 && Exact(base, max) ==>
              SleptWithin(slept', run, base, max) && AtMost(slept', most, base, max)
  {
    hide Envelope, Exact, Ideal, SleptWithin, SleptFor, AtMost;
    var delay := Backoff(run, base, max, script[run - 1].drawn);
    NextSleep(script, run - 1, base, max, delay);
    slept' := slept + delay;
    if base > 0 && max > 0 && Exact(base, max) {
      OneMoreSleep(slept, run - 1, delay, base, max);
      SleepsAddUp(slept', run, most, base, max);
    }
  }
}
