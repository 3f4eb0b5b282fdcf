/**
 The exponential backoff policy of the connection manager: the two constants,
 one backoff step (double, then cap at the ceiling), the interval reached after
 a run of consecutive failures, and the delay each retry of such a run uses.
 */
module Backoff {

  /** Delay of the first retry after a reset, in milliseconds. */
  const InitialInterval: nat := 100

  /** Largest delay ever used, in milliseconds (five minutes). */
  const CeilingInterval: nat := 300000

  /** The range every backoff interval stays in. */
  predicate InBounds(i: int) {
    InitialInterval <= i <= CeilingInterval
  }

  function Min(a: int, b: int): (m: int)
    ensures m <= a && m <= b
    ensures m == a || m == b
  {
    if a <= b then a else b
  }

  /** 2 raised to the power n. */
  function Pow2(n: nat): (p: nat)
    ensures p >= 1
    ensures n > 0 ==> p >= 2
  {
    if n == 0 then 1 else 2 * Pow2(n - 1)
  }

  /**
   One backoff step, taken after every close: the interval doubles and is
   then capped at the ceiling.
   */
  function NextInterval(i: nat): (r: nat)
    ensures r <= CeilingInterval
    ensures r < CeilingInterval ==> r == 2 * i
    ensures i <= CeilingInterval ==> i <= r
    ensures InBounds(i) ==> InBounds(r)
  {
    Min(2 * i, CeilingInterval)
  }

  /** The interval after n consecutive closes, starting from a reset. */
  function IntervalAfter(n: nat): (r: nat)
    ensures InBounds(r)
  {
    if n == 0 then InitialInterval else NextInterval(IntervalAfter(n - 1))
  }

  /**
   The delay of the k-th retry of a run of consecutive closes: the k-th close
   schedules its retry with the interval left by the k - 1 closes before it.
   */
  function RetryDelay(k: nat): (d: nat)
    requires k >= 1
    ensures InBounds(d)
  {
    IntervalAfter(k - 1)
  }

  /** The interval after n closes has the closed form min(100 * 2^n, 300000). */
  lemma {:induction false} IntervalAfterClosedForm(n: nat)
    ensures IntervalAfter(n) == Min(InitialInterval * Pow2(n), CeilingInterval)
  {
    if n > 0 {
      IntervalAfterClosedForm(n - 1);
      var prev := InitialInterval * Pow2(n - 1);
      assert InitialInterval * Pow2(n) == 2 * prev;
      if prev > CeilingInterval {
        assert IntervalAfter(n - 1) == CeilingInterval;
      }
    }
  }

  /** The k-th retry waits min(100 * 2^(k-1), 300000) milliseconds. */
  lemma RetryDelayClosedForm(k: nat)
    requires k >= 1
    ensures RetryDelay(k) == Min(InitialInterval * Pow2(k - 1), CeilingInterval)
  {
    IntervalAfterClosedForm(k - 1);
  }

  lemma {:induction false} Pow2Monotone(m: nat, n: nat)
    requires m <= n
    ensures Pow2(m) <= Pow2(n)
  {
    if m < n {
      Pow2Monotone(m, n - 1);
    }
  }

  /**
   The interval never decreases along a run of closes: after more closes it
   is at least as large.
   */
  lemma {:induction false} IntervalAfterMonotone(m: nat, n: nat)
    requires m <= n
    ensures IntervalAfter(m) <= IntervalAfter(n)
  {
    if m < n {
      IntervalAfterMonotone(m, n - 1);
    }
  }

  /**
   The interval reaches the ceiling exactly after 12 closes, and stays there
   for every longer run: 100 * 2^11 = 204800 is below it and 100 * 2^12 =
   409600 is above it.
   */
  lemma IntervalAfterSaturates(n: nat)
    ensures IntervalAfter(n) == CeilingInterval <==> n >= 12
  {
    IntervalAfterClosedForm(n);
    if n >= 12 {
      Pow2Monotone(12, n);
      assert Pow2(12) == 4096;
    } else {
      Pow2Monotone(n, 11);
      assert Pow2(11) == 2048;
    }
  }

  /** The 13th retry of a run, and every later one, waits the full ceiling. */
  lemma RetryDelaySaturates(k: nat)
    requires k >= 1
    ensures RetryDelay(k) == CeilingInterval <==> k >= 13
  {
    IntervalAfterSaturates(k - 1);
  }

  /** The first delays of a run: 100, 200, 400, 800 milliseconds. */
  lemma FirstRetryDelays()
    ensures RetryDelay(1) == 100 && RetryDelay(2) == 200
    ensures RetryDelay(3) == 400 && RetryDelay(4) == 800
  {
  }
}
