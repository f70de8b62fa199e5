/**
 * The retry wait policy of the charge loop: a doubly recursive,
 * Fibonacci-shaped function of the zero-based retry index.
 */
module BackoffPolicy {

  /** Wait (in milliseconds) requested before the retry that follows failure number `retryNumber`. */
  function Backoff(retryNumber: int): (wait: nat)
    ensures wait >= 1
    decreases retryNumber
  {
    if retryNumber > 1 then Backoff(retryNumber - 1) + Backoff(retryNumber - 2) else 1
  }

  /** Number of invocations of Backoff made to compute Backoff(retryNumber). */
  function Invocations(retryNumber: int): nat
    decreases retryNumber
  {
    if retryNumber > 1 then 1 + Invocations(retryNumber - 1) + Invocations(retryNumber - 2) else 1
  }

  /** The waits requested by the first `failures` failed attempts, in order. */
  function Schedule(failures: nat): (waits: seq<nat>)
    ensures |waits| == failures
    ensures forall i :: 0 <= i < failures ==> waits[i] == Backoff(i)
  {
    if failures == 0 then [] else Schedule(failures - 1) + [Backoff(failures - 1)]
  }

  function Total(waits: seq<nat>): nat
  {
    if waits == [] then 0 else Total(waits[..|waits| - 1]) + waits[|waits| - 1]
  }

  /** Later retries never wait less than earlier ones. */
  lemma {:induction false} BackoffIsMonotone(m: int, n: int)
    requires m <= n
    ensures Backoff(m) <= Backoff(n)
    decreases n - m
  {
    if m < n {
      BackoffIsMonotone(m, n - 1);
    }
  }

  /** The first five waits are 1, 1, 2, 3 and 5. */
  lemma FirstWaits()
    ensures Schedule(5) == [1, 1, 2, 3, 5]
  {
  }

  /** A charge that uses up its whole retry budget of five waits 12 milliseconds in total. */
  lemma WorstCaseTotalWait()
    ensures Total(Schedule(5)) == 12
  {
    FirstWaits();
    var waits: seq<nat> := [1, 1, 2, 3, 5];
    assert Total(waits[..1]) == 1;
    assert Total(waits[..2]) == 2;
    assert waits[..3][..2] == waits[..2];
    assert Total(waits[..3]) == 4;
    assert waits[..4][..3] == waits[..3];
    assert Total(waits[..4]) == 7;
    assert waits[..4] == waits[..5][..4];
    assert waits[..5] == waits;
  }

  /** The wait at least doubles every two retries: the growth is exponential. */
  lemma {:induction false} BackoffDoublesEveryTwoRetries(n: int)
    requires n >= 0
    ensures Backoff(n + 2) >= 2 * Backoff(n)
  {
    BackoffIsMonotone(n, n + 1);
  }

  /**
   * The doubly recursive computation makes 2 * Backoff(n) - 1 calls, so its
   * cost grows as fast as the wait it computes.
   */
  lemma {:induction false} InvocationsTrackBackoff(n: int)
    ensures Invocations(n) == 2 * Backoff(n) - 1
    decreases n
  {
    if n > 1 {
      InvocationsTrackBackoff(n - 1);
      InvocationsTrackBackoff(n - 2);
    }
  }
}
