/**
 * The reconnect backoff of the client: a delay that starts at 2 seconds in every
 * reconnect episode, doubles after each failed attempt and is capped at 60.
 */
module Backoff {

  const INITIAL_DELAY := 2
  const MAX_DELAY := 60

  function Pow2(k: nat): nat {
    if k == 0 then 1 else 2 * Pow2(k - 1)
  }

  /** The update after a failed attempt: `min(reconnect_delay * 2, max_delay)`. */
  function NextDelay(d: nat): nat {
    if d * 2 < MAX_DELAY then d * 2 else MAX_DELAY
  }

  /** The delay slept before attempt `k` (counting from 1) of one episode: `min(2 * 2^(k-1), 60)`. */
  function DelayBeforeAttempt(k: nat): nat
    requires k >= 1
  {
    if Pow2(k) < MAX_DELAY then Pow2(k) else MAX_DELAY
  }

  /** Every episode's first sleep is the initial delay. */
  lemma FirstDelay()
    ensures DelayBeforeAttempt(1) == INITIAL_DELAY
  {
  }

  /** One failed attempt moves the closed form one step on: the loop's update agrees with it. */
  lemma NextDelayStep(k: nat)
    requires k >= 1
    ensures NextDelay(DelayBeforeAttempt(k)) == DelayBeforeAttempt(k + 1)
  {
    assert Pow2(k + 1) == 2 * Pow2(k);
  }

  lemma {:induction false} Pow2AtLeast64(k: nat)
    requires k >= 6
    ensures Pow2(k) >= 64
  {
    if k > 6 {
      Pow2AtLeast64(k - 1);
    }
  }

  lemma {:induction false} Pow2Monotone(j: nat, k: nat)
    requires j <= k
    ensures Pow2(j) <= Pow2(k)
    decreases k
  {
    if j < k {
      Pow2Monotone(j, k - 1);
    }
  }

  /** The schedule is 2, 4, 8, 16, 32, then 60 for every later attempt. */
  lemma Schedule(k: nat)
    requires k >= 1
    ensures k <= 5 ==> DelayBeforeAttempt(k) == Pow2(k)
    ensures k >= 6 ==> DelayBeforeAttempt(k) == MAX_DELAY
    ensures INITIAL_DELAY <= DelayBeforeAttempt(k) <= MAX_DELAY
  {
    if k >= 6 {
      Pow2AtLeast64(k);
    } else {
      Pow2Monotone(k, 5);
      assert Pow2(5) == 32;
    }
    Pow2Monotone(1, k);
  }

  /** Later attempts never wait less than earlier ones. */
  lemma DelayMonotone(j: nat, k: nat)
    requires 1 <= j <= k
    ensures DelayBeforeAttempt(j) <= DelayBeforeAttempt(k)
  {
    Pow2Monotone(j, k);
  }
}
