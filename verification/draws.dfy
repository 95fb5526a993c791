/** Random gates of the form `random.randint(1, n) > threshold`, used by the enemy lasers and
    the power-up. The draw itself is a parameter of every operation that makes one; this module
    only counts how many of the `n` equally likely draws pass a gate. */
module Draws {

  /** How many of the draws `1..n` exceed `threshold`. */
  function CountAbove(threshold: int, n: nat): nat
    decreases n
  {
    if n == 0 then 0 else CountAbove(threshold, n - 1) + (if n > threshold then 1 else 0)
  }

  /** Closed form of the count: no draw passes a threshold at or above `n`, every draw passes
      a negative one, and otherwise exactly `n - threshold` draws pass. */
  lemma {:induction false} CountAboveClosedForm(threshold: int, n: nat)
    ensures CountAbove(threshold, n) == if n <= threshold then 0 else if threshold < 0 then n else n - threshold
    decreases n
  {
    if n > 0 {
      CountAboveClosedForm(threshold, n - 1);
    }
  }
}
