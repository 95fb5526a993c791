/** The ease-toward rule shared by the displayed score and the health bar width:
    every tick the shown value moves one unit toward its target. */
module Easing {

  /** Distance between two integers. */
  function Dist(a: int, b: int): nat
  {
    if a <= b then b - a else a - b
  }

  /** One tick of ease-toward. */
  function StepToward(current: int, target: int): (r: int)
    ensures current == target ==> r == current
    ensures current != target ==> Dist(r, current) == 1 && Dist(r, target) == Dist(current, target) - 1
  {
    if current < target then current + 1
    else if current > target then current - 1
    else current
  }

  /** `n` consecutive ticks toward a fixed target. */
  function StepTowardN(current: int, target: int, n: nat): int
    decreases n
  {
    if n == 0 then current else StepTowardN(StepToward(current, target), target, n - 1)
  }

  /** Each tick closes the gap by one until it is closed, and the value never leaves the
      interval between where it started and the target (it never overshoots). */
  lemma {:induction false} StepsCloseGap(current: int, target: int, n: nat)
    ensures var r := StepTowardN(current, target, n);
      && Dist(r, target) == (if n <= Dist(current, target) then Dist(current, target) - n else 0)
      && (current <= target ==> current <= r <= target)
      && (target <= current ==> target <= r <= current)
    decreases n
  {
    if n > 0 {
      StepsCloseGap(StepToward(current, target), target, n - 1);
    }
  }

  /** Exactly `Dist(current, target)` ticks make the shown value equal to the target:
      that many ticks reach it, and no smaller number does. */
  lemma ConvergesInExactlyGapSteps(current: int, target: int)
    ensures StepTowardN(current, target, Dist(current, target)) == target
    ensures forall n: nat :: n < Dist(current, target) ==> StepTowardN(current, target, n) != target
  {
    StepsCloseGap(current, target, Dist(current, target));
    forall n: nat | n < Dist(current, target)
      ensures StepTowardN(current, target, n) != target
    {
      StepsCloseGap(current, target, n);
    }
  }
}
