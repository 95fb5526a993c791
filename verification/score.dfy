/** The player's score (score.py): a target that changes at once on every scoring event,
    clamped at zero, and a displayed value that follows it one point per tick. */
module Scoring {
  import opened Easing

  /** `change_score`'s rule for the target: add the points, then raise a negative result to zero. */
  function AddPoints(target: int, points: int): int
  {
    if target + points < 0 then 0 else target + points
  }

  /** The target after a series of `change_score` calls, applied one at a time. */
  function ApplyPoints(target: int, deltas: seq<int>): int
    decreases |deltas|
  {
    if deltas == [] then target
    else AddPoints(ApplyPoints(target, deltas[..|deltas| - 1]), deltas[|deltas| - 1])
  }

  /** `n` scoring events worth `points` each. */
  function Repeat(points: int, n: nat): (r: seq<int>)
    ensures |r| == n && forall k :: 0 <= k < n ==> r[k] == points
  {
    seq(n, _ => points)
  }

  /** Applying two series of events one after the other is applying their concatenation. */
  lemma {:induction false} ApplyPointsAppend(target: int, a: seq<int>, b: seq<int>)
    ensures ApplyPoints(target, a + b) == ApplyPoints(ApplyPoints(target, a), b)
    decreases |b|
  {
    if b == [] {
      assert a + b == a;
    } else {
      assert (a + b)[..|a + b| - 1] == a + b[..|b| - 1];
      ApplyPointsAppend(target, a, b[..|b| - 1]);
    }
  }

  /** One more event of the same kind is one more `change_score` call on the target so far. */
  lemma ApplyPointsRepeatStep(target: int, points: int, n: nat)
    ensures ApplyPoints(target, Repeat(points, n + 1)) == AddPoints(ApplyPoints(target, Repeat(points, n)), points)
  {
    assert Repeat(points, n + 1)[..n] == Repeat(points, n);
  }

  /** The target is never negative once a scoring event has happened, nor when it started
      non-negative. */
  lemma ApplyPointsNonNegative(target: int, deltas: seq<int>)
    requires target >= 0 || deltas != []
    ensures ApplyPoints(target, deltas) >= 0
  {
  }

  /** From a non-negative target, gains are never clamped: `n` gains of `points` add `n * points`. */
  lemma {:induction false} GainsAddUp(target: int, points: int, n: nat)
    requires target >= 0 && points >= 0
    ensures ApplyPoints(target, Repeat(points, n)) == target + n * points
  {
    if n > 0 {
      assert Repeat(points, n)[..n - 1] == Repeat(points, n - 1);
      GainsAddUp(target, points, n - 1);
    }
  }

  class Score {
    /** The score shown on screen. */
    var displayedScore: int
    /** The actual score. */
    var targetScore: int

    constructor ()
      ensures displayedScore == 0 && targetScore == 0
    {
      displayedScore := 0;
      targetScore := 0;
    }

    /** `change_score`: the new target is `max(0, old target + points)`. */
    method ChangeScore(points: int)
      modifies this
      ensures targetScore == AddPoints(old(targetScore), points)
      ensures targetScore >= 0 && targetScore >= old(targetScore) + points
      ensures displayedScore == old(displayedScore)
    {
      targetScore := targetScore + points;
      if targetScore < 0 {
        targetScore := 0;
      }
    }

    /** `update`: the displayed score moves one point toward the target; the target stays. */
    method Update()
      modifies this
      ensures displayedScore == StepToward(old(displayedScore), targetScore)
      ensures targetScore == old(targetScore)
    {
      if displayedScore < targetScore {
        displayedScore := displayedScore + 1;
      } else if displayedScore > targetScore {
        displayedScore := displayedScore - 1;
      }
    }

    /** `reset`: back to the state of a new score. */
    method Reset()
      modifies this
      ensures displayedScore == 0 && targetScore == 0
    {
      displayedScore := 0;
      targetScore := 0;
    }
  }
}
