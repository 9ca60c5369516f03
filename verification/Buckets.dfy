/** What a token bucket earns, and what a touch finds in it. */
module Buckets {
  import opened Tenants

  /** What a bucket earns in `time`. */
  function Earned(perSec: real, time: real): real { time * perSec }

  lemma EarnedSum(perSec: real, x: real, y: real)
    ensures Earned(perSec, x) + Earned(perSec, y) == Earned(perSec, x + y)
  {
  }

  lemma EarnedNothing(perSec: real)
    ensures Earned(perSec, 0.0) == 0.0
  {
  }

  lemma EarnsNothing(time: real)
    ensures Earned(0.0, time) == 0.0
  {
  }

  lemma EarnedPositive(perSec: real, time: real)
    requires perSec >= 0.0 && time >= 0.0
    ensures Earned(perSec, time) >= 0.0
    ensures perSec > 0.0 && time > 0.0 ==> Earned(perSec, time) > 0.0
  {
  }

  lemma EarnedMore(perSec: real, x: real, y: real)
    requires perSec >= 0.0 && x <= y
    ensures Earned(perSec, x) <= Earned(perSec, y)
    ensures perSec > 0.0 && x < y ==> Earned(perSec, x) < Earned(perSec, y)
  {
    hide Earned;
    EarnedPositive(perSec, y - x);
    EarnedSum(perSec, x, y - x);
  }

  /** What the bucket would hold at `now` if it had no capacity. */
  function Uncapped(b: BucketState, now: real): real {
    b.level + Earned(b.perSec, Max(now - b.last, 0.0))
  }

  /** What a touch at `now` finds. */
  function Found(b: BucketState, now: real): real { Min(Uncapped(b, now), b.capacity) }

  lemma RefillFinds(b: BucketState, now: real)
    requires b.level <= b.capacity
    ensures b.Refilled(now) == BucketState(b.capacity, b.perSec, Found(b, now), now)
  {
    EarnedNothing(b.perSec);
  }
}
