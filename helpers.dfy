/** The percentage helpers of src/utils/helpers.ts, over exact arithmetic. */
module Helpers {

  /** `calculatePercentage(value, total)`: value as a percentage of total, 0 for a zero total. */
  function CalculatePercentage(value: int, total: int): (p: real)
    ensures total == 0 ==> p == 0.0
    ensures total != 0 ==> p * (total as real) == (value as real) * 100.0
  {
    if total == 0 then 0.0 else (value as real) / (total as real) * 100.0
  }

  lemma PercentageOfWhole(total: int)
    requires total != 0
    ensures CalculatePercentage(total, total) == 100.0
  {
  }

  /** For a positive total, the percentage reaches a threshold exactly when the integers say so. */
  lemma PercentageAtLeast(value: int, total: int, threshold: int)
    requires total > 0
    ensures CalculatePercentage(value, total) >= threshold as real <==> 100 * value >= threshold * total
  {
    var p := CalculatePercentage(value, total);
    var t := total as real;
    assert p * t == (value as real) * 100.0;
    if p >= threshold as real {
      assert p * t >= (threshold as real) * t;
    } else {
      assert p * t < (threshold as real) * t;
    }
  }

  lemma PercentageMonotonic(v1: int, v2: int, total: int)
    requires total > 0 && v1 <= v2
    ensures CalculatePercentage(v1, total) <= CalculatePercentage(v2, total)
  {
    var t := total as real;
    assert CalculatePercentage(v2, total) - CalculatePercentage(v1, total) == ((v2 - v1) as real) / t * 100.0;
  }

  /** `calculateGoalProgress(current, target)`: the percentage, capped at 100. */
  function CalculateGoalProgress(current: int, target: int): (p: real)
    ensures target == 0 ==> p == 0.0
    ensures p <= 100.0
    ensures target > 0 && current <= target ==> p == CalculatePercentage(current, target)
    ensures target > 0 && current >= target ==> p == 100.0
    ensures target > 0 && current < target ==> p < 100.0
    ensures target > 0 && current >= 0 ==> p >= 0.0
  {
    if target == 0 then 0.0
    else
      var progress := (current as real) / (target as real) * 100.0;
      assert target > 0 ==> (progress >= 100.0 <==> current >= target) by {
        if target > 0 {
          PercentageAtLeast(current, target, 100);
        }
      }
      if progress < 100.0 then progress else 100.0
  }
}
