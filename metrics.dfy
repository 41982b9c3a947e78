/**
 * The figures both dashboards show after every change: how many records exist,
 * how many are completed, how many are still in progress, and the success rate
 * as a whole percentage.
 */
module Metrics {

  /**
   * `total > 0 ? Math.round((completed / total) * 100) : 0`, over exact integers:
   * the nearest integer to `100 * completed / total`, a half rounding up.
   */
  function SuccessRate(completed: nat, total: nat): (r: int)
    ensures total == 0 ==> r == 0
    ensures total > 0 ==> 2 * total * r <= 200 * completed + total < 2 * total * r + 2 * total
    ensures r >= 0
  {
    if total > 0 then (200 * completed + total) / (2 * total) else 0
  }

  /** The rate is a percentage when no more are completed than exist. */
  lemma RateBounds(completed: nat, total: nat)
    requires completed <= total
    ensures 0 <= SuccessRate(completed, total) <= 100
  {
    if total > 0 {
      var r := SuccessRate(completed, total);
      ProductBelow(2 * total, r, 101, 200 * completed + total);
    }
  }

  /**
   * The rate shows 100 exactly when at least 99.5% are completed: 199 of 200
   * already rounds up to 100, so 100% does not mean that every record is done.
   */
  lemma RateFull(completed: nat, total: nat)
    requires completed <= total
    ensures SuccessRate(completed, total) == 100 <==> total > 0 && 200 * completed >= 199 * total
  {
    if total > 0 {
      var r := SuccessRate(completed, total);
      if 200 * completed < 199 * total {
        ProductBelow(2 * total, r, 100, 200 * completed + total);
      } else {
        ProductAbove(2 * total, r, 99, 200 * completed + total);
        RateBounds(completed, total);
      }
    }
  }

  /** The rate is 0 exactly when there are no records or under one in 200 is completed. */
  lemma RateZero(completed: nat, total: nat)
    ensures SuccessRate(completed, total) == 0 <==> total == 0 || 200 * completed < total
  {
    if total > 0 {
      var r := SuccessRate(completed, total);
      if 200 * completed < total {
        ProductBelow(2 * total, r, 1, 200 * completed + total);
      } else {
        ProductAbove(2 * total, r, 0, 200 * completed + total);
      }
    }
  }

  /** From `k*a <= n < k*b` with `k > 0` it follows that `a < b`. */
  lemma ProductBelow(k: int, a: int, b: int, n: int)
    requires k > 0 && k * a <= n < k * b
    ensures a < b
  {
    if a >= b {
      MulMonotone(k, b, a);
    }
  }

  /** From `k*b <= n < k*a + k` with `k > 0` it follows that `b < a + 1`, that is `b <= a`. */
  lemma ProductAbove(k: int, a: int, b: int, n: int)
    requires k > 0 && k * (b + 1) <= n < k * a + k
    ensures b < a
  {
    assert k * a + k == k * (a + 1);
    ProductBelow(k, b + 1, a + 1, n);
  }

  lemma MulMonotone(k: int, a: int, b: int)
    requires k > 0 && a <= b
    ensures k * a <= k * b
  {
    assert k * b - k * a == k * (b - a);
  }

  /** Worked examples of the rate. */
  lemma RateExamples()
    ensures SuccessRate(0, 0) == 0
    ensures SuccessRate(1, 4) == 25
    ensures SuccessRate(2, 3) == 67
    ensures SuccessRate(1, 8) == 13
    ensures SuccessRate(1, 1) == 100
    ensures SuccessRate(199, 200) == 100
  {
  }

  /** The four counters and the percentage that `updateMetrics` displays. */
  datatype Summary = Summary(total: nat, completed: nat, inProgress: int, successRate: int)

  /**
   * `updateMetrics`: total from the record list, completed from the completed-id
   * list, in progress as the difference (which `updateMetrics` does not clamp).
   */
  function Summarize(completed: nat, total: nat): (m: Summary)
    ensures m.total == total && m.completed == completed
    ensures m.inProgress + m.completed == m.total
    ensures m.successRate == SuccessRate(completed, total)
    ensures completed <= total ==> 0 <= m.inProgress <= m.total && 0 <= m.successRate <= 100
  {
    if completed <= total then
      RateBounds(completed, total);
      Summary(total, completed, total - completed, SuccessRate(completed, total))
    else
      Summary(total, completed, total - completed, SuccessRate(completed, total))
  }
}
