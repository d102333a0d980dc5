/** The value policy: a new resource count from a metric value and two
    thresholds, never below zero. Metric values are modelled as `real`. */
module Policy {
  import opened Wrappers
  import opened Autoscale

  datatype ValuePolicy = ValuePolicy(scaleUpValue: real, scaleUpBy: int, scaleDownValue: real, scaleDownBy: int)

  /** Builds a policy; the scale-down threshold must lie below the scale-up one. */
  function NewValuePolicy(scaleUpValue: real, scaleUpBy: int, scaleDownValue: real, scaleDownBy: int)
    : (r: Result<ValuePolicy, Error>)
    ensures r.Failure? <==> scaleDownValue >= scaleUpValue
    ensures r.Failure? ==> r.error == Failed("scaleDownBalue must be less than scaleUpValue")
    ensures r.Success? ==> r.value == ValuePolicy(scaleUpValue, scaleUpBy, scaleDownValue, scaleDownBy)
    ensures r.Success? ==> r.value.scaleDownValue < r.value.scaleUpValue
  {
    if scaleDownValue >= scaleUpValue then Failure(Failed("scaleDownBalue must be less than scaleUpValue"))
    else Success(ValuePolicy(scaleUpValue, scaleUpBy, scaleDownValue, scaleDownBy))
  }

  function Max(a: int, b: int): int {
    if a >= b then a else b
  }

  /** How many resources there should be, given the current count and metric value. */
  function Scale(p: ValuePolicy, resourceCount: int, value: real): (n: int)
    ensures n >= 0
    ensures value <= p.scaleDownValue ==> n == Max(resourceCount - p.scaleDownBy, 0)
    ensures p.scaleDownValue < value && p.scaleUpValue <= value ==> n == Max(resourceCount + p.scaleUpBy, 0)
    ensures p.scaleDownValue < value < p.scaleUpValue ==> n == Max(resourceCount, 0)
  {
    var newCount :=
      if value <= p.scaleDownValue then resourceCount - p.scaleDownBy
      else if value >= p.scaleUpValue then resourceCount + p.scaleUpBy
      else resourceCount;
    if newCount < 0 then 0 else newCount
  }

  /** More resources now never means fewer after scaling. */
  lemma ScaleMonotoneInCount(p: ValuePolicy, c1: int, c2: int, value: real)
    requires c1 <= c2
    ensures Scale(p, c1, value) <= Scale(p, c2, value)
  {
  }

  /** For a policy NewValuePolicy accepts, with non-negative step sizes, a
      higher metric value never yields fewer resources, and the result stays
      within the steps around the current (non-negative) count. */
  lemma {:induction false} ScaleMonotoneInValue(p: ValuePolicy, count: int, v1: real, v2: real)
    requires NewValuePolicy(p.scaleUpValue, p.scaleUpBy, p.scaleDownValue, p.scaleDownBy).Success?
    requires p.scaleUpBy >= 0 && p.scaleDownBy >= 0 && count >= 0
    requires v1 <= v2
    ensures Scale(p, count, v1) <= Scale(p, count, v2)
    ensures count - p.scaleDownBy <= Scale(p, count, v1) <= count + p.scaleUpBy
  {
    assert p.scaleDownValue < p.scaleUpValue;
    if v1 <= p.scaleDownValue {
      assert Scale(p, count, v1) == Max(count - p.scaleDownBy, 0) <= count;
    } else {
      assert p.scaleDownValue < v2;
      if v1 < p.scaleUpValue {
        assert Scale(p, count, v1) == count;
      }
    }
  }

  /** The package's policy test vectors (up 0.8 by 3, down 0.2 by 2). */
  lemma ScaleExamples()
    ensures var p := NewValuePolicy(0.8, 3, 0.2, 2);
      p.Success? &&
      Scale(p.value, 5, 0.5) == 5 && Scale(p.value, 5, 0.1) == 3 &&
      Scale(p.value, 5, 0.8) == 8 && Scale(p.value, 1, 0.1) == 0
  {
  }
}
