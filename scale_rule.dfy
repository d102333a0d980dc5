/** Scale rules: inclusive integer and metric bounds, a group of rules with
    overlap-checked insertion and first-match lookup. Metric values, which are
    `float64` in the source, are modelled as `real`. */
module ScaleRules {
  import opened Wrappers
  import opened Autoscale

  /** An inclusive range of item counts. */
  datatype IntBounds = IntBounds(lower: int, upper: int) {
    /** A valid range holds both its endpoints and no negative count. */
    function IsValid(): (valid: bool)
      ensures valid ==> this.Includes(lower) && this.Includes(upper)
      ensures valid ==> forall x :: this.Includes(x) ==> x >= 0
    {
      lower <= upper && (lower >= 0 && upper >= 0)
    }

    /** Only a non-empty range includes anything. */
    function Includes(item: int): (inc: bool)
      ensures inc ==> lower <= upper
    {
      item >= lower && item <= upper
    }
  }

  /** An inclusive range of metric values. */
  datatype FloatBounds = FloatBounds(lower: real, upper: real) {
    /** A valid range holds both its endpoints and no negative value. */
    function IsValid(): (valid: bool)
      ensures valid ==> this.Includes(lower) && this.Includes(upper)
      ensures valid ==> forall x :: this.Includes(x) ==> x >= 0.0
    {
      lower <= upper && (lower >= 0.0 && upper >= 0.0)
    }

    /** Only a non-empty range includes anything. */
    function Includes(item: real): (inc: bool)
      ensures inc ==> lower <= upper
    {
      item >= lower && item <= upper
    }
  }

  datatype ScaleMetric = ScaleMetric(bounds: FloatBounds)

  /** A rule: when the item count and the metric value are both in range, scale by `step`. */
  datatype ScaleRule = ScaleRule(bounds: IntBounds, step: int, metric: ScaleMetric) {
    /** A rule matches only when both of its ranges are non-empty, and then
        exactly the points inside both. */
    function IsMatch(itemCount: int, metricValue: real): (m: bool)
      ensures m ==> bounds.lower <= itemCount <= bounds.upper
      ensures m ==> metric.bounds.lower <= metricValue <= metric.bounds.upper
      ensures bounds.lower <= itemCount <= bounds.upper && metric.bounds.lower <= metricValue <= metric.bounds.upper ==> m
    {
      bounds.Includes(itemCount) && metric.bounds.Includes(metricValue)
    }

    /** The same rule with its metric bounds replaced. */
    function SetMetric(lower: real, upper: real): (r: ScaleRule)
      ensures r.bounds == bounds && r.step == step
      ensures forall v :: r.metric.bounds.Includes(v) <==> lower <= v <= upper
    {
      this.(metric := ScaleMetric(FloatBounds(lower, upper)))
    }
  }

  /** A valid integer range is one that is non-empty and holds only
      non-negative counts; the endpoints are part of it. */
  lemma IntBoundsValidity(b: IntBounds)
    ensures b.IsValid() <==> b.Includes(b.lower) && forall x :: b.Includes(x) ==> x >= 0
    ensures b.IsValid() ==> b.Includes(b.lower) && b.Includes(b.upper)
  {
    if b.Includes(b.lower) && forall x :: b.Includes(x) ==> x >= 0 {
      assert b.Includes(b.upper);
    }
  }

  /** The same characterisation for metric ranges. */
  lemma FloatBoundsValidity(b: FloatBounds)
    ensures b.IsValid() <==> b.Includes(b.lower) && forall x :: b.Includes(x) ==> x >= 0.0
    ensures b.IsValid() ==> b.Includes(b.lower) && b.Includes(b.upper)
  {
    if b.Includes(b.lower) && forall x :: b.Includes(x) ==> x >= 0.0 {
      assert b.Includes(b.upper);
    }
  }

  /** The validity cases the package's tests check. */
  lemma BoundsValidityExamples()
    ensures IntBounds(0, 20).IsValid() && !IntBounds(10, 5).IsValid() && !IntBounds(-10, 5).IsValid()
    ensures FloatBounds(0.0, 20.0).IsValid() && !FloatBounds(10.0, 5.0).IsValid()
    ensures !FloatBounds(-10.0, 5.0).IsValid()
    ensures ScaleRule(IntBounds(0, 10), 5, ScaleMetric(FloatBounds(10.0, 20.0))).IsMatch(5, 15.0)
  {
  }

  /** The rule AddRule builds from its arguments. */
  function NewRule(rbl: int, rbu: int, step: int, mbl: real, mbu: real): ScaleRule {
    ScaleRule(IntBounds(rbl, rbu), step, ScaleMetric(FloatBounds(0.0, 0.0))).SetMetric(mbl, mbu)
  }

  /** Whether `rule` contains both the count range [rbl, rbu] and the metric range [mbl, mbu]. */
  predicate Covers(rule: ScaleRule, rbl: int, rbu: int, mbl: real, mbu: real) {
    var isBoundMatch := rule.bounds.lower <= rbl && rule.bounds.upper >= rbu;
    var isMetricMatch := rule.metric.bounds.lower <= mbl && rule.metric.bounds.upper >= mbu;
    isBoundMatch && isMetricMatch
  }

  /** Overlap as the source defines it: some existing rule covers the new one. */
  predicate Overlaps(rules: seq<ScaleRule>, rbl: int, rbu: int, mbl: real, mbu: real) {
    exists i :: 0 <= i < |rules| && Covers(rules[i], rbl, rbu, mbl, mbu)
  }

  /** Overlap is containment, not intersection: for a non-empty new range,
      a rule covers it exactly when the rule matches every point of it. */
  lemma CoversIsContainment(rule: ScaleRule, rbl: int, rbu: int, mbl: real, mbu: real)
    requires rbl <= rbu && mbl <= mbu
    ensures Covers(rule, rbl, rbu, mbl, mbu) <==>
            forall c, v :: rbl <= c <= rbu && mbl <= v <= mbu ==> rule.IsMatch(c, v)
  {
    if forall c, v :: rbl <= c <= rbu && mbl <= v <= mbu ==> rule.IsMatch(c, v) {
      assert rule.IsMatch(rbl, mbl);
      assert rule.IsMatch(rbu, mbu);
    }
  }

  /** Index of the first rule, in insertion order, that matches. */
  function FirstMatch(rules: seq<ScaleRule>, itemCount: int, metricValue: real): (r: Option<nat>)
    ensures r.Some? ==> r.value < |rules| && rules[r.value].IsMatch(itemCount, metricValue)
    ensures r.Some? ==> forall j :: 0 <= j < r.value ==> !rules[j].IsMatch(itemCount, metricValue)
    ensures r.None? <==> forall j :: 0 <= j < |rules| ==> !rules[j].IsMatch(itemCount, metricValue)
  {
    if rules == [] then None
    else if rules[0].IsMatch(itemCount, metricValue) then Some(0)
    else
      match FirstMatch(rules[1..], itemCount, metricValue)
      case None => None
      case Some(i) => Some(i + 1)
  }

  /** The step FindAction reports: that of the first matching rule, or 0. */
  function ActionOf(rules: seq<ScaleRule>, itemCount: int, metricValue: real): int {
    match FirstMatch(rules, itemCount, metricValue)
    case Some(i) => rules[i].step
    case None => 0
  }

  /** Appending a rule never changes the answer for points an earlier rule
      already matches; elsewhere the new rule decides. */
  lemma {:induction false} FirstMatchAppend(rules: seq<ScaleRule>, rule: ScaleRule, itemCount: int, metricValue: real)
    ensures FirstMatch(rules + [rule], itemCount, metricValue) ==
            if FirstMatch(rules, itemCount, metricValue).Some? then FirstMatch(rules, itemCount, metricValue)
            else if rule.IsMatch(itemCount, metricValue) then Some(|rules|)
            else None
  {
    if rules != [] {
      assert (rules + [rule])[1..] == rules[1..] + [rule];
      FirstMatchAppend(rules[1..], rule, itemCount, metricValue);
    }
  }

  /** A set of scale rules, kept in insertion order. */
  class ScaleGroup {
    var rules: seq<ScaleRule>

    constructor ()
      ensures rules == []
    {
      rules := [];
    }

    /** The step of the first matching rule, or 0 when none matches. */
    method FindAction(itemCount: int, metricValue: real) returns (step: int)
      ensures step == ActionOf(rules, itemCount, metricValue)
      ensures (forall j :: 0 <= j < |rules| ==> !rules[j].IsMatch(itemCount, metricValue)) ==> step == 0
    {
      var i := 0;
      while i < |rules|
        invariant 0 <= i <= |rules|
        invariant forall j :: 0 <= j < i ==> !rules[j].IsMatch(itemCount, metricValue)
      {
        if rules[i].IsMatch(itemCount, metricValue) {
          return rules[i].step;
        }
        i := i + 1;
      }
      return 0;
    }

    /** Whether an existing rule covers the proposed ranges. */
    method IsOverlap(rbl: int, rbu: int, mbl: real, mbu: real) returns (overlap: bool)
      ensures overlap <==> Overlaps(rules, rbl, rbu, mbl, mbu)
    {
      var i := 0;
      while i < |rules|
        invariant 0 <= i <= |rules|
        invariant forall j :: 0 <= j < i ==> !Covers(rules[j], rbl, rbu, mbl, mbu)
      {
        var rule := rules[i];
        var isBoundMatch := rule.bounds.lower <= rbl && rule.bounds.upper >= rbu;
        var isMetricMatch := rule.metric.bounds.lower <= mbl && rule.metric.bounds.upper >= mbu;
        if isBoundMatch && isMetricMatch {
          return true;
        }
        i := i + 1;
      }
      return false;
    }

    /** Appends a rule unless an existing rule covers it. */
    method AddRule(rbl: int, rbu: int, step: int, mbl: real, mbu: real) returns (err: Option<Error>)
      modifies this
      ensures err.Some? <==> Overlaps(old(rules), rbl, rbu, mbl, mbu)
      ensures err.Some? ==> err.value == Overlap && rules == old(rules)
      ensures err.None? ==> rules == old(rules) + [NewRule(rbl, rbu, step, mbl, mbu)]
    {
      var overlap := IsOverlap(rbl, rbu, mbl, mbu);
      if overlap {
        return Some(Overlap);
      }
      var ruleBounds := IntBounds(rbl, rbu);
      var sr := ScaleRule(ruleBounds, step, ScaleMetric(FloatBounds(0.0, 0.0)));
      sr := sr.SetMetric(mbl, mbu);
      rules := rules + [sr];
      return None;
    }
  }

  /** The package's rule tests, replayed against the contracts above: the
      three additions succeed, fail with the overlap error and succeed, and
      the four lookups find the steps 5, 3, 0 and 0. */
  method ScaleGroupExamples() returns (errs: seq<Option<Error>>, steps: seq<int>)
    ensures errs == [None, Some(Overlap), None]
    ensures steps == [5, 3, 0, 0]
  {
    var sg := new ScaleGroup();
    var e1 := sg.AddRule(0, 10, 5, 10.0, 20.0);
    assert Covers(sg.rules[0], 0, 10, 15.0, 20.0);
    var e2 := sg.AddRule(0, 10, 2, 15.0, 20.0);
    assert !Covers(sg.rules[0], 11, 20, 10.0, 20.0);
    var e3 := sg.AddRule(11, 20, 3, 10.0, 20.0);
    errs := [e1, e2, e3];
    var r0, r1 := sg.rules[0], sg.rules[1];
    assert r0.IsMatch(5, 15.0);
    var i1 := sg.FindAction(5, 15.0);
    assert !r0.IsMatch(11, 15.0) && r1.IsMatch(11, 15.0);
    var i2 := sg.FindAction(11, 15.0);
    assert !r0.IsMatch(15, 30.0) && !r1.IsMatch(15, 30.0);
    var i3 := sg.FindAction(15, 30.0);
    assert !r0.IsMatch(35, 10.0) && !r1.IsMatch(35, 10.0);
    var i4 := sg.FindAction(35, 10.0);
    steps := [i1, i2, i3, i4];
  }
}
