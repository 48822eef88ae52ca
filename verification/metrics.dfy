/** `calculate_metrics` of the driver: the confusion-matrix tally of
    predicted against actual anomaly flags, and the four scores computed
    from it. A float division by zero (0/0, which gives NaN) is modelled as
    an absent score. */
module Metrics {
  import opened Outcomes

  datatype Bucket = TruePositive | FalsePositive | TrueNegative | FalseNegative

  /** The four cells of the confusion matrix, stated independently of the
      order of the source's if/else-if chain. */
  predicate InBucket(predicted: bool, actual: bool, b: Bucket) {
    match b
    case TruePositive => predicted && actual
    case FalsePositive => predicted && !actual
    case TrueNegative => !predicted && !actual
    case FalseNegative => !predicted && actual
  }

  /** How many of the first `n` indices fall in bucket `b`. */
  function CountWhere(predictions: seq<bool>, labels: seq<bool>, n: nat, b: Bucket): nat
    requires n <= |predictions| && n <= |labels|
  {
    if n == 0 then 0
    else CountWhere(predictions, labels, n - 1, b) + (if InBucket(predictions[n - 1], labels[n - 1], b) then 1 else 0)
  }

  /** Every index is in exactly one bucket, so the four counts add up to
      the number of indices. */
  lemma {:induction false} CountsPartition(predictions: seq<bool>, labels: seq<bool>, n: nat)
    requires n <= |predictions| && n <= |labels|
    ensures CountWhere(predictions, labels, n, TruePositive) + CountWhere(predictions, labels, n, FalsePositive)
          + CountWhere(predictions, labels, n, TrueNegative) + CountWhere(predictions, labels, n, FalseNegative) == n
  {
    if n > 0 {
      CountsPartition(predictions, labels, n - 1);
    }
  }

  datatype Counts = Counts(tp: nat, fp: nat, tn: nat, fn: nat)

  /** The counting loop of `calculate_metrics`, with its if/else-if chain:
      each count is the number of indices in its bucket, and together they
      account for every prediction. */
  method CountOutcomes(predictions: seq<bool>, labels: seq<bool>) returns (c: Counts)
    requires |predictions| <= |labels|
    ensures c.tp == CountWhere(predictions, labels, |predictions|, TruePositive)
    ensures c.fp == CountWhere(predictions, labels, |predictions|, FalsePositive)
    ensures c.tn == CountWhere(predictions, labels, |predictions|, TrueNegative)
    ensures c.fn == CountWhere(predictions, labels, |predictions|, FalseNegative)
    ensures c.tp + c.fp + c.tn + c.fn == |predictions|
  {
    var tp, fp, tn, fn := 0, 0, 0, 0;
    var i := 0;
    while i < |predictions|
      invariant 0 <= i <= |predictions|
      invariant tp == CountWhere(predictions, labels, i, TruePositive)
      invariant fp == CountWhere(predictions, labels, i, FalsePositive)
      invariant tn == CountWhere(predictions, labels, i, TrueNegative)
      invariant fn == CountWhere(predictions, labels, i, FalseNegative)
    {
      if predictions[i] && labels[i] {
        tp := tp + 1;
      } else if predictions[i] && !labels[i] {
        fp := fp + 1;
      } else if !predictions[i] && !labels[i] {
        tn := tn + 1;
      } else if !predictions[i] && labels[i] {
        fn := fn + 1;
      }
      i := i + 1;
    }
    CountsPartition(predictions, labels, |predictions|);
    c := Counts(tp, fp, tn, fn);
  }

  datatype Scores = Scores(accuracy: Option<real>, precision: Option<real>, recall: Option<real>, f1: Option<real>)

  /** `num / den` when `den` is nonzero. */
  function Ratio(num: nat, den: nat): (r: Option<real>)
    ensures r.Some? <==> den != 0
    ensures r.Some? && num <= den ==> 0.0 <= r.value <= 1.0
  {
    if den == 0 then None else Some(num as real / den as real)
  }

  /** `2PR / (P + R)` when both are defined and their sum is nonzero. For
      two positive scores it is positive and lies between them. */
  function Harmonic(p: Option<real>, r: Option<real>): (h: Option<real>)
    ensures h.Some? <==> p.Some? && r.Some? && p.value + r.value != 0.0
    ensures p.Some? && r.Some? && 0.0 < p.value && 0.0 < r.value ==>
      && h.Some? && 0.0 < h.value
      && (p.value <= r.value ==> p.value <= h.value <= r.value)
      && (r.value <= p.value ==> r.value <= h.value <= p.value)
  {
    if p.Some? && r.Some? && p.value + r.value != 0.0 then
      if 0.0 < p.value && 0.0 < r.value then
        var h := 2.0 * (p.value * r.value) / (p.value + r.value);
        HarmonicBetween(p.value, r.value, h);
        Some(h)
      else
        Some(2.0 * (p.value * r.value) / (p.value + r.value))
    else None
  }

  /** The harmonic mean of two positive numbers is positive and lies
      between them. */
  lemma HarmonicBetween(a: real, b: real, h: real)
    requires 0.0 < a && 0.0 < b && h == 2.0 * (a * b) / (a + b)
    ensures 0.0 < h
    ensures a <= b ==> a <= h <= b
    ensures b <= a ==> b <= h <= a
  {
    var s := a + b;
    assert h * s == 2.0 * (a * b);
    assert h - a == a * (b - a) / s;
    assert b - h == b * (b - a) / s;
    assert 0.0 < a * b;
  }

  /** The four scores of `n` tallied predictions. Accuracy exists exactly
      when there is a prediction, precision and recall exactly when their
      denominators are nonzero, F1 exactly when there is a true positive;
      every score that exists lies in [0, 1]. */
  function Score(c: Counts, n: nat): (s: Scores)
    requires c.tp + c.fp + c.tn + c.fn == n
    ensures s.accuracy.Some? <==> 0 < n
    ensures s.precision.Some? <==> 0 < c.tp + c.fp
    ensures s.recall.Some? <==> 0 < c.tp + c.fn
    ensures s.f1.Some? <==> 0 < c.tp
    ensures s.accuracy.Some? ==> 0.0 <= s.accuracy.value <= 1.0
    ensures s.precision.Some? ==> 0.0 <= s.precision.value <= 1.0
    ensures s.recall.Some? ==> 0.0 <= s.recall.value <= 1.0
    ensures s.f1.Some? ==> 0.0 < s.f1.value <= 1.0
    ensures 0 < c.tp ==> s.f1 == Some(2.0 * c.tp as real / (2 * c.tp + c.fp + c.fn) as real)
  {
    var precision := Ratio(c.tp, c.tp + c.fp);
    var recall := Ratio(c.tp, c.tp + c.fn);
    if 0 < c.tp then
      F1FromCounts(c.tp, c.fp, c.fn);
      Scores(Ratio(c.tp + c.tn, n), precision, recall, Harmonic(precision, recall))
    else
      assert precision.Some? ==> precision.value == 0.0;
      assert recall.Some? ==> recall.value == 0.0;
      Scores(Ratio(c.tp + c.tn, n), precision, recall, Harmonic(precision, recall))
  }

  /** `u / v == w / z` from the cross-multiplied equation. */
  lemma CrossMultiply(u: real, v: real, w: real, z: real)
    requires v != 0.0 && z != 0.0 && u * z == w * v
    ensures u / v == w / z
  {
    calc {
      u / v;
      == (u * z) / (v * z);
      == (w * v) / (v * z);
      == w / z;
    }
  }

  /** The harmonic mean of `a/x` and `a/y`, written as one fraction. */
  lemma HarmonicOfFractions(a: real, x: real, y: real)
    requires 0.0 < a && 0.0 < x && 0.0 < y
    ensures 0.0 < a / x + a / y
    ensures 2.0 * (a / x * (a / y)) / (a / x + a / y) == 2.0 * a / (x + y)
  {
    var p := a / x;
    var r := a / y;
    assert p * x == a;
    assert r * y == a;
    assert 0.0 < p;
    assert 0.0 < r;
    assert p * r * x == a * r by {
      assert p * r * x == (p * x) * r;
    }
    assert p * r * y == p * a by {
      assert p * r * y == p * (r * y);
    }
    assert 2.0 * (p * r) * (x + y) == 2.0 * a * (p + r);
    CrossMultiply(2.0 * (p * r), p + r, 2.0 * a, x + y);
  }

  /** `Harmonic` of the two fractions `a/x` and `a/y`. */
  lemma HarmonicOfRatios(a: real, x: real, y: real)
    requires 0.0 < a && 0.0 < x && 0.0 < y
    ensures Harmonic(Some(a / x), Some(a / y)) == Some(2.0 * a / (x + y))
  {
    HarmonicOfFractions(a, x, y);
    var h := Harmonic(Some(a / x), Some(a / y));
    assert h.Some?;
    assert h.value == 2.0 * (a / x * (a / y)) / (a / x + a / y);
  }

  /** F1 from the precision `TP / (TP + FP)` and recall `TP / (TP + FN)` of
      the source equals the count form `2TP / (2TP + FP + FN)`, which lies in
      (0, 1]. */
  lemma F1FromCounts(tp: nat, fp: nat, fn: nat)
    requires 0 < tp
    ensures Harmonic(Ratio(tp, tp + fp), Ratio(tp, tp + fn)) == Some(2.0 * tp as real / (2 * tp + fp + fn) as real)
    ensures 0.0 < 2.0 * tp as real / (2 * tp + fp + fn) as real <= 1.0
  {
    var a := tp as real;
    var x := (tp + fp) as real;
    var y := (tp + fn) as real;
    HarmonicOfRatios(a, x, y);
    assert Ratio(tp, tp + fp) == Some(a / x);
    assert Ratio(tp, tp + fn) == Some(a / y);
    assert (2 * tp + fp + fn) as real == x + y;
    FractionInUnit(2.0 * a, x + y);
  }

  /** A positive fraction whose numerator does not exceed its denominator
      lies in (0, 1]. */
  lemma FractionInUnit(num: real, den: real)
    requires 0.0 < num <= den
    ensures 0.0 < num / den <= 1.0
  {
    assert num / den * den == num;
  }

  /** `calculate_metrics(predictions, actual_labels)`: tally, then score.
      The labels must be at least as long as the predictions. */
  method CalculateMetrics(predictions: seq<bool>, labels: seq<bool>) returns (s: Scores)
    requires |predictions| <= |labels|
    ensures s.accuracy.Some? <==> 0 < |predictions|
    ensures s.accuracy.Some? ==> 0.0 <= s.accuracy.value <= 1.0
    ensures var tp := CountWhere(predictions, labels, |predictions|, TruePositive);
            var tn := CountWhere(predictions, labels, |predictions|, TrueNegative);
            s.accuracy.Some? ==> s.accuracy.value == (tp + tn) as real / |predictions| as real
    ensures var tp := CountWhere(predictions, labels, |predictions|, TruePositive);
            var fp := CountWhere(predictions, labels, |predictions|, FalsePositive);
            && (s.precision.Some? <==> 0 < tp + fp)
            && (s.precision.Some? ==> s.precision.value == tp as real / (tp + fp) as real)
    ensures var tp := CountWhere(predictions, labels, |predictions|, TruePositive);
            var fn := CountWhere(predictions, labels, |predictions|, FalseNegative);
            && (s.recall.Some? <==> 0 < tp + fn)
            && (s.recall.Some? ==> s.recall.value == tp as real / (tp + fn) as real)
    ensures s.f1.Some? <==> 0 < CountWhere(predictions, labels, |predictions|, TruePositive)
    ensures var tp := CountWhere(predictions, labels, |predictions|, TruePositive);
            var fp := CountWhere(predictions, labels, |predictions|, FalsePositive);
            var fn := CountWhere(predictions, labels, |predictions|, FalseNegative);
            s.f1.Some? ==> s.f1.value == 2.0 * tp as real / (2 * tp + fp + fn) as real && 0.0 < s.f1.value <= 1.0
  {
    var c := CountOutcomes(predictions, labels);
    s := Score(c, |predictions|);
    assert s.accuracy == Ratio(c.tp + c.tn, |predictions|);
    assert s.precision == Ratio(c.tp, c.tp + c.fp);
    assert s.recall == Ratio(c.tp, c.tp + c.fn);
  }
}
