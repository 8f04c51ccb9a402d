/**
 * The confidence score of one forecast row: the width of its interval as a
 * percentage of the point forecast, mapped to 100 up to a threshold of 10
 * percent and then down by one point per percentage point, floored at 0.
 *
 * Arithmetic is exact (`real`). Division follows the IEEE rules the source
 * gets from its 64-bit float scalars: dividing by a zero forecast does not
 * raise, it gives an infinity or "not a number", which the comparisons and
 * `max(0, ...)` then turn into a score.
 */
module Confidence {
  import opened Forecasting

  /** The relative width, as an IEEE double would hold it: finite, infinite or not a number. */
  datatype Extended = Finite(value: real) | PlusInfinity | MinusInfinity | NotANumber

  /** Relative widths up to this many percent get full confidence. */
  const Threshold: real := 10.0

  /** `num / den` with IEEE semantics for a zero denominator. */
  function Divide(num: real, den: real): (q: Extended)
    ensures q.Finite? <==> den != 0.0
    ensures q.Finite? ==> q.value * den == num
    ensures q == PlusInfinity <==> den == 0.0 && num > 0.0
    ensures q == MinusInfinity <==> den == 0.0 && num < 0.0
  {
    if den != 0.0 then Finite(num / den)
    else if num > 0.0 then PlusInfinity
    else if num < 0.0 then MinusInfinity
    else NotANumber
  }

  /** Multiplication by 100: infinities and "not a number" stay what they are. */
  function Percent(x: Extended): Extended
  {
    match x
    case Finite(v) => Finite(v * 100.0)
    case _ => x
  }

  /** Width of the interval relative to the forecast, in percent. */
  function RelativeWidth(e: Estimate): Extended
  {
    Percent(Divide(e.upper - e.lower, e.forecast))
  }

  function Max(a: real, b: real): real
  {
    if a >= b then a else b
  }

  /**
   * The score for a relative width. On an infinity or "not a number" the
   * test `rel <= 10` and `max(0, 100 - (rel - 10))` behave as on doubles:
   * minus infinity passes the test; plus infinity gives max(0, -inf) = 0;
   * "not a number" fails the test and max(0, nan) keeps its first argument, 0.
   */
  function Score(rel: Extended): (c: real)
    ensures 0.0 <= c <= 100.0
    ensures rel.Finite? && rel.value <= Threshold ==> c == 100.0
    ensures rel.Finite? && rel.value > Threshold ==> c == Max(0.0, 100.0 - (rel.value - Threshold))
  {
    match rel
    case Finite(v) => if v <= Threshold then 100.0 else Max(0.0, 100.0 - (v - Threshold))
    case MinusInfinity => 100.0
    case PlusInfinity => 0.0
    case NotANumber => 0.0
  }

  /** The confidence percentage of one forecast row. */
  function ConfidenceOf(e: Estimate): (c: real)
    ensures 0.0 <= c <= 100.0
  {
    Score(RelativeWidth(e))
  }

  // ---------------------------------------------------------------------
  // Lemmas

  /** The relative width is a number exactly when the forecast is not zero, and then it is width / forecast * 100. */
  lemma RelativeWidthDefined(e: Estimate)
    ensures RelativeWidth(e).Finite? <==> e.forecast != 0.0
    ensures e.forecast != 0.0 ==>
      RelativeWidth(e).value * e.forecast == (e.upper - e.lower) * 100.0
  {
  }

  /** Full confidence up to and including the threshold. */
  lemma FullConfidenceUpToThreshold(rel: real)
    requires rel <= Threshold
    ensures Score(Finite(rel)) == 100.0
  {
  }

  /** Beyond the threshold, one point is lost per percentage point of relative width; none are left from 110 on. */
  lemma ScoreBeyondThreshold(rel: real)
    requires rel > Threshold
    ensures Score(Finite(rel)) == (if rel >= 110.0 then 0.0 else 110.0 - rel)
    ensures 0.0 <= Score(Finite(rel)) < 100.0
  {
  }

  /** A wider relative interval never gives a higher score. */
  lemma ScoreMonotone(a: real, b: real)
    requires a <= b
    ensures Score(Finite(b)) <= Score(Finite(a))
  {
  }

  /**
   * For a positive forecast, in terms of the interval itself: full
   * confidence exactly when the interval is at most a tenth of the
   * forecast wide, none exactly when it is at least 1.1 times the forecast,
   * and 110 - 100 * width / forecast in between.
   */
  lemma PositiveForecast(e: Estimate)
    requires e.forecast > 0.0
    ensures var w := e.upper - e.lower;
      && (ConfidenceOf(e) == 100.0 <==> w * 10.0 <= e.forecast)
      && (ConfidenceOf(e) == 0.0 <==> w * 10.0 >= e.forecast * 11.0)
      && (e.forecast < w * 10.0 < e.forecast * 11.0 ==>
            ConfidenceOf(e) * e.forecast == 110.0 * e.forecast - 100.0 * w)
  {
    var w := e.upper - e.lower;
    RelativeWidthDefined(e);
    var rel := RelativeWidth(e).value;
    assert rel * e.forecast == w * 100.0;
    RelativeVsWidth(rel, w, e.forecast);
  }

  lemma RelativeVsWidth(rel: real, w: real, f: real)
    requires f > 0.0 && rel * f == w * 100.0
    ensures rel <= 10.0 <==> w * 10.0 <= f
    ensures rel >= 110.0 <==> w * 10.0 >= f * 11.0
    ensures rel < 110.0 ==> (110.0 - rel) * f == 110.0 * f - 100.0 * w
  {
    if rel <= 10.0 {
      assert rel * f <= 10.0 * f;
    } else {
      assert rel * f > 10.0 * f;
    }
    if rel >= 110.0 {
      assert rel * f >= 110.0 * f;
    } else {
      assert rel * f < 110.0 * f;
    }
  }

  /** For a fixed positive forecast, a wider interval never gives a higher score. */
  lemma WiderIntervalLessConfidence(e1: Estimate, e2: Estimate)
    requires e1.forecast == e2.forecast > 0.0
    requires e1.upper - e1.lower <= e2.upper - e2.lower
    ensures ConfidenceOf(e2) <= ConfidenceOf(e1)
  {
    RelativeWidthDefined(e1);
    RelativeWidthDefined(e2);
    var f := e1.forecast;
    var r1, r2 := RelativeWidth(e1).value, RelativeWidth(e2).value;
    assert r1 == (e1.upper - e1.lower) * 100.0 / f;
    assert r2 == (e2.upper - e2.lower) * 100.0 / f;
    ScoreMonotone(r1, r2);
  }

  /**
   * A zero forecast raises nothing: a positive or zero width scores 0
   * (an infinite or undefined relative width), a negative width scores 100.
   */
  lemma ZeroForecast(e: Estimate)
    requires e.forecast == 0.0
    ensures ConfidenceOf(e) == if e.upper < e.lower then 100.0 else 0.0
  {
  }

  /**
   * A negative forecast with a proper (non-negative width) interval makes the
   * relative width non-positive, so it always passes the threshold test and
   * scores full confidence, however wide the interval.
   */
  lemma NegativeForecastFullConfidence(e: Estimate)
    requires e.forecast < 0.0 && e.lower <= e.upper
    ensures ConfidenceOf(e) == 100.0
  {
  }

  /** Worked cases: an interval 10% of the forecast wide scores 100, one 60% wide scores 50. */
  lemma ScoreExamples()
    ensures ConfidenceOf(Estimate(100.0, 95.0, 105.0)) == 100.0
    ensures ConfidenceOf(Estimate(100.0, 70.0, 130.0)) == 50.0
  {
  }
}
