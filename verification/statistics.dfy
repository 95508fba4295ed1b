// What a z-score says, in exact arithmetic: features/kernel.py.
module Statistics {
  import opened Collections
  import opened Domain
  import opened Kernel

  function Minus(mean: real): real -> real { (x: real) => x - mean }
  function Square(): real -> real { (x: real) => Sq(x) }

  function Deviations(values: seq<real>): seq<real>
    requires values != []
  {
    Map(Minus(Mean(values)), values)
  }

  // ----- sums -----

  lemma OneMore(n: nat, x: real)
    ensures (n + 1) as real * x == n as real * x + x
  {
  }

  lemma {:induction false} SumMinus(values: seq<real>, mean: real)
    ensures Sum(Map(Minus(mean), values)) == Sum(values) - |values| as real * mean
  {
    if values != [] {
      SumMinus(Front(values), mean);
      assert Front(Map(Minus(mean), values)) == Map(Minus(mean), Front(values));
      OneMore(|values| - 1, mean);
    }
  }

  lemma MeanTimes(values: seq<real>)
    requires values != []
    ensures |values| as real * Mean(values) == Sum(values)
  {
    var n := |values| as real;
    assert n * (Sum(values) / n) == Sum(values);
  }

  lemma DeviationsCancel(values: seq<real>)
    requires values != []
    ensures Sum(Deviations(values)) == 0.0
  {
    SumMinus(values, Mean(values));
    MeanTimes(values);
  }

  ghost predicate AllZero(values: seq<real>) {
    forall i :: 0 <= i < |values| ==> values[i] == 0.0
  }

  lemma {:induction false} SquaresNonnegative(values: seq<real>)
    ensures Sum(Map(Square(), values)) >= 0.0
    ensures Sum(Map(Square(), values)) == 0.0 <==> AllZero(values)
  {
    if values != [] {
      var front, last := Front(values), Last(values);
      SquaresNonnegative(front);
      assert Front(Map(Square(), values)) == Map(Square(), front);
      SquareNonnegative(last);
      assert AllZero(values) <==> AllZero(front) && last == 0.0 by {
        if AllZero(front) && last == 0.0 {
          forall i | 0 <= i < |values| ensures values[i] == 0.0 {
            assert i < |front| ==> front[i] == values[i];
          }
        }
        if AllZero(values) {
          forall i | 0 <= i < |front| ensures front[i] == 0.0 {
            assert front[i] == values[i];
          }
        }
      }
    }
  }

  lemma SameSigns(x: real, y: real)
    requires (x > 0.0 && y > 0.0) || (x < 0.0 && y < 0.0)
    ensures Product(x, y) > 0.0
  {
  }

  lemma SquareNonnegative(x: real)
    ensures Sq(x) >= 0.0
    ensures Sq(x) == 0.0 <==> x == 0.0
  {
    if x != 0.0 {
      SameSigns(x, x);
    }
  }

  // One step of the inequality between the square of a sum and the sum of squares.
  lemma CauchyStep(k: real, s: real, q: real, d: real)
    requires k >= 0.0 && q >= 0.0 && Sq(s) <= k * q && (k > 0.0 || s == 0.0)
    ensures Sq(s + d) <= (k + 1.0) * (q + Sq(d))
  {
    var t := k * (d * d) + q - 2.0 * (s * d);
    assert (k + 1.0) * (q + d * d) - (s + d) * (s + d) == (k * q - s * s) + t;
    if k > 0.0 {
      var r := k * d - s;
      SquareNonnegative(r);
      assert r * r == k * k * (d * d) - 2.0 * k * (s * d) + s * s;
      assert k * t == k * k * (d * d) + k * q - 2.0 * k * (s * d);
      NonnegativeFactor(k, t);
    } else {
      SquareNonnegative(d);
    }
  }

  lemma NonnegativeFactor(k: real, t: real)
    requires k > 0.0 && k * t >= 0.0
    ensures t >= 0.0
  {
    if t < 0.0 {
      ProductPositive(k, -t);
    }
  }

  lemma {:induction false} Cauchy(values: seq<real>)
    ensures CauchyHolds(|values| as real, Sum(values), Sum(Map(Square(), values)))
  {
    if values != [] {
      var front, d := Front(values), Last(values);
      Cauchy(front);
      SquaresNonnegative(front);
      assert Front(Map(Square(), values)) == Map(Square(), front);
      CauchyNext(|front| as real, Sum(front), Sum(Map(Square(), front)), d);
      assert |values| as real == |front| as real + 1.0;
    }
  }

  predicate CauchyHolds(k: real, s: real, q: real) {
    Sq(s) <= k * q && (k == 0.0 ==> s == 0.0)
  }

  lemma CauchyNext(k: real, s: real, q: real, d: real)
    requires k >= 0.0 && q >= 0.0 && CauchyHolds(k, s, q)
    ensures CauchyHolds(k + 1.0, s + d, q + Sq(d))
  {
    CauchyStep(k, s, q, d);
  }

  // ----- variance -----

  lemma VarianceSquares(values: seq<real>)
    requires values != []
    ensures |values| as real * Variance(values) == Sum(Map(Square(), Deviations(values)))
  {
    var squared := Map(SquaredDeviation(Mean(values)), values);
    var squares := Map(Square(), Deviations(values));
    forall i | 0 <= i < |values| ensures squared[i] == squares[i] {
      assert Deviations(values)[i] == values[i] - Mean(values);
    }
    assert squared == squares;
    var n := |values| as real;
    assert n * (Sum(squared) / n) == Sum(squared);
  }

  // The variance is never negative, and vanishes exactly when all values are equal.
  lemma VarianceVanishes(values: seq<real>)
    requires values != []
    ensures Variance(values) >= 0.0
    ensures Variance(values) == 0.0 <==> forall x, y :: x in values && y in values ==> x == y
  {
    var deviations, n := Deviations(values), |values| as real;
    VarianceSquares(values);
    SquaresNonnegative(deviations);
    NonnegativeFactor(n, Variance(values));
    if Variance(values) == 0.0 {
      forall x | x in values ensures x == Mean(values) {
        var i :| 0 <= i < |values| && values[i] == x;
        assert deviations[i] == 0.0;
      }
    }
    if forall x, y :: x in values && y in values ==> x == y {
      AllEqualMean(values);
      forall i | 0 <= i < |deviations| ensures deviations[i] == 0.0 {
        assert values[i] in values;
      }
      assert AllZero(deviations);
      NonnegativeZero(n, Variance(values));
    }
  }

  lemma NonnegativeZero(n: real, v: real)
    requires n > 0.0 && n * v == 0.0
    ensures v == 0.0
  {
  }

  lemma {:induction false} SumZero(values: seq<real>)
    requires AllZero(values)
    ensures Sum(values) == 0.0
  {
    if values != [] {
      SumZero(Front(values));
    }
  }

  lemma AllEqualMean(values: seq<real>)
    requires values != [] && forall x, y :: x in values && y in values ==> x == y
    ensures forall x :: x in values ==> x == Mean(values)
  {
    var c := values[0];
    assert values[0] in values;
    forall i | 0 <= i < |values| ensures Map(Minus(c), values)[i] == 0.0 {
      assert values[i] in values;
    }
    SumMinus(values, c);
    SumZero(Map(Minus(c), values));
    MeanTimes(values);
    EqualFactors(|values| as real, c, Mean(values));
  }

  lemma EqualFactors(n: real, a: real, b: real)
    requires n > 0.0 && n * a == n * b
    ensures a == b
  {
    NonnegativeZero(n, a - b);
  }

  // ----- the last value -----

  predicate Within(d: real, k: real, v: real) { Sq(d) <= k * v }

  // No value can lie further from the mean than the others allow.
  lemma LastDeviationBounded(values: seq<real>)
    requires values != []
    ensures Within(Last(values) - Mean(values), (|values| - 1) as real, Variance(values))
  {
    var deviations := Deviations(values);
    var d, q := Last(deviations), Sum(Map(Square(), Front(deviations)));
    RestOfDeviations(values);
    SquaresSplit(values);
    BoundFromRest((|values| - 1) as real, q, d, Variance(values));
  }

  predicate Splits(k: real, v: real, q: real, d: real) { (k + 1.0) * v == q + Sq(d) }

  lemma SquaresSplit(values: seq<real>)
    requires values != []
    ensures var deviations := Deviations(values);
            var d, q := Last(deviations), Sum(Map(Square(), Front(deviations)));
            Splits((|values| - 1) as real, Variance(values), q, d)
  {
    VarianceSquares(values);
    assert Front(Map(Square(), Deviations(values))) == Map(Square(), Front(Deviations(values)));
    assert (|values| - 1) as real + 1.0 == |values| as real;
  }

  // The other deviations sum to its opposite.
  lemma RestOfDeviations(values: seq<real>)
    requires values != []
    ensures var deviations := Deviations(values);
            var d, q := Last(deviations), Sum(Map(Square(), Front(deviations)));
            Within(d, (|values| - 1) as real, q) && d == Last(values) - Mean(values)
  {
    var deviations := Deviations(values);
    DeviationsCancel(values);
    Cauchy(Front(deviations));
    var s := Sum(Front(deviations));
    assert s == -Last(deviations);
    assert Sq(s) == Sq(Last(deviations));
  }

  lemma BoundFromRest(k: real, q: real, d: real, v: real)
    requires k >= 0.0 && Within(d, k, q) && Splits(k, v, q, d)
    ensures Within(d, k, v)
  {
    var p := Sq(d);
    assert (k + 1.0) * (k * v) == k * (q + p);
    assert (k + 1.0) * (k * v - p) == k * q - p;
    NonnegativeFactor(k + 1.0, k * v - p);
  }

  // ----- snapshots -----

  // A snapshot is of its last bar's instrument and observation; without a full window it is warming
  // up for lack of history, and a full window is ready with a value or unavailable for want of
  // variance.
  lemma SnapshotExactly(inputs: seq<Bar>, window: nat, dataset: string)
    requires inputs != []
    ensures var f := Snapshot(inputs, window, dataset);
            && f.instrument == Last(inputs).instrument && f.observed == Last(inputs).observed
            && (forall b :: b in inputs ==> b.available <= f.available)
            && (exists b :: b in inputs && b.available == f.available)
            && f.name == ZScore && f.version == "shadow.features.v1" && f.window == window && f.dataset == dataset
            && (f.state == WarmingUp <==> |inputs| < window)
            && (f.state == Ready <==> f.value.Some?)
            && f.reason == (if f.state == WarmingUp then Some(InsufficientHistory)
                            else if f.state == Unavailable then Some(ZeroVariance) else None)
  {
  }

  // A ready score has the sign of the last close's deviation from the mean, and its square times
  // the variance is the square of that deviation.
  lemma ReadyScore(inputs: seq<Bar>, window: nat, dataset: string)
    requires inputs != [] && Snapshot(inputs, window, dataset).state == Ready
    ensures var f, closes := Snapshot(inputs, window, dataset), Closes(inputs);
            var deviation := Last(closes) - Mean(closes);
            && |inputs| >= window && f.value.Some? && Variance(closes) > 0.0
            && f.value.value.square * Variance(closes) == deviation * deviation
            && (f.value.value.negative <==> Last(closes) < Mean(closes))
  {
    var closes := Closes(inputs);
    VarianceVanishes(closes);
    ScoreOf(closes);
    QuotientTimes(Sq(Last(closes) - Mean(closes)), Variance(closes));
  }

  lemma QuotientTimes(p: real, v: real)
    requires v != 0.0
    ensures p / v * v == p
  {
  }

  // The score is the deviation over the standard deviation.
  lemma ScoreQuotient(z: SignedRoot, deviation: real, variance: real, root: real)
    requires variance > 0.0 && root >= 0.0 && root * root == variance
    requires z.square * variance == deviation * deviation && (z.negative <==> deviation < 0.0)
    ensures root > 0.0 && z.Valid()
    ensures var score := deviation / root;
            var size := if z.negative then -score else score;
            size >= 0.0 && size * size == z.square
  {
    var score := deviation / root;
    assert root > 0.0;
    assert score * root == deviation;
    SquareOfQuotient(score, root, deviation, variance, z.square);
    SignOfQuotient(score, root, deviation);
    SquareNonnegative(score);
    assert Sq(score) == score * score;
  }

  lemma SquareOfQuotient(score: real, root: real, deviation: real, variance: real, square: real)
    requires root > 0.0 && variance > 0.0 && root * root == variance && score * root == deviation
    requires square * variance == deviation * deviation
    ensures score * score == square
  {
    assert deviation * deviation == (score * score) * (root * root);
    assert variance * (score * score - square) == variance * (score * score) - square * variance;
    NonnegativeZero(variance, score * score - square);
  }

  lemma SignOfQuotient(score: real, root: real, deviation: real)
    requires root > 0.0 && score * root == deviation
    ensures score < 0.0 <==> deviation < 0.0
  {
    if score > 0.0 {
      ProductPositive(score, root);
    } else if score < 0.0 {
      ProductPositive(-score, root);
      assert (-score) * root == -deviation;
    }
  }

  // Comparing the score with a bound is comparing the deviation with that many standard deviations.
  lemma DeviationBound(deviation: real, root: real, bound: real)
    requires root > 0.0
    ensures deviation / root <= bound <==> deviation <= bound * root
    ensures deviation / root >= bound <==> deviation >= bound * root
  {
    var score := deviation / root;
    assert score * root == deviation;
    assert (bound - score) * root == bound * root - deviation;
    SignOfQuotient(bound - score, root, bound * root - deviation);
    assert (score - bound) * root == deviation - bound * root;
    SignOfQuotient(score - bound, root, deviation - bound * root);
  }

  // A full window is unavailable exactly when all its closes are equal; otherwise its squared
  // z-score is at most the window less one.
  lemma FullWindowScores(inputs: seq<Bar>, window: nat, dataset: string)
    requires inputs != [] && |inputs| == window
    ensures var f := Snapshot(inputs, window, dataset);
            && (f.state == Unavailable <==> forall a, b :: a in inputs && b in inputs ==> a.close == b.close)
            && (f.state == Ready <==> f.state != Unavailable)
            && (f.state == Ready ==> f.value.Some? && Scored(f.value.value, window))
  {
    VarianceVanishes(Closes(inputs));
    SameCloses(inputs);
    ScoreBounded(Closes(inputs));
  }

  predicate Scored(z: SignedRoot, window: nat) {
    z.Valid() && z.square <= (window - 1) as real
  }

  lemma ScoreBounded(closes: seq<real>)
    requires closes != []
    ensures ZValue(closes).Some? ==> Scored(ZValue(closes).value, |closes|)
  {
    VarianceVanishes(closes);
    LastDeviationBounded(closes);
    ScoreOf(closes);
    if Variance(closes) != 0.0 {
      ScoredFrom(Last(closes) - Mean(closes), Variance(closes), |closes|);
    }
  }

  lemma ScoreOf(closes: seq<real>)
    requires closes != []
    ensures var d, v := Last(closes) - Mean(closes), Variance(closes);
            ZValue(closes) == if v == 0.0 then None else Some(SignedRoot(d < 0.0, Sq(d) / v))
  {
  }

  lemma ScoredFrom(d: real, v: real, window: nat)
    requires v > 0.0 && Within(d, (window - 1) as real, v)
    ensures Scored(SignedRoot(d < 0.0, Sq(d) / v), window)
  {
    SquareNonnegative(d);
    QuotientBounded(Sq(d), (window - 1) as real, v);
  }

  lemma SameCloses(inputs: seq<Bar>)
    ensures (forall x, y :: x in Closes(inputs) && y in Closes(inputs) ==> x == y)
       <==> forall a, b :: a in inputs && b in inputs ==> a.close == b.close
  {
    var closes := Closes(inputs);
    forall b | b in inputs ensures b.close in closes {
      var i :| 0 <= i < |inputs| && inputs[i] == b;
      assert closes[i] == b.close;
    }
    forall x | x in closes ensures exists b :: b in inputs && b.close == x {
      var i :| 0 <= i < |closes| && closes[i] == x;
      assert inputs[i] in inputs;
    }
  }

  lemma QuotientBounded(p: real, k: real, v: real)
    requires v > 0.0 && 0.0 <= p <= k * v
    ensures 0.0 <= p / v <= k
    ensures p > 0.0 ==> p / v > 0.0
  {
    var s := p / v;
    assert v * s == p;
    NonnegativeFactor(v, s);
    assert v * (k - s) == k * v - p;
    NonnegativeFactor(v, k - s);
    if s == 0.0 {
      assert v * s == 0.0;
    }
  }

  // A standard deviation, given the variance.
  predicate RootOf(root: real, variance: real) { root >= 0.0 && root * root == variance }

  // The score against a bound is the deviation against that many standard deviations.
  lemma ScorePast(z: SignedRoot, deviation: real, variance: real, root: real, bound: real)
    requires variance > 0.0 && RootOf(root, variance)
    requires z.square * variance == deviation * deviation && (z.negative <==> deviation < 0.0)
    ensures z.AtMost(bound) <==> deviation <= bound * root
    ensures z.AtLeast(bound) <==> deviation >= bound * root
  {
    ScoreQuotient(z, deviation, variance, root);
    var score := deviation / root;
    RootComparisons(z, if z.negative then -score else score, bound);
    DeviationBound(deviation, root, bound);
  }

  function TotalClose(bars: seq<Bar>): real {
    if bars == [] then 0.0 else TotalClose(Front(bars)) + Last(bars).close
  }

  // The sum of the squared distances of the closes from a level.
  function TotalSpread(level: real, bars: seq<Bar>): real {
    if bars == [] then 0.0
    else TotalSpread(level, Front(bars)) + Sq(Last(bars).close - level)
  }

  lemma {:induction false} SumOfCloses(bars: seq<Bar>)
    ensures Sum(Closes(bars)) == TotalClose(bars)
  {
    if bars != [] {
      SumOfCloses(Front(bars));
      assert Front(Closes(bars)) == Closes(Front(bars));
    }
  }

  lemma {:induction false} SumOfSpreads(level: real, bars: seq<Bar>)
    ensures Sum(Map(SquaredDeviation(level), Closes(bars))) == TotalSpread(level, bars)
  {
    if bars != [] {
      var squared := Map(SquaredDeviation(level), Closes(bars));
      SumOfSpreads(level, Front(bars));
      assert Front(squared) == Map(SquaredDeviation(level), Closes(Front(bars)));
      assert Last(squared) == SquaredDeviation(level)(Last(bars).close);
    }
  }

  lemma VarianceTimes(values: seq<real>)
    requires values != []
    ensures Product(|values| as real, Variance(values)) == Sum(Map(SquaredDeviation(Mean(values)), values))
  {
    var n, total := |values| as real, Sum(Map(SquaredDeviation(Mean(values)), values));
    assert n * (total / n) == total;
  }

  lemma MeanProduct(values: seq<real>)
    requires values != []
    ensures Product(|values| as real, Mean(values)) == Sum(values)
  {
    MeanTimes(values);
  }

  // The mean is that of the closes, and the variance the mean squared distance from it.
  lemma MeanExactly(bars: seq<Bar>)
    requires bars != []
    ensures Product(|bars| as real, Mean(Closes(bars))) == TotalClose(bars)
  {
    MeanProduct(Closes(bars));
    SumOfCloses(bars);
  }

  lemma VarianceExactly(bars: seq<Bar>)
    requires bars != []
    ensures Product(|bars| as real, Variance(Closes(bars))) == TotalSpread(Mean(Closes(bars)), bars)
  {
    VarianceTimes(Closes(bars));
    SumOfSpreads(Mean(Closes(bars)), bars);
  }
}
