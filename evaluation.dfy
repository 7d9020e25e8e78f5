/**
 * `Classifier.new_evaluation_score` (model.py:134-155): for every test record, the
 * position of the true class in the ascending order of its predicted probabilities is
 * looked up in a weight table; the score is the mean weight. The probability matrix
 * (`predict_proba` of the fitted ensemble) and `y_test` are inputs; column `c` of a row
 * is the probability of label id `c`.
 */
module Evaluation {
  import opened Wrappers
  import opened Ranking

  /** The exceptions the Python loop can raise, and the configuration error of the checked score. */
  datatype ScoreError =
    | TargetIndexOutOfRange(record: nat)                          // target[i] past the end of y_test
    | TargetNotRanked(record: nat, target: nat)                   // np.where(...)[0] is empty
    | WeightIndexOutOfRange(record: nat, position: nat, tableLength: nat) // score_weights[p]
    | EmptyTestSet                                                // division by target.shape[0] == 0
    | ClassCountMismatch(record: nat, classes: nat, tableLength: nat)

  /** `x / d` lies in [0, 1] when `x` lies in [0, d]. */
  lemma QuotientInUnitInterval(x: real, d: real)
    requires 0.0 <= x <= d && d > 0.0
    ensures 0.0 <= x / d <= 1.0
  {
    assert (x / d) * d == x;
  }

  lemma QuotientOfSelf(d: real)
    requires d > 0.0
    ensures d / d == 1.0
  {
  }

  lemma QuotientMonotone(x: real, y: real, d: real)
    requires x < y && d > 0.0
    ensures x / d < y / d
  {
    assert (x / d) * d == x && (y / d) * d == y;
  }

  /** `np.linspace(0, 1, k)`: `k` evenly spaced weights from 0 to 1. */
  function LinearWeights(k: nat): (w: seq<real>)
    requires k >= 2
    ensures |w| == k
  {
    seq(k, i requires 0 <= i < k => i as real / (k - 1) as real)
  }

  /** The linearly spaced table runs from 0 to 1, strictly increasing. */
  lemma LinearWeightsShape(k: nat)
    requires k >= 2
    ensures var w := LinearWeights(k);
      && w[0] == 0.0 && w[k - 1] == 1.0
      && (forall i :: 0 <= i < k ==> 0.0 <= w[i] <= 1.0)
      && (forall i, j :: 0 <= i < j < k ==> w[i] < w[j])
  {
    var w := LinearWeights(k);
    var d := (k - 1) as real;
    assert w[k - 1] == d / d;
    QuotientOfSelf(d);
    forall i | 0 <= i < k ensures 0.0 <= w[i] <= 1.0 {
      QuotientInUnitInterval(i as real, d);
    }
    forall i, j | 0 <= i < j < k ensures w[i] < w[j] {
      QuotientMonotone(i as real, j as real, d);
    }
  }

  /** The default table `np.linspace(0, 10, 10) / 10` (model.py:134). */
  function DefaultWeights(): (w: seq<real>)
    ensures w == LinearWeights(10)
  {
    seq(10, i requires 0 <= i < 10 => (0.0 + i as real * (10.0 - 0.0) / 9.0) / 10.0)
  }

  ghost predicate WeightsInUnitInterval(weights: seq<real>)
  {
    forall i :: 0 <= i < |weights| ==> 0.0 <= weights[i] <= 1.0
  }

  /** Lines 151-153 for record `i`: the weight of the true class's ascending position. */
  function RecordWeight(row: seq<real>, t: nat, weights: seq<real>, i: nat): (r: Result<real, ScoreError>)
  {
    match Position(Argsort(row), t)
    case None => Err(TargetNotRanked(i, t))
    case Some(p) => if p < |weights| then Ok(weights[p]) else Err(WeightIndexOutOfRange(i, p, |weights|))
  }

  /**
   * Whatever the probabilities, a record raises the lookup error exactly when its true class
   * is not a class of the row, earns one of the table's weights otherwise, or raises because
   * the class's position is past the end of the table.
   */
  lemma RecordWeightOutcomes(row: seq<real>, t: nat, weights: seq<real>, i: nat)
    ensures RecordWeight(row, t, weights, i) == Err(TargetNotRanked(i, t)) <==> t >= |row|
    ensures RecordWeight(row, t, weights, i).Ok? ==> RecordWeight(row, t, weights, i).value in weights
    ensures RecordWeight(row, t, weights, i).Err? && t < |row| ==>
      RecordWeight(row, t, weights, i).error.WeightIndexOutOfRange? &&
      RecordWeight(row, t, weights, i).error.position >= |weights|
  {
    var o := Argsort(row);
    assert t in o <==> t < |row|;
  }

  /**
   * The weight of one record does not depend on how ties are broken: for rows of distinct
   * probabilities it is read off ANY valid ascending order `o`. A true class outside the row
   * raises; otherwise the record earns the weight at the class's position in `o`, or raises
   * when that position is past the end of the table.
   */
  lemma RecordWeightMeaning(row: seq<real>, t: nat, weights: seq<real>, i: nat, o: seq<nat>)
    requires IsAscendingOrder(row, o) && Distinct(row)
    ensures t >= |row| ==> RecordWeight(row, t, weights, i) == Err(TargetNotRanked(i, t))
    ensures t < |row| ==> Position(o, t).Some?
    ensures t < |row| ==>
      (RecordWeight(row, t, weights, i).Ok? <==> Position(o, t).value < |weights|)
    ensures t < |row| && Position(o, t).value < |weights| ==>
      RecordWeight(row, t, weights, i) == Ok(weights[Position(o, t).value])
    ensures t < |row| && Position(o, t).value >= |weights| ==>
      RecordWeight(row, t, weights, i) == Err(WeightIndexOutOfRange(i, Position(o, t).value, |weights|))
  {
    ArgsortIsAscending(row);
    AscendingOrderUnique(row, Argsort(row), o);
    PositionOfClass(row, o, t);
  }

  /** The accumulator `new_score` after the first `n` iterations, or the first exception raised. */
  function WeightSum(probs: seq<seq<real>>, target: seq<nat>, weights: seq<real>, n: nat): (r: Result<real, ScoreError>)
    requires n <= |probs|
  {
    if n == 0 then Ok(0.0)
    else match WeightSum(probs, target, weights, n - 1)
      case Err(e) => Err(e)
      case Ok(s) =>
        if n - 1 >= |target| then Err(TargetIndexOutOfRange(n - 1))
        else match RecordWeight(probs[n - 1], target[n - 1], weights, n - 1)
          case Err(e) => Err(e)
          case Ok(w) => Ok(s + w)
  }

  /** What `new_evaluation_score` returns or raises. */
  function EvaluationScore(probs: seq<seq<real>>, target: seq<nat>, weights: seq<real>): (r: Result<real, ScoreError>)
  {
    match WeightSum(probs, target, weights, |probs|)
    case Err(e) => Err(e)
    case Ok(s) => if |target| == 0 then Err(EmptyTestSet) else Ok(s / |target| as real)
  }

  /**
   * The loop only ever raises at a record it has reached, never the division error or the
   * configuration error; and it completes `n` iterations only if `y_test` has `n` labels.
   */
  lemma {:induction false} WeightSumOutcomes(probs: seq<seq<real>>, target: seq<nat>, weights: seq<real>, n: nat)
    requires n <= |probs|
    ensures WeightSum(probs, target, weights, n).Ok? ==> n <= |target|
    ensures WeightSum(probs, target, weights, n).Err? ==>
      var e := WeightSum(probs, target, weights, n).error;
      !e.EmptyTestSet? && !e.ClassCountMismatch? && e.record < n
  {
    if n > 0 {
      WeightSumOutcomes(probs, target, weights, n - 1);
    }
  }

  /**
   * A score needs a label for every record and a non-empty `y_test`; the division error is
   * raised exactly when there are neither records nor labels, and the unchecked score never
   * reports a configuration error.
   */
  lemma EvaluationScoreOutcomes(probs: seq<seq<real>>, target: seq<nat>, weights: seq<real>)
    ensures EvaluationScore(probs, target, weights).Ok? ==> |probs| <= |target| && |target| > 0
    ensures EvaluationScore(probs, target, weights) == Err(EmptyTestSet) <==> |probs| == 0 == |target|
    ensures EvaluationScore(probs, target, weights).Err? ==>
      !EvaluationScore(probs, target, weights).error.ClassCountMismatch?
  {
    WeightSumOutcomes(probs, target, weights, |probs|);
  }

  /**
   * One iteration of model.py:149-153: rank the classes of record `i`, find its true class
   * `t` in that order and look the position up in the weight table.
   */
  method WeighRecord(row: seq<real>, t: nat, weights: seq<real>, i: nat) returns (r: Result<real, ScoreError>)
    ensures r == RecordWeight(row, t, weights, i)
  {
    var currentPrediction := Argsort(row);
    var position := Position(currentPrediction, t);
    if position.None? {
      return Err(TargetNotRanked(i, t));
    }
    if position.value >= |weights| {
      return Err(WeightIndexOutOfRange(i, position.value, |weights|));
    }
    r := Ok(weights[position.value]);
  }

  /** Record `i` earning weight `w` adds `w` to the sum of the records before it. */
  lemma WeightSumStep(probs: seq<seq<real>>, target: seq<nat>, weights: seq<real>, i: nat, s: real, w: real)
    requires i < |probs| && i < |target|
    requires WeightSum(probs, target, weights, i) == Ok(s)
    requires RecordWeight(probs[i], target[i], weights, i) == Ok(w)
    ensures WeightSum(probs, target, weights, i + 1) == Ok(s + w)
  {
  }

  /** Once an iteration has raised, later iterations are never reached. */
  lemma {:induction false} WeightSumErrorPersists(probs: seq<seq<real>>, target: seq<nat>, weights: seq<real>, m: nat, n: nat)
    requires m <= n <= |probs|
    requires WeightSum(probs, target, weights, m).Err?
    ensures WeightSum(probs, target, weights, n) == WeightSum(probs, target, weights, m)
  {
    if m < n {
      WeightSumErrorPersists(probs, target, weights, m, n - 1);
    }
  }

  /** The loop of model.py:148-154, stopping at the first exception. */
  method NewEvaluationScore(probs: seq<seq<real>>, target: seq<nat>, weights: seq<real>)
    returns (r: Result<real, ScoreError>)
    ensures r == EvaluationScore(probs, target, weights)
  {
    var newScore := 0.0;
    var i := 0;
    while i < |probs|
      invariant i <= |probs|
      invariant WeightSum(probs, target, weights, i) == Ok(newScore)
    {
      var step := AddRecord(probs, target, weights, i, newScore);
      if step.Err? {
        return Err(step.error);
      }
      newScore := step.value;
      i := i + 1;
    }
    if |target| == 0 {
      r := Err(EmptyTestSet);
    } else {
      r := Ok(newScore / |target| as real);
    }
  }

  /**
   * One iteration of the loop (model.py:149-153): either record `i`'s weight is added to
   * `new_score`, or the exception it raises is the outcome of the whole call.
   */
  method AddRecord(probs: seq<seq<real>>, target: seq<nat>, weights: seq<real>, i: nat, newScore: real)
    returns (step: Result<real, ScoreError>)
    requires i < |probs|
    requires WeightSum(probs, target, weights, i) == Ok(newScore)
    ensures step.Ok? ==> WeightSum(probs, target, weights, i + 1) == Ok(step.value)
    ensures step.Err? ==> EvaluationScore(probs, target, weights) == Err(step.error)
  {
    if i >= |target| {
      ScoreAfterMissingTarget(probs, target, weights, i, newScore);
      return Err(TargetIndexOutOfRange(i));
    }
    var weight := WeighRecord(probs[i], target[i], weights, i);
    if weight.Err? {
      ScoreAfterRecordError(probs, target, weights, i, newScore, weight.error);
      return Err(weight.error);
    }
    WeightSumStep(probs, target, weights, i, newScore, weight.value);
    step := Ok(newScore + weight.value);
  }

  /** Record `i` has no true label: the call raises there, whatever comes after. */
  lemma ScoreAfterMissingTarget(probs: seq<seq<real>>, target: seq<nat>, weights: seq<real>, i: nat, s: real)
    requires |target| <= i < |probs|
    requires WeightSum(probs, target, weights, i) == Ok(s)
    ensures EvaluationScore(probs, target, weights) == Err(TargetIndexOutOfRange(i))
  {
    assert WeightSum(probs, target, weights, i + 1) == Err(TargetIndexOutOfRange(i));
    WeightSumErrorPersists(probs, target, weights, i + 1, |probs|);
  }

  /** Record `i` raises while being weighted: that error is the outcome of the whole call. */
  lemma ScoreAfterRecordError(probs: seq<seq<real>>, target: seq<nat>, weights: seq<real>, i: nat, s: real, e: ScoreError)
    requires i < |probs| && i < |target|
    requires WeightSum(probs, target, weights, i) == Ok(s)
    requires RecordWeight(probs[i], target[i], weights, i) == Err(e)
    ensures EvaluationScore(probs, target, weights) == Err(e)
  {
    WeightSumStepError(probs, target, weights, i, s, e);
    WeightSumErrorPersists(probs, target, weights, i + 1, |probs|);
  }

  /** Record `i` raising ends the loop with that error. */
  lemma WeightSumStepError(probs: seq<seq<real>>, target: seq<nat>, weights: seq<real>, i: nat, s: real, e: ScoreError)
    requires i < |probs| && i < |target|
    requires WeightSum(probs, target, weights, i) == Ok(s)
    requires RecordWeight(probs[i], target[i], weights, i) == Err(e)
    ensures WeightSum(probs, target, weights, i + 1) == Err(e)
  {
  }

  /** Each completed iteration adds a weight from [0, 1], and only records with a target are reached. */
  lemma {:induction false} WeightSumBounds(probs: seq<seq<real>>, target: seq<nat>, weights: seq<real>, n: nat)
    requires n <= |probs|
    requires WeightsInUnitInterval(weights)
    requires WeightSum(probs, target, weights, n).Ok?
    ensures n <= |target|
    ensures 0.0 <= WeightSum(probs, target, weights, n).value <= n as real
  {
    if n > 0 {
      WeightSumBounds(probs, target, weights, n - 1);
    }
  }

  /**
   * The score is defined only for a non-empty test set, and when every weight lies in
   * [0, 1] it lies in [0, 1] (model.py:136-139).
   */
  lemma ScoreInUnitInterval(probs: seq<seq<real>>, target: seq<nat>, weights: seq<real>)
    requires WeightsInUnitInterval(weights)
    requires EvaluationScore(probs, target, weights).Ok?
    ensures |target| > 0
    ensures 0.0 <= EvaluationScore(probs, target, weights).value <= 1.0
  {
    WeightSumBounds(probs, target, weights, |probs|);
    var s := WeightSum(probs, target, weights, |probs|).value;
    QuotientInUnitInterval(s, |target| as real);
  }

  ghost predicate Reachable(probs: seq<seq<real>>, target: seq<nat>, weights: seq<real>)
  {
    && |probs| == |target|
    && forall i :: 0 <= i < |probs| ==> target[i] < |probs[i]| <= |weights|
  }

  /**
   * With one target per record, every target a class of its row and no row having more
   * classes than the table has weights, no iteration raises.
   */
  lemma {:induction false} WeightSumDefined(probs: seq<seq<real>>, target: seq<nat>, weights: seq<real>, n: nat)
    requires n <= |probs|
    requires Reachable(probs, target, weights)
    ensures WeightSum(probs, target, weights, n).Ok?
  {
    if n > 0 {
      WeightSumDefined(probs, target, weights, n - 1);
      var row := probs[n - 1];
      ArgsortIsAscending(row);
      PositionOfClass(row, Argsort(row), target[n - 1]);
    }
  }

  lemma MeanOfUniform(m: real, w: real)
    requires m > 0.0
    ensures m * w / m == w
  {
  }

  /** `w` added to itself `n` times. */
  function Repeated(w: real, n: nat): (r: real)
  {
    if n == 0 then 0.0 else Repeated(w, n - 1) + w
  }

  /** Adding `w` to itself `n` times gives `n * w`. */
  lemma {:induction false} RepeatedIsProduct(w: real, n: nat)
    ensures Repeated(w, n) == n as real * w
  {
    if n > 0 {
      RepeatedIsProduct(w, n - 1);
      assert n as real * w == (n - 1) as real * w + w;
    }
  }

  /** Every record of the test set earns the same weight `w`. */
  ghost predicate EveryRecordEarns(probs: seq<seq<real>>, target: seq<nat>, weights: seq<real>, w: real)
    requires |probs| <= |target|
  {
    forall i :: 0 <= i < |probs| ==> RecordWeight(probs[i], target[i], weights, i) == Ok(w)
  }

  /** If every record earns the same weight `w`, the sum after `n` records is `n * w`. */
  lemma {:induction false} WeightSumUniform(probs: seq<seq<real>>, target: seq<nat>, weights: seq<real>, w: real, n: nat)
    requires n <= |probs| <= |target|
    requires EveryRecordEarns(probs, target, weights, w)
    ensures WeightSum(probs, target, weights, n) == Ok(Repeated(w, n))
  {
    if n > 0 {
      var k := n - 1;
      var s := Repeated(w, k);
      WeightSumUniform(probs, target, weights, w, k);
      assert RecordWeight(probs[k], target[k], weights, k) == Ok(w);
      WeightSumStep(probs, target, weights, k, s, w);
      assert Repeated(w, k + 1) == s + w;
    }
  }

  /** When every record earns the same weight `w`, the mean is `w`. */
  lemma ScoreOfUniform(probs: seq<seq<real>>, target: seq<nat>, weights: seq<real>, w: real)
    requires |probs| == |target| > 0
    requires EveryRecordEarns(probs, target, weights, w)
    ensures EvaluationScore(probs, target, weights) == Ok(w)
  {
    var n := |probs|;
    WeightSumUniform(probs, target, weights, w, n);
    RepeatedIsProduct(w, n);
    MeanOfUniform(n as real, w);
    assert Repeated(w, n) / n as real == w;
    assert EvaluationScore(probs, target, weights) == Ok(Repeated(w, n) / |target| as real);
  }

  ghost predicate TrueClassesTop(probs: seq<seq<real>>, target: seq<nat>)
    requires |probs| == |target|
  {
    forall i :: 0 <= i < |probs| ==>
      (target[i] < |probs[i]| &&
       forall c :: 0 <= c < |probs[i]| && c != target[i] ==> probs[i][c] < probs[i][target[i]])
  }

  ghost predicate TrueClassesBottom(probs: seq<seq<real>>, target: seq<nat>)
    requires |probs| == |target|
  {
    forall i :: 0 <= i < |probs| ==>
      (target[i] < |probs[i]| &&
       forall c :: 0 <= c < |probs[i]| && c != target[i] ==> probs[i][target[i]] < probs[i][c])
  }

  /** A record whose true class is strictly the most probable earns the last weight of its row. */
  lemma TopRecordWeight(row: seq<real>, t: nat, weights: seq<real>, i: nat)
    requires t < |row| == |weights|
    requires forall c :: 0 <= c < |row| && c != t ==> row[c] < row[t]
    ensures RecordWeight(row, t, weights, i) == Ok(weights[|weights| - 1])
  {
    ArgsortIsAscending(row);
    TopClassIsLast(row, Argsort(row), t);
  }

  /**
   * A record whose true class is strictly the least probable earns the first weight, for
   * any non-empty table: the lookup at position 0 cannot overrun it, however many classes.
   */
  lemma BottomRecordWeight(row: seq<real>, t: nat, weights: seq<real>, i: nat)
    requires t < |row| && |weights| > 0
    requires forall c :: 0 <= c < |row| && c != t ==> row[t] < row[c]
    ensures RecordWeight(row, t, weights, i) == Ok(weights[0])
  {
    ArgsortIsAscending(row);
    BottomClassIsFirst(row, Argsort(row), t);
  }

  /**
   * When every true class is strictly the most probable and every row has one class per
   * weight, the score is the last weight: 1 for a table running from 0 to 1 (model.py:137-139).
   */
  lemma ScoreWhenTrueClassesTop(probs: seq<seq<real>>, target: seq<nat>, weights: seq<real>)
    requires |probs| == |target| > 0 && |weights| > 0
    requires forall i :: 0 <= i < |probs| ==> |probs[i]| == |weights|
    requires TrueClassesTop(probs, target)
    ensures EvaluationScore(probs, target, weights) == Ok(weights[|weights| - 1])
  {
    var w := weights[|weights| - 1];
    forall i | 0 <= i < |probs| ensures RecordWeight(probs[i], target[i], weights, i) == Ok(w) {
      TopRecordWeight(probs[i], target[i], weights, i);
    }
    ScoreOfUniform(probs, target, weights, w);
  }

  /**
   * When every true class is strictly the least probable, the score is the first weight:
   * 0 for a table starting at 0, whatever the number of classes.
   */
  lemma ScoreWhenTrueClassesBottom(probs: seq<seq<real>>, target: seq<nat>, weights: seq<real>)
    requires |probs| == |target| > 0 && |weights| > 0
    requires TrueClassesBottom(probs, target)
    ensures EvaluationScore(probs, target, weights) == Ok(weights[0])
  {
    var w := weights[0];
    forall i | 0 <= i < |probs| ensures RecordWeight(probs[i], target[i], weights, i) == Ok(w) {
      BottomRecordWeight(probs[i], target[i], weights, i);
    }
    ScoreOfUniform(probs, target, weights, w);
  }

  /** The extreme cases with a linearly spaced table of one weight per class. */
  lemma LinearScoreExtremes(probs: seq<seq<real>>, target: seq<nat>, k: nat)
    requires k >= 2 && |probs| == |target| > 0
    requires forall i :: 0 <= i < |probs| ==> |probs[i]| == k
    ensures TrueClassesTop(probs, target) ==> EvaluationScore(probs, target, LinearWeights(k)) == Ok(1.0)
    ensures TrueClassesBottom(probs, target) ==> EvaluationScore(probs, target, LinearWeights(k)) == Ok(0.0)
  {
    LinearWeightsShape(k);
    if TrueClassesTop(probs, target) {
      ScoreWhenTrueClassesTop(probs, target, LinearWeights(k));
    }
    if TrueClassesBottom(probs, target) {
      ScoreWhenTrueClassesBottom(probs, target, LinearWeights(k));
    }
  }

  // ---------------------------------------------------------------------------------
  // The default table couples the score to exactly ten classes.

  /** Twelve classes, true class most probable: the default table is indexed at 11 and raises. */
  lemma DefaultTableOverrunsTwelveClasses()
    ensures EvaluationScore([seq(12, c => c as real)], [11], DefaultWeights())
         == Err(WeightIndexOutOfRange(0, 11, 10))
  {
    var row := seq(12, c => c as real);
    ArgsortIsAscending(row);
    TopClassIsLast(row, Argsort(row), 11);
    assert RecordWeight(row, 11, DefaultWeights(), 0) == Err(WeightIndexOutOfRange(0, 11, 10));
    assert WeightSum([row], [11], DefaultWeights(), 1) == Err(WeightIndexOutOfRange(0, 11, 10));
  }

  /** Twelve classes, true class least probable: the default table still scores 0, as intended. */
  lemma DefaultTableBottomTwelveClasses()
    ensures EvaluationScore([seq(12, c => (11 - c) as real)], [11], DefaultWeights()) == Ok(0.0)
  {
    var row := seq(12, c => (11 - c) as real);
    BottomRecordWeight(row, 11, DefaultWeights(), 0);
    assert WeightSum([row], [11], DefaultWeights(), 1) == Ok(0.0 + DefaultWeights()[0]);
  }

  /** Four classes, true class most probable: a perfect prediction scores 1/3, not 1. */
  lemma DefaultTableCapsFourClasses()
    ensures EvaluationScore([seq(4, c => c as real)], [3], DefaultWeights()) == Ok(1.0 / 3.0)
  {
    var row := seq(4, c => c as real);
    ArgsortIsAscending(row);
    TopClassIsLast(row, Argsort(row), 3);
    assert DefaultWeights()[3] == 3.0 / 9.0;
    assert RecordWeight(row, 3, DefaultWeights(), 0) == Ok(3.0 / 9.0);
    assert WeightSum([row], [3], DefaultWeights(), 1) == Ok(0.0 + 3.0 / 9.0);
  }

  /** Index of the first record whose number of classes differs from the table length. */
  function FirstMismatch(probs: seq<seq<real>>, weights: seq<real>): (r: Option<nat>)
    ensures r.None? <==> forall i :: 0 <= i < |probs| ==> |probs[i]| == |weights|
    ensures r.Some? ==> r.value < |probs| && |probs[r.value]| != |weights|
    ensures r.Some? ==> forall i :: 0 <= i < r.value ==> |probs[i]| == |weights|
  {
    if probs == [] then None
    else if |probs[0]| != |weights| then Some(0)
    else match FirstMismatch(probs[1..], weights)
      case None => None
      case Some(i) => Some(i + 1)
  }

  /** The score with the class-count / table-length coupling enforced as a configuration error. */
  function CheckedScore(probs: seq<seq<real>>, target: seq<nat>, weights: seq<real>): (r: Result<real, ScoreError>)
    ensures (exists i :: 0 <= i < |probs| && |probs[i]| != |weights|) ==>
      r.Err? && r.error.ClassCountMismatch? && r.error.record < |probs| &&
      |probs[r.error.record]| == r.error.classes != r.error.tableLength == |weights|
    ensures r.Ok? ==> forall i :: 0 <= i < |probs| ==> |probs[i]| == |weights|
  {
    match FirstMismatch(probs, weights)
    case Some(i) => Err(ClassCountMismatch(i, |probs[i]|, |weights|))
    case None => EvaluationScore(probs, target, weights)
  }

  /** Rejects a table whose length is not the number of classes, then scores as before. */
  method CheckedEvaluationScore(probs: seq<seq<real>>, target: seq<nat>, weights: seq<real>)
    returns (r: Result<real, ScoreError>)
    ensures r == CheckedScore(probs, target, weights)
  {
    var i := 0;
    while i < |probs|
      invariant i <= |probs|
      invariant forall j :: 0 <= j < i ==> |probs[j]| == |weights|
    {
      if |probs[i]| != |weights| {
        return Err(ClassCountMismatch(i, |probs[i]|, |weights|));
      }
      i := i + 1;
    }
    r := NewEvaluationScore(probs, target, weights);
  }

  /**
   * The checked score never indexes past the table; with one in-range target per record
   * and a non-empty test set it is either a configuration error or a score in [0, 1].
   */
  lemma CheckedScoreSound(probs: seq<seq<real>>, target: seq<nat>, weights: seq<real>)
    requires WeightsInUnitInterval(weights)
    requires |probs| == |target| > 0
    requires forall i :: 0 <= i < |probs| ==> target[i] < |probs[i]|
    ensures CheckedScore(probs, target, weights).Err? ==>
      CheckedScore(probs, target, weights).error.ClassCountMismatch?
    ensures CheckedScore(probs, target, weights).Ok? ==>
      0.0 <= CheckedScore(probs, target, weights).value <= 1.0
  {
    if FirstMismatch(probs, weights).None? {
      WeightSumDefined(probs, target, weights, |probs|);
      ScoreInUnitInterval(probs, target, weights);
    }
  }

  /** With the linearly spaced table for `k` classes the checked score reaches 1 and 0 at the extremes. */
  lemma CheckedLinearScoreExtremes(probs: seq<seq<real>>, target: seq<nat>, k: nat)
    requires k >= 2 && |probs| == |target| > 0
    requires forall i :: 0 <= i < |probs| ==> |probs[i]| == k
    ensures TrueClassesTop(probs, target) ==> CheckedScore(probs, target, LinearWeights(k)) == Ok(1.0)
    ensures TrueClassesBottom(probs, target) ==> CheckedScore(probs, target, LinearWeights(k)) == Ok(0.0)
  {
    LinearScoreExtremes(probs, target, k);
  }

  /** The checked score turns the twelve-class overrun into a configuration error naming both counts. */
  lemma CheckedRejectsTwelveClasses()
    ensures CheckedScore([seq(12, c => c as real)], [11], DefaultWeights())
         == Err(ClassCountMismatch(0, 12, 10))
  {
  }
}
