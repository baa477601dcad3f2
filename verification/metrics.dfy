/** The three accuracy measures `run_model` computes for every forecast:
    RMSE (kept here in its squared form, the mean squared error), MASE and
    sMAPE, and the input validation `mean_squared_error` applies first. */
module Metrics {
  import opened Numeric
  import opened Results
  import opened Cells

  /** Element-wise squared errors `(y_true - y_pred) ** 2`. */
  function SquaredErrors(yTrue: seq<real>, yPred: seq<real>): (e: seq<real>)
    requires |yTrue| == |yPred|
    ensures |e| == |yTrue|
    ensures AllNonNegative(e)
    ensures AllZero(e) <==> yTrue == yPred
  {
    var e := seq(|yTrue|, i requires 0 <= i < |yTrue| => Square(yTrue[i] - yPred[i]));
    assert AllNonNegative(e) by {
      forall i | 0 <= i < |e| ensures e[i] >= 0.0 {
        SquareFacts(yTrue[i] - yPred[i]);
      }
    }
    assert AllZero(e) ==> yTrue == yPred by {
      if AllZero(e) {
        forall i | 0 <= i < |yTrue| ensures yTrue[i] == yPred[i] {
          assert e[i] == 0.0;
          SquareFacts(yTrue[i] - yPred[i]);
        }
      }
    }
    assert yTrue == yPred ==> AllZero(e) by {
      if yTrue == yPred {
        forall i | 0 <= i < |e| ensures e[i] == 0.0 {
          SquareFacts(yTrue[i] - yPred[i]);
        }
      }
    }
    e
  }

  /** Element-wise absolute errors `np.abs(y_true - y_pred)`. */
  function AbsoluteErrors(yTrue: seq<real>, yPred: seq<real>): (e: seq<real>)
    requires |yTrue| == |yPred|
    ensures |e| == |yTrue|
    ensures AllNonNegative(e)
    ensures AllZero(e) <==> yTrue == yPred
  {
    var e := seq(|yTrue|, i requires 0 <= i < |yTrue| => Abs(yTrue[i] - yPred[i]));
    assert AllZero(e) ==> yTrue == yPred by {
      if AllZero(e) {
        forall i | 0 <= i < |yTrue| ensures yTrue[i] == yPred[i] {
          assert e[i] == 0.0;
        }
      }
    }
    assert yTrue == yPred ==> AllZero(e) by {
      if yTrue == yPred {
        forall i | 0 <= i < |e| ensures e[i] == 0.0 {
          assert yTrue[i] - yPred[i] == 0.0;
        }
      }
    }
    e
  }

  /** `mean_squared_error(y_true, y_pred)`: the square of the RMSE. It is
      never negative and is zero exactly on a perfect forecast. */
  function MeanSquaredError(yTrue: seq<real>, yPred: seq<real>): (r: real)
    requires |yTrue| == |yPred| > 0
    ensures r >= 0.0
    ensures r == 0.0 <==> yTrue == yPred
  {
    MeanOfNonNegatives(SquaredErrors(yTrue, yPred));
    Mean(SquaredErrors(yTrue, yPred))
  }

  /** `np.mean(np.abs(y_true - y_pred))`, the numerator of MASE. It is never
      negative and is zero exactly on a perfect forecast. */
  function MeanAbsoluteError(yTrue: seq<real>, yPred: seq<real>): (r: real)
    requires |yTrue| == |yPred| > 0
    ensures r >= 0.0
    ensures r == 0.0 <==> yTrue == yPred
  {
    MeanOfNonNegatives(AbsoluteErrors(yTrue, yPred));
    Mean(AbsoluteErrors(yTrue, yPred))
  }

  /** `np.abs(np.diff(train))`: absolute first differences, one fewer than
      the observations (none for a series of length 0 or 1). */
  function AbsoluteDifferences(train: seq<real>): (d: seq<real>)
    ensures |d| == if |train| == 0 then 0 else |train| - 1
    ensures forall i :: 0 <= i < |d| ==> d[i] == Abs(train[i + 1] - train[i])
  {
    if |train| == 0 then []
    else seq(|train| - 1, i requires 0 <= i < |train| - 1 => Abs(train[i + 1] - train[i]))
  }

  /** Every observation equals every other. */
  ghost predicate IsConstant(t: seq<real>)
  {
    forall i, j :: 0 <= i < |t| && 0 <= j < |t| ==> t[i] == t[j]
  }

  ghost predicate AdjacentEqual(t: seq<real>)
  {
    forall i :: 0 <= i < |t| - 1 ==> t[i] == t[i + 1]
  }

  lemma {:induction false} AdjacentEqualToFirst(t: seq<real>, i: nat)
    requires AdjacentEqual(t)
    requires i < |t|
    ensures t[i] == t[0]
  {
    if i > 0 {
      AdjacentEqualToFirst(t, i - 1);
      assert t[i - 1] == t[i];
    }
  }

  /** A series whose neighbours are all equal is constant, and conversely. */
  lemma AdjacentEqualIsConstant(t: seq<real>)
    ensures AdjacentEqual(t) <==> IsConstant(t)
  {
    if AdjacentEqual(t) {
      forall i, j | 0 <= i < |t| && 0 <= j < |t| ensures t[i] == t[j] {
        AdjacentEqualToFirst(t, i);
        AdjacentEqualToFirst(t, j);
      }
    }
  }

  /** `np.mean(np.abs(np.diff(train)))`, the MASE denominator: the mean
      absolute error of the one-step naive forecast inside the training
      prefix. numpy's mean of no differences is NaN, so it is undefined
      below two observations; otherwise it is non-negative and zero exactly
      for a constant series. */
  function MaseScale(train: seq<real>): (r: Option<real>)
    ensures r.None? <==> |train| < 2
    ensures r.Some? ==> r.value >= 0.0
    ensures r.Some? ==> (r.value == 0.0 <==> IsConstant(train))
  {
    if |train| < 2 then None
    else
      MeanDifferenceZeroIffConstant(train);
      Some(Mean(AbsoluteDifferences(train)))
  }

  /** The mean absolute difference of a series with at least two
      observations is non-negative, and zero exactly when it is constant. */
  lemma MeanDifferenceZeroIffConstant(train: seq<real>)
    requires |train| >= 2
    ensures Mean(AbsoluteDifferences(train)) >= 0.0
    ensures Mean(AbsoluteDifferences(train)) == 0.0 <==> IsConstant(train)
  {
    var d := AbsoluteDifferences(train);
    assert AllNonNegative(d);
    MeanOfNonNegatives(d);
    AdjacentEqualIsConstant(train);
    assert AllZero(d) ==> AdjacentEqual(train) by {
      if AllZero(d) {
        forall i | 0 <= i < |train| - 1 ensures train[i] == train[i + 1] {
          assert d[i] == 0.0;
        }
      }
    }
    assert AdjacentEqual(train) ==> AllZero(d) by {
      if AdjacentEqual(train) {
        forall i | 0 <= i < |d| ensures d[i] == 0.0 {
          assert train[i] == train[i + 1];
        }
      }
    }
  }

  /** `m / s` for a non-negative `m`, as numpy evaluates it: a finite value
      only when `s` is positive (dividing by zero gives inf or NaN). */
  function Ratio(m: real, s: real): (r: Option<real>)
    requires m >= 0.0 && s >= 0.0
    ensures r.Some? <==> s > 0.0
    ensures r.Some? ==> r.value >= 0.0 && r.value == m / s
    ensures r.Some? ==> (r.value == 0.0 <==> m == 0.0)
  {
    if s > 0.0 then
      QuotientFacts(m, s);
      assert m / s == 0.0 ==> m == 0.0 by {
        if m / s == 0.0 {
          calc { m; == (m / s) * s; == 0.0 * s; == 0.0; }
        }
      }
      Some(m / s)
    else None
  }

  /** `mae / scale` as numpy evaluates it: a finite value only when the
      scale is defined and positive (otherwise numpy gives inf or NaN). */
  function Mase(yTrue: seq<real>, yPred: seq<real>, train: seq<real>): (r: Option<real>)
    requires |yTrue| == |yPred| > 0
    ensures r.Some? <==> MaseScale(train).Some? && MaseScale(train).value > 0.0
    ensures r.Some? ==> r.value >= 0.0
    ensures r.Some? ==> r.value == MeanAbsoluteError(yTrue, yPred) / MaseScale(train).value
    ensures r.Some? ==> (r.value == 0.0 <==> yTrue == yPred)
  {
    var scale := MaseScale(train);
    if scale.Some? then Ratio(MeanAbsoluteError(yTrue, yPred), scale.value) else None
  }

  /** One sMAPE term `2|a - b| / (|a| + |b|)`; `None` for the 0/0 case
      `a == b == 0`. Every defined term lies in `[0, 2]` and is zero exactly
      when `a == b`. */
  function SmapeTerm(a: real, b: real): (r: Option<real>)
    ensures r.None? <==> a == 0.0 && b == 0.0
    ensures r.Some? ==> 0.0 <= r.value <= 2.0
    ensures r.Some? ==> (r.value == 0.0 <==> a == b)
  {
    var d := Abs(a) + Abs(b);
    if d == 0.0 then None
    else
      AbsDifferenceBound(a, b);
      var t := 2.0 * Abs(a - b) / d;
      QuotientAtMost(2.0 * Abs(a - b), d, 2.0);
      QuotientFacts(2.0 * Abs(a - b), d);
      Some(t)
  }

  /** Some position where actual and forecast are both zero. */
  ghost predicate HasZeroPair(yTrue: seq<real>, yPred: seq<real>)
    requires |yTrue| == |yPred|
  {
    exists i :: 0 <= i < |yTrue| && yTrue[i] == 0.0 && yPred[i] == 0.0
  }

  /** `100 * np.mean(2 * |y_true - y_pred| / (|y_true| + |y_pred|))`. One
      0/0 term makes numpy's mean NaN, so the result is undefined exactly
      when some pair is zero on both sides; otherwise it lies in
      `[0, 200]` and is zero exactly on a perfect forecast. */
  function Smape(yTrue: seq<real>, yPred: seq<real>): (r: Option<real>)
    requires |yTrue| == |yPred| > 0
    ensures r.None? <==> HasZeroPair(yTrue, yPred)
    ensures r.Some? ==> 0.0 <= r.value <= 200.0
    ensures r.Some? ==> (r.value == 0.0 <==> yTrue == yPred)
  {
    if exists i | 0 <= i < |yTrue| :: yTrue[i] == 0.0 && yPred[i] == 0.0 then None
    else
      var terms := seq(|yTrue|, i requires 0 <= i < |yTrue| => SmapeTerm(yTrue[i], yPred[i]).value);
      MeanOfBounded(terms, 2.0);
      MeanOfNonNegatives(terms);
      assert AllZero(terms) ==> yTrue == yPred by {
        if AllZero(terms) {
          forall i | 0 <= i < |yTrue| ensures yTrue[i] == yPred[i] {
            assert terms[i] == 0.0;
          }
        }
      }
      Some(100.0 * Mean(terms))
  }

  /** Why `mean_squared_error` rejects its input (a `ValueError`): it checks
      the lengths agree, then that there is at least one sample, then that
      the forecast holds no NaN. */
  datatype MetricError = InconsistentLength | EmptyInput | NonFiniteInput

  /** The three numbers of one record: MSE, MASE and sMAPE. */
  datatype Scores = Scores(mse: real, mase: Option<real>, smape: Option<real>)

  /** The metric block repeated after every forecast in `run_model`. */
  function Evaluate(yTrue: seq<real>, yPred: seq<Value>, train: seq<real>): (r: Result<Scores, MetricError>)
    ensures r == Err(InconsistentLength) <==> |yPred| != |yTrue|
    ensures r == Err(EmptyInput) <==> |yPred| == |yTrue| == 0
    ensures r == Err(NonFiniteInput) <==> |yPred| == |yTrue| > 0 && !AllNumbers(yPred)
    ensures r.Ok? ==> r.value.mse >= 0.0 && (r.value.mse == 0.0 <==> yPred == Lift(yTrue))
    ensures r.Ok? ==> (r.value.mase.Some? <==> MaseScale(train).Some? && MaseScale(train).value > 0.0)
    ensures r.Ok? && r.value.mase.Some? ==>
      r.value.mase.value == MeanAbsoluteError(yTrue, Numbers(yPred)) / MaseScale(train).value
    ensures r.Ok? && r.value.mase.Some? ==> (r.value.mase.value == 0.0 <==> yPred == Lift(yTrue))
    ensures r.Ok? ==> (r.value.smape.None? <==> HasZeroPair(yTrue, Numbers(yPred)))
    ensures r.Ok? && r.value.smape.Some? ==> 0.0 <= r.value.smape.value <= 200.0
    ensures r.Ok? && r.value.smape.Some? ==> (r.value.smape.value == 0.0 <==> yPred == Lift(yTrue))
  {
    if |yPred| != |yTrue| then Err(InconsistentLength)
    else if |yTrue| == 0 then Err(EmptyInput)
    else if !(forall i | 0 <= i < |yPred| :: yPred[i].Num?) then Err(NonFiniteInput)
    else
      var p := Numbers(yPred);
      NumbersOfLift(yTrue);
      LiftOfNumbers(yPred);
      assert yPred == Lift(yTrue) <==> p == yTrue;
      Ok(Scores(MeanSquaredError(yTrue, p), Mase(yTrue, p, train), Smape(yTrue, p)))
  }

  /** A perfect forecast scores zero on every metric that is defined: MSE
      and MAE are zero, MASE is zero whenever the scale is usable, and sMAPE
      is zero unless the series contains a zero (where the term is 0/0). */
  lemma PerfectForecast(y: seq<real>, train: seq<real>)
    requires |y| > 0
    ensures Evaluate(y, Lift(y), train).Ok?
    ensures Evaluate(y, Lift(y), train).value.mse == 0.0
    ensures MeanAbsoluteError(y, y) == 0.0
    ensures Evaluate(y, Lift(y), train).value.mase.Some? ==> Evaluate(y, Lift(y), train).value.mase.value == 0.0
    ensures Evaluate(y, Lift(y), train).value.smape
         == (if exists i :: 0 <= i < |y| && y[i] == 0.0 then None else Some(0.0))
  {
    NumbersOfLift(y);
    assert HasZeroPair(y, y) <==> exists i :: 0 <= i < |y| && y[i] == 0.0;
  }

  function Negate(xs: seq<real>): (ys: seq<real>)
    ensures |ys| == |xs|
    ensures forall i :: 0 <= i < |xs| ==> ys[i] == -xs[i]
  {
    seq(|xs|, i requires 0 <= i < |xs| => -xs[i])
  }

  /** Flipping the sign of both actual and forecast values leaves the
      squared and absolute errors, hence MSE and MAE, unchanged. */
  lemma SignFlipErrors(yTrue: seq<real>, yPred: seq<real>)
    requires |yTrue| == |yPred| > 0
    ensures MeanSquaredError(Negate(yTrue), Negate(yPred)) == MeanSquaredError(yTrue, yPred)
    ensures MeanAbsoluteError(Negate(yTrue), Negate(yPred)) == MeanAbsoluteError(yTrue, yPred)
  {
    var a, b := Negate(yTrue), Negate(yPred);
    forall i | 0 <= i < |a| ensures Square(a[i] - b[i]) == Square(yTrue[i] - yPred[i]) {
      assert a[i] - b[i] == -(yTrue[i] - yPred[i]);
      SquareOfNegation(yTrue[i] - yPred[i]);
    }
    assert SquaredErrors(a, b) == SquaredErrors(yTrue, yPred);
    assert AbsoluteErrors(a, b) == AbsoluteErrors(yTrue, yPred);
  }

  /** Flipping the sign of the training series leaves the MASE scale
      unchanged, so MASE is unchanged by a sign flip of all three inputs. */
  lemma SignFlipMase(yTrue: seq<real>, yPred: seq<real>, train: seq<real>)
    requires |yTrue| == |yPred| > 0
    ensures MaseScale(Negate(train)) == MaseScale(train)
    ensures Mase(Negate(yTrue), Negate(yPred), Negate(train)) == Mase(yTrue, yPred, train)
  {
    assert AbsoluteDifferences(Negate(train)) == AbsoluteDifferences(train);
    SignFlipErrors(yTrue, yPred);
  }

  /** Flipping the sign of both actual and forecast values leaves sMAPE
      unchanged, including whether it is defined. */
  lemma SignFlipSmape(yTrue: seq<real>, yPred: seq<real>)
    requires |yTrue| == |yPred| > 0
    ensures Smape(Negate(yTrue), Negate(yPred)) == Smape(yTrue, yPred)
  {
    var a, b := Negate(yTrue), Negate(yPred);
    assert HasZeroPair(a, b) <==> HasZeroPair(yTrue, yPred) by {
      if HasZeroPair(a, b) {
        var i :| 0 <= i < |a| && a[i] == 0.0 && b[i] == 0.0;
        assert yTrue[i] == 0.0 && yPred[i] == 0.0;
      }
    }
    if !HasZeroPair(yTrue, yPred) {
      var ta := seq(|a|, i requires 0 <= i < |a| => SmapeTerm(a[i], b[i]).value);
      var tb := seq(|yTrue|, i requires 0 <= i < |yTrue| => SmapeTerm(yTrue[i], yPred[i]).value);
      assert ta == tb;
    }
  }
}
