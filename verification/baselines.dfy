/** The two baseline forecasters of `run_model`: naive (repeat the last
    training value) and seasonal naive (the series lagged by the seasonal
    period, read over the test window). */
module Baselines {
  import opened Results
  import opened Cells
  import opened Split

  /** `train["value"].iloc[-1]` broadcast over the test window. `None` when
      the training prefix is empty, where `iloc[-1]` raises `IndexError`. */
  function Naive(train: seq<real>, testLength: nat): (r: Option<seq<real>>)
    ensures r.Some? <==> |train| > 0
    ensures r.Some? ==> |r.value| == testLength
    ensures r.Some? ==> forall i :: 0 <= i < testLength ==> r.value[i] == train[|train| - 1]
  {
    if |train| == 0 then None
    else Some(seq(testLength, _ => train[|train| - 1]))
  }

  /** The naive forecast is constant. */
  lemma NaiveIsConstant(train: seq<real>, testLength: nat, i: nat, j: nat)
    requires |train| > 0
    requires i < testLength && j < testLength
    ensures Naive(train, testLength).value[i] == Naive(train, testLength).value[j]
  {
  }

  /** pandas `Series.shift(periods)`: position `j` takes the value from
      position `j - periods`, or NaN when that position is outside the
      series. A negative `periods` shifts towards the start. */
  function Shift(s: seq<real>, periods: int): (r: seq<Value>)
    ensures |r| == |s|
  {
    seq(|s|, j requires 0 <= j < |s| => if 0 <= j - periods < |s| then Num(s[j - periods]) else NaN)
  }

  /** Shifting by zero changes nothing. */
  lemma ShiftByZero(s: seq<real>)
    ensures Shift(s, 0) == Lift(s)
  {
  }

  /** Shifting forward by `periods` leaves exactly the first `periods`
      positions missing, and moves every value `periods` places later. */
  lemma ShiftForward(s: seq<real>, periods: nat)
    ensures forall j :: 0 <= j < |s| ==> (Shift(s, periods)[j].NaN? <==> j < periods)
    ensures forall j :: 0 <= j < |s| - periods ==> Shift(s, periods)[j + periods] == Num(s[j])
  {
  }

  /** `df["value"].shift(periods).iloc[-horizon:]`: the lagged series read
      over the same positions as the test suffix. Position `i` holds the
      series value `periods` steps before test position `i`, or NaN when
      that is before the start of the series. */
  function SeasonalNaive(series: seq<real>, horizon: int, periods: int): (r: seq<Value>)
    ensures |r| == |Test(series, horizon)|
    ensures forall i :: 0 <= i < |r| ==>
      var k := |Train(series, horizon)| - periods + i;
      r[i] == (if 0 <= k < |series| then Num(series[k]) else NaN)
  {
    Shift(series, periods)[CutPoint(|series|, horizon)..]
  }

  /** For `i < periods` the seasonal-naive forecast reads the training
      prefix, one season before the test position. */
  lemma SeasonalNaiveReadsTrain(series: seq<real>, horizon: int, periods: int, i: nat)
    requires i < |Test(series, horizon)|
    requires i < periods <= |Train(series, horizon)| + i
    ensures SeasonalNaive(series, horizon, periods)[i]
         == Num(Train(series, horizon)[|Train(series, horizon)| - periods + i])
  {
  }

  /** For `i >= periods > 0` the seasonal-naive forecast reads the test
      suffix itself: it indexes the full series, so a horizon longer than
      the season uses held-out values. */
  lemma SeasonalNaiveReadsTest(series: seq<real>, horizon: int, periods: int, i: nat)
    requires 0 < periods <= i < |Test(series, horizon)|
    ensures SeasonalNaive(series, horizon, periods)[i] == Num(Test(series, horizon)[i - periods])
  {
  }

  /** With a non-negative period, the forecast has no NaN exactly when the
      test window is empty or the training prefix holds a full season. */
  lemma SeasonalNaiveComplete(series: seq<real>, horizon: int, periods: nat)
    ensures AllNumbers(SeasonalNaive(series, horizon, periods))
        <==> (|Test(series, horizon)| == 0 || periods <= |Train(series, horizon)|)
  {
    var r := SeasonalNaive(series, horizon, periods);
    if |r| > 0 && periods > |Train(series, horizon)| {
      assert r[0].NaN?;
    }
  }
}
