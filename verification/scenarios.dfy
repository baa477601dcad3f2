/** Small worked runs of the baselines and metrics on concrete series. */
module Scenarios {
  import opened Numeric
  import opened Results
  import opened Cells
  import opened Split
  import opened Baselines
  import opened Metrics

  /** A trending series of seven values with a horizon of two: the
      training prefix is 1..5, the test window 6, 7, and the naive forecast
      repeats 5. */
  lemma NaiveOnTrend()
    ensures Train([1.0, 2.0, 3.0, 4.0, 5.0, 6.0, 7.0], 2) == [1.0, 2.0, 3.0, 4.0, 5.0]
    ensures Test([1.0, 2.0, 3.0, 4.0, 5.0, 6.0, 7.0], 2) == [6.0, 7.0]
    ensures Naive([1.0, 2.0, 3.0, 4.0, 5.0], 2) == Some([5.0, 5.0])
  {
    var f := Naive([1.0, 2.0, 3.0, 4.0, 5.0], 2);
    assert |f.value| == 2 && f.value[0] == 5.0 && f.value[1] == 5.0;
    assert f.value == [5.0, 5.0];
  }

  /** That forecast misses 6 and 7 by 1 and 2: the MSE is 2.5 and the MAE
      1.5. */
  lemma NaiveOnTrendErrors()
    ensures MeanSquaredError([6.0, 7.0], [5.0, 5.0]) == 2.5
    ensures MeanAbsoluteError([6.0, 7.0], [5.0, 5.0]) == 1.5
  {
    var sq := SquaredErrors([6.0, 7.0], [5.0, 5.0]);
    assert sq[0] == Square(1.0) == 1.0;
    assert sq[1] == Square(2.0) == 4.0;
    assert Sum(sq) == 5.0 by {
      assert sq[1..][0] == 4.0;
      assert sq[1..][1..] == [];
    }
    var ab := AbsoluteErrors([6.0, 7.0], [5.0, 5.0]);
    assert ab[0] == 1.0 && ab[1] == 2.0;
    assert Sum(ab) == 3.0 by {
      assert ab[1..][0] == 2.0;
      assert ab[1..][1..] == [];
    }
  }

  /** Every training step is 1, so the MASE scale is 1. */
  lemma TrendScale()
    ensures MaseScale([1.0, 2.0, 3.0, 4.0, 5.0]) == Some(1.0)
  {
    var d := AbsoluteDifferences([1.0, 2.0, 3.0, 4.0, 5.0]);
    assert |d| == 4;
    assert d[0] == 1.0 && d[1] == 1.0 && d[2] == 1.0 && d[3] == 1.0;
    assert d[1..][1..] == d[2..] && d[2..][1..] == d[3..] && d[3..][1..] == [];
    assert Sum(d[3..]) == 1.0;
    assert Sum(d[2..]) == 2.0;
    assert Sum(d[1..]) == 3.0;
    assert Sum(d) == 4.0;
  }

  /** With a scale of 1 the MASE of the naive forecast equals its MAE. */
  lemma NaiveOnTrendMase()
    ensures Mase([6.0, 7.0], [5.0, 5.0], [1.0, 2.0, 3.0, 4.0, 5.0]) == Some(1.5)
  {
    TrendScale();
    NaiveOnTrendErrors();
  }

  /** Season 3, horizon 3: the forecast is the previous season, read from
      the training prefix. */
  lemma SeasonalWithinSeason()
    ensures SeasonalNaive([10.0, 12.0, 14.0, 20.0, 22.0, 24.0], 3, 3)
         == [Num(10.0), Num(12.0), Num(14.0)]
  {
  }

  /** Season 2, horizon 3: the last forecast value is 20.0, the first test
      value, which the model should not have seen. */
  lemma SeasonalBeyondSeason()
    ensures Test([10.0, 12.0, 14.0, 20.0, 22.0, 24.0], 3) == [20.0, 22.0, 24.0]
    ensures SeasonalNaive([10.0, 12.0, 14.0, 20.0, 22.0, 24.0], 3, 2)
         == [Num(12.0), Num(14.0), Num(20.0)]
  {
    var s := [10.0, 12.0, 14.0, 20.0, 22.0, 24.0];
    assert Test(s, 3) == [20.0, 22.0, 24.0];
  }

  /** A training prefix shorter than one season leaves NaN at the start of
      the forecast. */
  lemma SeasonalTooShort()
    ensures SeasonalNaive([1.0, 2.0, 3.0], 1, 3) == [NaN]
  {
  }

  /** A horizon of zero empties the training prefix (`df[:-0]` is `df[:0]`)
      and keeps the whole series as the test window. */
  lemma ZeroHorizon()
    ensures Train([1.0, 2.0, 3.0], 0) == []
    ensures Test([1.0, 2.0, 3.0], 0) == [1.0, 2.0, 3.0]
  {
  }
}
