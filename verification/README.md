# Forecast evaluation harness — a Dafny model of `run_model`

`run_model` evaluates four forecasters on one time series:

1. It splits the cleaned series positionally into a training prefix (`df[:-horizon]`) and a test window (`df[-horizon:]`).
2. It makes four forecasts, in a fixed order:
   - naive: repeat the last training value;
   - seasonal naive: the series lagged by the seasonal period;
   - additive exponential smoothing (ETS);
   - auto-ARIMA.
3. After each forecast it writes a `forecast_{model}_{name}.csv` file and scores the forecast against the test values. The scores are RMSE, MASE and sMAPE.
4. It collects one record per model into a summary file.

The model rebuilds this as pure functions over exact reals:

| module | file | contents |
|---|---|---|
| `Numeric` | `numeric.dfy` | absolute value, squares, sums and means, with their sign and bound facts |
| `Results` | `results.dfy` | `Option` and `Result` |
| `Split` | `split.dfy` | Python's slice-bound rules and the train/test split for every integer horizon |
| `Cells` | `cells.dfy` | forecast cells, each a number or NaN |
| `Baselines` | `baselines.dfy` | the naive forecast, pandas `shift`, and the seasonal-naive forecast |
| `Metrics` | `metrics.dfy` | MSE, MAE, the MASE scale, MASE, sMAPE, and the input checks of `mean_squared_error` |
| `Providers` | `providers.dfy` | the settings handed to the two statistical providers; a provider is an arbitrary function of settings, training values and steps, and it may fail |
| `Harness` | `harness.dfy` | the stage-by-stage run: forecast files, records, and the error that ends a run early |
| `Scenarios` | `scenarios.dfy` | worked examples on small concrete series |

Each of these exceptions ends the run:
- an empty training prefix (`iloc[-1]` raises);
- a provider that raises;
- a forecast whose length differs from the test window (the `DataFrame` built by `save_forecast` raises);
- a forecast that `mean_squared_error` rejects.

When a run ends this way, the forecast files already written stay and no summary is written.

Some behaviour does not raise:
- numpy division by zero (a zero MASE scale, a 0/0 sMAPE term over a numpy array) leaves that score undefined (`None`), and the run continues;
- the MASE scale of fewer than two training values is the mean of an empty array (NaN), so it is undefined as well.

The input checks of `mean_squared_error` come from scikit-learn, not from `run_model` itself. It checks, in this order:
1. the two lengths agree;
2. there is at least one sample;
3. neither input holds NaN.

Some consequences of the code as written:
- **Provider failure.** A provider that raises ends the whole run. No model is skipped while the others carry on.
- **Seasonal naive when `seasonal` is false.** The seasonal-naive forecast is computed even then.
- **Split with a short series.** The split never raises. Python slicing gives every horizon an outcome. A horizon of 0, or one at least the series length, leaves the training prefix empty. The run then fails at the naive step.
- **Short seasonal history.** There is no check of its own. The lagged series holds NaN, and `mean_squared_error` rejects it.
- **Zero MASE scale or 0/0 sMAPE term.** Neither raises. The score is left undefined.

## Model

| member | source | states |
|---|---|---|
| Split.SliceIndex | src/py/run.py:19-20 | a slice bound in `[0, n]` is kept; a bound above `n` becomes `n`; a negative bound counts back from the end, and becomes 0 when it reaches before the start |
| Split.Train | src/py/run.py:19 | `df[:-horizon]` holds the observations before the cut point, in order |
| Split.Test | src/py/run.py:20 | `df[-horizon:]` holds the observations from the cut point on, in order |
| Split.SplitReconstructs | src/py/run.py:19-20 | for every integer horizon, the training prefix followed by the test window is the whole series |
| Split.SplitSizes | src/py/run.py:19-20 | for `0 < horizon <= n`, the test window holds exactly the last `horizon` observations in order, and the prefix holds the other `n - horizon` |
| Split.EmptyTrain | src/py/run.py:19-20 | the training prefix is empty iff the series is empty, the horizon is 0, or the horizon reaches the series length; the test window is then the whole series |
| Split.EmptyTest | src/py/run.py:19-20 | the test window is empty iff the series is empty or a negative horizon cuts at or past its end |
| Baselines.Naive | src/py/run.py:32-35 | the forecast exists iff the prefix is non-empty; it has one value per test position, each equal to the last training value |
| Baselines.NaiveIsConstant | src/py/run.py:32-33 | any two naive forecast values are equal |
| Baselines.Shift | src/py/run.py:48 | `shift` keeps the series length |
| Baselines.ShiftByZero | src/py/run.py:48 | `shift(0)` is the series itself, with no NaN |
| Baselines.ShiftForward | src/py/run.py:48 | a shift by `p >= 0` leaves NaN exactly at the first `p` positions, and moves every value `p` places later |
| Baselines.SeasonalNaive | src/py/run.py:48 | the forecast has one cell per test position; cell `i` is the series value at `|train| - p + i` when that index is in the series, and NaN otherwise |
| Baselines.SeasonalNaiveReadsTrain | src/py/run.py:48 | for `i < p <= |train| + i`, cell `i` is the training value one season before test position `i` |
| Baselines.SeasonalNaiveReadsTest | src/py/run.py:48 | for `0 < p <= i`, cell `i` is test value `i - p`: a horizon longer than the season reads held-out values |
| Baselines.SeasonalNaiveComplete | src/py/run.py:48 | for `p >= 0`, the forecast has no NaN iff the test window is empty or the prefix holds at least one full season |
| Metrics.SquaredErrors | src/py/run.py:38 | the squared errors are all non-negative, and they are all zero iff the forecast equals the actuals |
| Metrics.AbsoluteErrors | src/py/run.py:39 | the absolute errors are all non-negative, and they are all zero iff the forecast equals the actuals |
| Metrics.MeanSquaredError | src/py/run.py:38 | the MSE is non-negative, and it is zero iff the forecast is perfect |
| Metrics.MeanAbsoluteError | src/py/run.py:39 | the MAE is non-negative, and it is zero iff the forecast is perfect |
| Metrics.AbsoluteDifferences | src/py/run.py:39 | `abs(diff(train))` has one fewer element than the prefix (none for length 0 or 1); element `i` is `|train[i+1] - train[i]|` |
| Metrics.AdjacentEqualIsConstant | src/py/run.py:39 | all neighbours are equal iff the series is constant |
| Metrics.MaseScale | src/py/run.py:39 | the scale is undefined iff there are fewer than two training values; otherwise it is non-negative, and it is zero iff the prefix is constant |
| Metrics.MeanDifferenceZeroIffConstant | src/py/run.py:39 | with at least two values, the mean absolute difference is zero iff the series is constant |
| Metrics.Ratio | src/py/run.py:39 | `m / s` is defined iff `s > 0`; it is then non-negative, equals `m / s`, and is zero iff `m` is |
| Metrics.Mase | src/py/run.py:39 | MASE is defined iff the scale is defined and positive; it is then MAE divided by the scale, non-negative, and zero iff the forecast is perfect |
| Metrics.SmapeTerm | src/py/run.py:40 | a term is undefined iff both values are zero; otherwise it lies in `[0, 2]`, and it is zero iff the values are equal |
| Metrics.Smape | src/py/run.py:40 | sMAPE is undefined iff some actual and forecast are both zero; otherwise it lies in `[0, 200]`, and it is zero iff the forecast is perfect |
| Metrics.Evaluate | src/py/run.py:38-40 | gives each input rejection (length mismatch, no samples, NaN in the forecast) iff its condition holds; on success: MSE >= 0 and zero iff perfect; MASE defined iff the scale is positive, equal to MAE over the scale, and zero iff perfect; sMAPE undefined iff there is a zero pair, otherwise in `[0, 200]` and zero iff perfect |
| Metrics.PerfectForecast | src/py/run.py:38-40 | a perfect forecast is accepted: MSE and MAE are 0; MASE is 0 when defined; sMAPE is 0 unless some actual is 0, and undefined then |
| Metrics.SignFlipErrors | src/py/run.py:38-39 | negating actuals and forecast changes neither MSE nor MAE |
| Metrics.SignFlipMase | src/py/run.py:39 | negating the prefix keeps the MASE scale; negating all three inputs keeps MASE |
| Metrics.SignFlipSmape | src/py/run.py:40 | negating actuals and forecast keeps sMAPE, including whether it is defined |
| Providers.EtsSettings | src/py/run.py:62-67 | ETS always gets an additive trend and estimated initialisation; it gets an additive seasonal component and the seasonal period iff `seasonal` |
| Providers.ArimaSettings | src/py/run.py:84-91 | auto-ARIMA searches seasonally iff `seasonal`, with `m` = the period then and 1 otherwise; it runs stepwise, suppresses warnings and ignores errors |
| Providers.SettingsAgree | src/py/run.py:62-91 | both providers model seasonality or neither does; ARIMA's `m` is the ETS period, or 1 when there is none |
| Harness.FileName | src/py/run.py:29 | the file name is `forecast_`, the model name, `_`, the dataset name, then `.csv` |
| Harness.FileNamesDistinct | src/py/run.py:29 | the four files of one run have four different names |
| Harness.TestValues | src/py/run.py:34 | the actual values scored are the values of the test window |
| Harness.TrainValues | src/py/run.py:63 | the values the forecasters see are the values of the training prefix |
| Harness.Rows | src/py/run.py:24-28 | the written frame has one row per test date, holding that date and the forecast at that position |
| Harness.ArtifactOf | src/py/run.py:24-29 | the file is named `forecast_{model}_{name}.csv`; its forecast column is the forecast, and its date column is the test dates |
| Harness.RunStages | src/py/run.py:31-106 | a summary is written iff every stage passes, and then it holds one record per stage, in order, from that stage's scores; each file written is its stage's file; on failure the run stopped at the first stage that fails, with that stage's error, after the files of the earlier stages plus its own if it wrote one |
| Harness.NaiveStage | src/py/run.py:32-36 | the naive stage has a forecast iff the prefix is non-empty, and otherwise fails with `NoTrainingData` |
| Harness.ProviderStage | src/py/run.py:62-95 | a provider stage has a forecast iff the provider returned one, and otherwise fails naming the model |
| Harness.Stages | src/py/run.py:31-95 | there are four stages, in the order naive, seasonal_naive, ets_add_add, auto_arima |
| Harness.RunModel | src/py/run.py:10-106 | a successful run has four records, in model order, each carrying the input horizon, and four files; every file written is named after its model and the dataset, and has the test dates as its date column |
| Harness.NoTrainingDataAborts | src/py/run.py:19-32 | the run ends with `NoTrainingData` iff the training prefix is empty, and then no file is written |
| Harness.ArtifactIsStageForecast | src/py/run.py:24-29 | the `i`-th file holds the `i`-th model's forecast |
| Harness.BaselineArtifacts | src/py/run.py:31-50 | the first file holds the last training value repeated over the test window; the second holds the lagged series over the test positions |
| Harness.ProviderArtifacts | src/py/run.py:61-95 | the third and fourth files hold what ETS and auto-ARIMA returned, when called with their settings on the training values and the horizon |
| Harness.RunSucceedsIff | src/py/run.py:10-106 | a summary is written iff: the prefix and the test window are non-empty; the lagged series has no NaN over the test window; both providers return one value per test position |
| Harness.SummaryRows | src/py/run.py:38-44 | each record describes the forecast in the file of the same model: MSE >= 0 and zero iff perfect; MASE is that forecast's MAE over the one scale shared by all records, and is defined iff that scale is positive; sMAPE is undefined iff there is a zero pair, otherwise in `[0, 200]` |
| Harness.DegenerateScaleLeavesMaseUndefined | src/py/run.py:39-98 | with fewer than two training values, or a constant prefix, no record has a MASE |
| Harness.ProvidersSeeOnlyTrain | src/py/run.py:62-93 | providers that agree on the one call each gets (its settings, the training values, the horizon) give identical runs |
| Harness.ForecastsIgnoreTestValues | src/py/run.py:31-93 | series with the same prefix and length get the same naive and provider forecasts; the seasonal-naive forecast is also the same when the test window is no longer than the season |
| Scenarios.NaiveOnTrend | src/py/run.py:19-35 | on 1..7 with horizon 2, the prefix is 1..5, the test window is 6, 7, and the naive forecast is 5, 5 |
| Scenarios.NaiveOnTrendErrors | src/py/run.py:38-39 | that forecast has MSE 2.5 and MAE 1.5 |
| Scenarios.TrendScale | src/py/run.py:39 | the MASE scale of 1..5 is 1 |
| Scenarios.NaiveOnTrendMase | src/py/run.py:39 | the MASE of that forecast is 1.5 |
| Scenarios.SeasonalWithinSeason | src/py/run.py:48 | with season 3 and horizon 3, the forecast repeats the previous season |
| Scenarios.SeasonalBeyondSeason | src/py/run.py:48 | with season 2 and horizon 3, the last forecast value is the first test value |
| Scenarios.SeasonalTooShort | src/py/run.py:48 | a prefix shorter than one season leaves NaN in the forecast |
| Scenarios.ZeroHorizon | src/py/run.py:19-20 | a horizon of 0 gives an empty prefix and the whole series as the test window |

## Left out

- Reading and cleaning the CSV (`read_csv`, sorting by date, `to_numeric`, `dropna`) is left out. The model starts from a cleaned sequence of (date, value) observations.
- Creating the results directory, the `to_csv` writes and the `print` progress messages are side effects. A written file is modelled as its name and rows; the summary is modelled as the record list.
- The creation timestamp of each record reads the wall clock, and it is not modelled.
- Metrics.MeanSquaredError: the record stores the RMSE, `sqrt` of this value. The model keeps the MSE to stay within exact reals. Both are zero together and ordered alike.
- IEEE-754 floating point is replaced by exact reals. There is no rounding, overflow or signed zero. inf and NaN results of a division are represented as `None`.
- The fitting inside `ExponentialSmoothing(...).fit()` and `auto_arima(...)` is left out. These are foreign statistical libraries. Each is modelled as an arbitrary function of its settings, the training values and the horizon, which may fail.
- The ETS `steps` argument and the ARIMA `n_periods` argument are both the horizon. The model passes the horizon as each provider's third argument rather than as a setting.
- Harness.ProviderStage: a provider's forecast is taken as plain numbers. A provider that returned NaN would be rejected by `mean_squared_error`; this case is not modelled.
- Metrics.Smape: for the auto-ARIMA record, `y_pred = forecast` (`src/py/run.py:94`) is not converted with `.values`. If `predict` returns a pandas Series, the sMAPE expression at `src/py/run.py:99` is a Series. Its mean then skips NaN, so a 0/0 term is dropped rather than making the score undefined. The model applies the numpy-array semantics to all four records. Which case happens depends on the pmdarima version.
- Harness.SummaryRows: its sMAPE clause for the auto-ARIMA record (index 3) assumes the numpy-array semantics described in the line above.
- `run_salary` and `run_brent` are left out. They only call `run_model` with fixed arguments.
- `scripts/fetch_data.py` is left out. It performs HTTP downloads, sleeps, file appends and file hashing.
- `src/py/plot_forecasts.py` is left out. It is plotting over the written files.
