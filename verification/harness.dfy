/** `run_model`: one evaluation of one dataset. The cleaned series is split
    into a training prefix and a test window; four forecasts (naive,
    seasonal naive, exponential smoothing, auto-ARIMA) are produced in a
    fixed order; each is written to its own artifact and scored against the
    test values; the records are collected into the run's summary.

    Each step that raises in `run_model` ends the run: artifacts already
    written stay, and no summary is written. */
module Harness {
  import opened Results
  import opened Cells
  import opened Split
  import opened Baselines
  import opened Metrics
  import opened Providers

  /** One row of the cleaned input: a date and its numeric value. */
  datatype Observation = Observation(date: string, value: real)

  /** The arguments of `run_model` that shape the evaluation. */
  datatype RunConfig = RunConfig(name: string, horizon: int, seasonalPeriods: int, seasonal: bool)

  /** One row of a forecast file: a test date and the forecast for it. */
  datatype Row = Row(date: string, forecast: Value)

  /** A `forecast_{model}_{name}.csv` file. */
  datatype ForecastArtifact = ForecastArtifact(fileName: string, rows: seq<Row>)

  /** One summary row. The RMSE column is kept as its square, the MSE; the
      creation timestamp is not modelled. */
  datatype MetricRecord = MetricRecord(model: string, mse: real, mase: Option<real>, smape: Option<real>, horizon: int)

  /** What ends a run early:
      - `NoTrainingData`: `train["value"].iloc[-1]` on an empty prefix;
      - `ProviderFailed`: fitting or forecasting raised inside a provider;
      - `ForecastLengthMismatch`: a forecast whose length differs from the
        test window cannot be put beside the test dates;
      - `MetricFailed`: `mean_squared_error` rejected its input. */
  datatype RunError =
    | NoTrainingData
    | ProviderFailed(model: string)
    | ForecastLengthMismatch(model: string)
    | MetricFailed(model: string, reason: MetricError)

  /** One model's turn: its name and its forecast, or why none was made. */
  datatype Stage = Stage(model: string, forecast: Result<seq<Value>, RunError>)

  /** Everything a run leaves behind: the forecast files in the order they
      were written, and the summary, or the error that prevented it. */
  datatype RunOutcome = RunOutcome(artifacts: seq<ForecastArtifact>, summary: Result<seq<MetricRecord>, RunError>)

  /** The evaluation order, which is also the order of the summary rows. */
  const ModelOrder: seq<string> := ["naive", "seasonal_naive", "ets_add_add", "auto_arima"]

  function Values(obs: seq<Observation>): (xs: seq<real>)
    ensures |xs| == |obs|
    ensures forall i :: 0 <= i < |obs| ==> xs[i] == obs[i].value
  {
    seq(|obs|, i requires 0 <= i < |obs| => obs[i].value)
  }

  function Dates(obs: seq<Observation>): (ds: seq<string>)
    ensures |ds| == |obs|
    ensures forall i :: 0 <= i < |obs| ==> ds[i] == obs[i].date
  {
    seq(|obs|, i requires 0 <= i < |obs| => obs[i].date)
  }

  /** Taking the values commutes with the split. */
  lemma ValuesOfSplit(series: seq<Observation>, horizon: int)
    ensures Values(Train(series, horizon)) == Train(Values(series), horizon)
    ensures Values(Test(series, horizon)) == Test(Values(series), horizon)
  {
  }

  /** `f"forecast_{model_name}_{name}.csv"`: the model and dataset names
      between a fixed prefix and the extension. */
  function FileName(model: string, name: string): (f: string)
    ensures |f| == |model| + |name| + 14
    ensures f[..9] == "forecast_" && f[|f| - 4..] == ".csv"
    ensures f[9..9 + |model|] == model
    ensures f[9 + |model|] == '_'
    ensures f[10 + |model|..|f| - 4] == name
  {
    "forecast_" + model + "_" + name + ".csv"
  }

  /** The frame `save_forecast` writes: test dates beside forecasts. */
  function Rows(dates: seq<string>, forecast: seq<Value>): (rows: seq<Row>)
    requires |dates| == |forecast|
    ensures |rows| == |dates|
    ensures forall i :: 0 <= i < |rows| ==> rows[i].date == dates[i] && rows[i].forecast == forecast[i]
  {
    seq(|dates|, i requires 0 <= i < |dates| => Row(dates[i], forecast[i]))
  }

  /** The forecast column of a written file. */
  function ForecastColumn(a: ForecastArtifact): (vs: seq<Value>)
    ensures |vs| == |a.rows|
  {
    seq(|a.rows|, i requires 0 <= i < |a.rows| => a.rows[i].forecast)
  }

  /** The date column of a written file. */
  function DateColumn(a: ForecastArtifact): (ds: seq<string>)
    ensures |ds| == |a.rows|
  {
    seq(|a.rows|, i requires 0 <= i < |a.rows| => a.rows[i].date)
  }

  /** The file a stage writes, once its forecast fits beside the dates. */
  function ArtifactOf(st: Stage, name: string, dates: seq<string>): (a: ForecastArtifact)
    requires st.forecast.Ok? && |st.forecast.value| == |dates|
    ensures a.fileName == FileName(st.model, name)
    ensures ForecastColumn(a) == st.forecast.value
    ensures DateColumn(a) == dates
  {
    ForecastArtifact(FileName(st.model, name), Rows(dates, st.forecast.value))
  }

  /** A stage writes its file when it has a forecast of the right length. */
  ghost predicate Writes(st: Stage, dates: seq<string>)
  {
    st.forecast.Ok? && |st.forecast.value| == |dates|
  }

  /** A stage passes when it writes its file and its metrics are defined. */
  ghost predicate Passes(st: Stage, dates: seq<string>, yTrue: seq<real>, train: seq<real>)
  {
    Writes(st, dates) && Evaluate(yTrue, st.forecast.value, train).Ok?
  }

  /** The error a stage that does not pass ends the run with. */
  ghost function FailureOf(st: Stage, dates: seq<string>, yTrue: seq<real>, train: seq<real>): (e: RunError)
    requires !Passes(st, dates, yTrue, train)
  {
    if st.forecast.Err? then st.forecast.error
    else if |st.forecast.value| != |dates| then ForecastLengthMismatch(st.model)
    else MetricFailed(st.model, Evaluate(yTrue, st.forecast.value, train).error)
  }

  /** Every stage before `k` passes. */
  ghost predicate PassesBefore(stages: seq<Stage>, k: int, dates: seq<string>, yTrue: seq<real>, train: seq<real>)
    requires 0 <= k <= |stages|
  {
    forall j :: 0 <= j < k ==> Passes(stages[j], dates, yTrue, train)
  }

  /** The run stopped at stage `k`: every earlier stage passed, stage `k`
      failed, the run reports stage `k`'s error, and the files written are
      those of the earlier stages plus stage `k`'s own if it got that far. */
  ghost predicate StoppedAt(out: RunOutcome, stages: seq<Stage>, k: int, dates: seq<string>, yTrue: seq<real>, train: seq<real>)
  {
    && 0 <= k < |stages|
    && PassesBefore(stages, k, dates, yTrue, train)
    && !Passes(stages[k], dates, yTrue, train)
    && out.summary == Err(FailureOf(stages[k], dates, yTrue, train))
    && |out.artifacts| == (if Writes(stages[k], dates) then k + 1 else k)
  }

  /** The summary row of one model: its scores beside its name and the
      run's horizon. */
  function RecordOf(model: string, s: Scores, horizon: int): (r: MetricRecord)
  {
    MetricRecord(model, s.mse, s.mase, s.smape, horizon)
  }

  /** Every stage passes. */
  ghost predicate AllPass(stages: seq<Stage>, dates: seq<string>, yTrue: seq<real>, train: seq<real>)
  {
    forall i :: 0 <= i < |stages| ==> Passes(stages[i], dates, yTrue, train)
  }

  /** The files written are those of the first stages, one per stage, in
      stage order. */
  ghost predicate WrittenInOrder(out: RunOutcome, stages: seq<Stage>, name: string, dates: seq<string>)
  {
    && |out.artifacts| <= |stages|
    && forall i :: 0 <= i < |out.artifacts| ==>
         Writes(stages[i], dates) && out.artifacts[i] == ArtifactOf(stages[i], name, dates)
  }

  /** A written summary holds one record per stage, in stage order, from
      that stage's scores, and every stage wrote its file. */
  ghost predicate RecordedInOrder(out: RunOutcome, stages: seq<Stage>, dates: seq<string>, yTrue: seq<real>, train: seq<real>, horizon: int)
  {
    out.summary.Ok? ==>
      && |out.artifacts| == |stages|
      && |out.summary.value| == |stages|
      && forall i :: 0 <= i < |stages| ==>
           && Passes(stages[i], dates, yTrue, train)
           && out.summary.value[i] == RecordOf(stages[i].model, Evaluate(yTrue, stages[i].forecast.value, train).value, horizon)
  }

  /** `out` is what running `stages` in order leaves behind: a summary
      exactly when every stage passes, the files in stage order, the records
      in stage order, and otherwise the first failing stage's error. */
  ghost predicate Describes(out: RunOutcome, stages: seq<Stage>, name: string, dates: seq<string>, yTrue: seq<real>, train: seq<real>, horizon: int)
  {
    && (out.summary.Ok? <==> AllPass(stages, dates, yTrue, train))
    && WrittenInOrder(out, stages, name, dates)
    && RecordedInOrder(out, stages, dates, yTrue, train, horizon)
    && (out.summary.Err? ==> exists k :: StoppedAt(out, stages, k, dates, yTrue, train))
  }

  /** Runs the stages in order: write the forecast file, score it, append
      the record; the first stage that fails ends the run with its error,
      after its own file when that was already written. */
  function RunStages(stages: seq<Stage>, name: string, dates: seq<string>, yTrue: seq<real>, train: seq<real>, horizon: int)
    : (out: RunOutcome)
    ensures Describes(out, stages, name, dates, yTrue, train, horizon)
  {
    if |stages| == 0 then RunOutcome([], Ok([]))
    else
      var st := stages[0];
      match st.forecast
      case Err(e) =>
        var out := RunOutcome([], Err(e));
        StoppedFirst(out, stages, name, dates, yTrue, train, horizon);
        out
      case Ok(forecast) =>
        if |forecast| != |dates| then
          var out := RunOutcome([], Err(ForecastLengthMismatch(st.model)));
          StoppedFirst(out, stages, name, dates, yTrue, train, horizon);
          out
        else
          var written := ArtifactOf(st, name, dates);
          match Evaluate(yTrue, forecast, train)
          case Err(reason) =>
            var out := RunOutcome([written], Err(MetricFailed(st.model, reason)));
            StoppedFirst(out, stages, name, dates, yTrue, train, horizon);
            out
          case Ok(scores) =>
            var rest := RunStages(stages[1..], name, dates, yTrue, train, horizon);
            var out := RunOutcome(
              [written] + rest.artifacts,
              if rest.summary.Ok? then Ok([RecordOf(st.model, scores, horizon)] + rest.summary.value)
              else rest.summary);
            PassedFirst(rest, out, stages, name, dates, yTrue, train, horizon);
            out
  }

  /** A run that ends at the first stage, with that stage's error and its
      file if it wrote one, is described by the stages. */
  lemma StoppedFirst(out: RunOutcome, stages: seq<Stage>, name: string, dates: seq<string>, yTrue: seq<real>, train: seq<real>, horizon: int)
    requires |stages| > 0
    requires !Passes(stages[0], dates, yTrue, train)
    requires out.summary == Err(FailureOf(stages[0], dates, yTrue, train))
    requires out.artifacts == if Writes(stages[0], dates) then [ArtifactOf(stages[0], name, dates)] else []
    ensures Describes(out, stages, name, dates, yTrue, train, horizon)
  {
    assert StoppedAt(out, stages, 0, dates, yTrue, train);
  }

  /** One stage that passed, written and recorded in front of the outcome
      of the remaining stages, gives the outcome of all the stages. */
  lemma PassedFirst(rest: RunOutcome, out: RunOutcome, stages: seq<Stage>, name: string, dates: seq<string>, yTrue: seq<real>, train: seq<real>, horizon: int)
    requires |stages| > 0
    requires Passes(stages[0], dates, yTrue, train)
    requires Describes(rest, stages[1..], name, dates, yTrue, train, horizon)
    requires out.artifacts == [ArtifactOf(stages[0], name, dates)] + rest.artifacts
    requires out.summary == if rest.summary.Ok?
      then Ok([RecordOf(stages[0].model, Evaluate(yTrue, stages[0].forecast.value, train).value, horizon)] + rest.summary.value)
      else rest.summary
    ensures Describes(out, stages, name, dates, yTrue, train, horizon)
  {
    assert forall i :: 1 <= i < |stages| ==> stages[1..][i - 1] == stages[i];
    assert AllPass(stages, dates, yTrue, train) <==> AllPass(stages[1..], dates, yTrue, train) by {
      if AllPass(stages[1..], dates, yTrue, train) {
        forall i | 0 <= i < |stages| ensures Passes(stages[i], dates, yTrue, train) {
          if i > 0 {
            assert Passes(stages[1..][i - 1], dates, yTrue, train);
          }
        }
      }
    }
    PassedFirstWritten(rest, out, stages, name, dates);
    PassedFirstRecorded(rest, out, stages, name, dates, yTrue, train, horizon);
    if out.summary.Err? {
      StoppedLater(rest, out, stages, dates, yTrue, train);
    }
  }

  lemma PassedFirstWritten(rest: RunOutcome, out: RunOutcome, stages: seq<Stage>, name: string, dates: seq<string>)
    requires |stages| > 0
    requires Writes(stages[0], dates)
    requires WrittenInOrder(rest, stages[1..], name, dates)
    requires out.artifacts == [ArtifactOf(stages[0], name, dates)] + rest.artifacts
    ensures WrittenInOrder(out, stages, name, dates)
  {
    forall i | 0 <= i < |out.artifacts|
      ensures Writes(stages[i], dates) && out.artifacts[i] == ArtifactOf(stages[i], name, dates)
    {
      if i > 0 {
        assert out.artifacts[i] == rest.artifacts[i - 1];
        assert stages[1..][i - 1] == stages[i];
      }
    }
  }

  lemma PassedFirstRecorded(rest: RunOutcome, out: RunOutcome, stages: seq<Stage>, name: string, dates: seq<string>, yTrue: seq<real>, train: seq<real>, horizon: int)
    requires |stages| > 0
    requires Passes(stages[0], dates, yTrue, train)
    requires RecordedInOrder(rest, stages[1..], dates, yTrue, train, horizon)
    requires |out.artifacts| == |rest.artifacts| + 1
    requires out.summary == if rest.summary.Ok?
      then Ok([RecordOf(stages[0].model, Evaluate(yTrue, stages[0].forecast.value, train).value, horizon)] + rest.summary.value)
      else rest.summary
    ensures RecordedInOrder(out, stages, dates, yTrue, train, horizon)
  {
    if out.summary.Ok? {
      var records := out.summary.value;
      forall i | 0 <= i < |stages|
        ensures && Passes(stages[i], dates, yTrue, train)
                && records[i] == RecordOf(stages[i].model, Evaluate(yTrue, stages[i].forecast.value, train).value, horizon)
      {
        if i > 0 {
          assert records[i] == rest.summary.value[i - 1];
          assert stages[1..][i - 1] == stages[i];
        }
      }
    }
  }

  /** A run that stopped at stage `k` of the remaining stages, behind one
      stage that passed and wrote one file, stopped at stage `k + 1`. */
  lemma StoppedLater(rest: RunOutcome, out: RunOutcome, stages: seq<Stage>, dates: seq<string>, yTrue: seq<real>, train: seq<real>)
    requires |stages| > 0
    requires Passes(stages[0], dates, yTrue, train)
    requires exists k :: StoppedAt(rest, stages[1..], k, dates, yTrue, train)
    requires out.summary == rest.summary
    requires |out.artifacts| == |rest.artifacts| + 1
    ensures exists k :: StoppedAt(out, stages, k, dates, yTrue, train)
  {
    var k :| StoppedAt(rest, stages[1..], k, dates, yTrue, train);
    assert stages[1..][k] == stages[k + 1];
    assert PassesBefore(stages, k + 1, dates, yTrue, train) by {
      forall j | 0 <= j < k + 1 ensures Passes(stages[j], dates, yTrue, train) {
        if j > 0 {
          assert stages[1..][j - 1] == stages[j];
        }
      }
    }
    assert StoppedAt(out, stages, k + 1, dates, yTrue, train);
  }

  /** The naive model's turn: `NoTrainingData` when `iloc[-1]` finds no
      training value. */
  function NaiveStage(train: seq<real>, testLength: nat): (st: Stage)
    ensures st.model == "naive"
    ensures st.forecast.Ok? <==> |train| > 0
    ensures st.forecast.Ok? ==> st.forecast.value == Lift(Naive(train, testLength).value)
    ensures st.forecast.Err? ==> st.forecast.error == NoTrainingData
  {
    match Naive(train, testLength)
    case Some(p) => Stage("naive", Ok(Lift(p)))
    case None => Stage("naive", Err(NoTrainingData))
  }

  /** A provider's turn: its point forecasts, or `ProviderFailed` naming it
      when fitting or forecasting raised. */
  function ProviderStage(model: string, result: Option<seq<real>>): (st: Stage)
    ensures st.model == model
    ensures st.forecast.Ok? <==> result.Some?
    ensures result.Some? ==> st.forecast.value == Lift(result.value)
    ensures result.None? ==> st.forecast.error == ProviderFailed(model)
  {
    match result
    case Some(p) => Stage(model, Ok(Lift(p)))
    case None => Stage(model, Err(ProviderFailed(model)))
  }

  /** The four files of one run have four different names, so none
      overwrites another. */
  lemma FileNamesDistinct(name: string)
    ensures forall i, j :: 0 <= i < j < |ModelOrder| ==> FileName(ModelOrder[i], name) != FileName(ModelOrder[j], name)
  {
    forall i, j | 0 <= i < j < |ModelOrder|
      ensures FileName(ModelOrder[i], name) != FileName(ModelOrder[j], name)
    {
      assert |ModelOrder[i]| != |ModelOrder[j]|;
    }
  }

  /** The forecast `run_model` makes for each model, in evaluation order.
      Both providers are handed the training values only. */
  function Stages(cfg: RunConfig, series: seq<Observation>, ets: EtsProvider, arima: ArimaProvider): (stages: seq<Stage>)
    ensures |stages| == |ModelOrder|
    ensures forall i :: 0 <= i < |stages| ==> stages[i].model == ModelOrder[i]
  {
    var train := TrainValues(cfg, series);
    [ NaiveStage(train, |Test(series, cfg.horizon)|),
      Stage("seasonal_naive", Ok(SeasonalNaive(Values(series), cfg.horizon, cfg.seasonalPeriods))),
      ProviderStage("ets_add_add", ets(EtsSettings(cfg.seasonal, cfg.seasonalPeriods), train, cfg.horizon)),
      ProviderStage("auto_arima", arima(ArimaSettings(cfg.seasonal, cfg.seasonalPeriods), train, cfg.horizon)) ]
  }

  /** `run_model` on an already cleaned series. */
  function RunModel(cfg: RunConfig, series: seq<Observation>, ets: EtsProvider, arima: ArimaProvider): (out: RunOutcome)
    ensures out.summary.Ok? ==>
      && |out.summary.value| == |ModelOrder|
      && forall i :: 0 <= i < |ModelOrder| ==>
           out.summary.value[i].model == ModelOrder[i] && out.summary.value[i].horizon == cfg.horizon
    ensures |out.artifacts| <= |ModelOrder|
    ensures out.summary.Ok? ==> |out.artifacts| == |ModelOrder|
    ensures forall i :: 0 <= i < |out.artifacts| ==>
      && out.artifacts[i].fileName == FileName(ModelOrder[i], cfg.name)
      && DateColumn(out.artifacts[i]) == Dates(Test(series, cfg.horizon))
  {
    var stages := Stages(cfg, series, ets, arima);
    var dates := Dates(Test(series, cfg.horizon));
    var yTrue, train := TestValues(cfg, series), TrainValues(cfg, series);
    var out := RunStages(stages, cfg.name, dates, yTrue, train, cfg.horizon);
    ModelsInOrder(out, stages, cfg.name, dates, yTrue, train, cfg.horizon);
    out
  }

  /** Running stages named as `ModelOrder` gives records and files named
      in that order, the files holding the given dates. */
  lemma ModelsInOrder(out: RunOutcome, stages: seq<Stage>, name: string, dates: seq<string>, yTrue: seq<real>, train: seq<real>, horizon: int)
    requires Describes(out, stages, name, dates, yTrue, train, horizon)
    requires |stages| == |ModelOrder|
    requires forall i :: 0 <= i < |stages| ==> stages[i].model == ModelOrder[i]
    ensures out.summary.Ok? ==>
      && |out.summary.value| == |ModelOrder|
      && forall i :: 0 <= i < |ModelOrder| ==>
           out.summary.value[i].model == ModelOrder[i] && out.summary.value[i].horizon == horizon
    ensures |out.artifacts| <= |ModelOrder|
    ensures out.summary.Ok? ==> |out.artifacts| == |ModelOrder|
    ensures forall i :: 0 <= i < |out.artifacts| ==>
      && out.artifacts[i].fileName == FileName(ModelOrder[i], name)
      && DateColumn(out.artifacts[i]) == dates
  {
    assert WrittenInOrder(out, stages, name, dates);
    assert RecordedInOrder(out, stages, dates, yTrue, train, horizon);
  }

  /** The run ends with `NoTrainingData` exactly when the training prefix is
      empty (an empty series, a zero horizon, or a horizon reaching the whole
      series), and then before any file is written. */
  lemma NoTrainingDataAborts(cfg: RunConfig, series: seq<Observation>, ets: EtsProvider, arima: ArimaProvider)
    ensures RunModel(cfg, series, ets, arima).summary == Err(NoTrainingData)
        <==> |Train(series, cfg.horizon)| == 0
    ensures |Train(series, cfg.horizon)| == 0 ==> RunModel(cfg, series, ets, arima).artifacts == []
  {
    var stages := Stages(cfg, series, ets, arima);
    var test := Test(series, cfg.horizon);
    var dates, yTrue, train := Dates(test), TestValues(cfg, series), TrainValues(cfg, series);
    OnlyNaiveLacksTraining(cfg, series, ets, arima);
    OnlyFirstLacksTraining(RunStages(stages, cfg.name, dates, yTrue, train, cfg.horizon),
                           stages, cfg.name, dates, yTrue, train, cfg.horizon);
  }

  /** Of the four stages only the naive one fails for want of training
      data, and it does exactly when the training prefix is empty. */
  lemma OnlyNaiveLacksTraining(cfg: RunConfig, series: seq<Observation>, ets: EtsProvider, arima: ArimaProvider)
    ensures var stages := Stages(cfg, series, ets, arima);
      && (stages[0].forecast == Err(NoTrainingData) <==> |Train(series, cfg.horizon)| == 0)
      && forall i :: 0 < i < |stages| && stages[i].forecast.Err? ==> !stages[i].forecast.error.NoTrainingData?
  {
    var stages := Stages(cfg, series, ets, arima);
    forall i | 0 < i < |stages| && stages[i].forecast.Err?
      ensures !stages[i].forecast.error.NoTrainingData?
    {
      assert i == 2 || i == 3;
    }
  }

  /** When only the first stage can fail for want of training data, the
      run fails that way exactly when the first stage does, and then before
      writing anything. */
  lemma OnlyFirstLacksTraining(out: RunOutcome, stages: seq<Stage>, name: string, dates: seq<string>, yTrue: seq<real>, train: seq<real>, horizon: int)
    requires Describes(out, stages, name, dates, yTrue, train, horizon)
    requires |stages| > 0
    requires forall i :: 0 < i < |stages| && stages[i].forecast.Err? ==> !stages[i].forecast.error.NoTrainingData?
    ensures out.summary == Err(NoTrainingData) <==> stages[0].forecast == Err(NoTrainingData)
    ensures stages[0].forecast == Err(NoTrainingData) ==> out.artifacts == []
  {
    if out.summary.Err? {
      var k :| StoppedAt(out, stages, k, dates, yTrue, train);
      if k > 0 {
        assert Passes(stages[0], dates, yTrue, train);
      }
    } else {
      assert Passes(stages[0], dates, yTrue, train);
    }
  }

  /** The actual values of a run's test window. */
  function TestValues(cfg: RunConfig, series: seq<Observation>): (ys: seq<real>)
    ensures ys == Test(Values(series), cfg.horizon)
  {
    ValuesOfSplit(series, cfg.horizon);
    Values(Test(series, cfg.horizon))
  }

  /** The values of a run's training prefix, the only data the forecasters
      are fitted on. */
  function TrainValues(cfg: RunConfig, series: seq<Observation>): (xs: seq<real>)
    ensures xs == Train(Values(series), cfg.horizon)
  {
    ValuesOfSplit(series, cfg.horizon);
    Values(Train(series, cfg.horizon))
  }

  /** The `i`-th file written holds the `i`-th model's forecast. */
  lemma ArtifactIsStageForecast(cfg: RunConfig, series: seq<Observation>, ets: EtsProvider, arima: ArimaProvider, i: nat)
    ensures i < |RunModel(cfg, series, ets, arima).artifacts| ==>
      && Stages(cfg, series, ets, arima)[i].forecast.Ok?
      && ForecastColumn(RunModel(cfg, series, ets, arima).artifacts[i])
         == Stages(cfg, series, ets, arima)[i].forecast.value
  {
    if i < |RunModel(cfg, series, ets, arima).artifacts| {
      var stages := Stages(cfg, series, ets, arima);
      var dates := Dates(Test(series, cfg.horizon));
      assert Writes(stages[i], dates);
    }
  }

  /** The baseline files hold the repeated last training value and the
      lagged series. */
  lemma BaselineArtifacts(cfg: RunConfig, series: seq<Observation>, ets: EtsProvider, arima: ArimaProvider)
    ensures var out := RunModel(cfg, series, ets, arima);
      && (|out.artifacts| > 0 ==>
            && |TrainValues(cfg, series)| > 0
            && ForecastColumn(out.artifacts[0])
               == Lift(Naive(TrainValues(cfg, series), |Test(series, cfg.horizon)|).value))
      && (|out.artifacts| > 1 ==>
            ForecastColumn(out.artifacts[1]) == SeasonalNaive(Values(series), cfg.horizon, cfg.seasonalPeriods))
  {
    var out := RunModel(cfg, series, ets, arima);
    if |out.artifacts| > 0 {
      ArtifactIsStageForecast(cfg, series, ets, arima, 0);
    }
    if |out.artifacts| > 1 {
      ArtifactIsStageForecast(cfg, series, ets, arima, 1);
    }
  }

  /** The provider files hold what each provider returned when called with
      its settings on the training values. */
  lemma ProviderArtifacts(cfg: RunConfig, series: seq<Observation>, ets: EtsProvider, arima: ArimaProvider)
    ensures var out := RunModel(cfg, series, ets, arima);
      && (|out.artifacts| > 2 ==>
            var p := ets(EtsSettings(cfg.seasonal, cfg.seasonalPeriods), TrainValues(cfg, series), cfg.horizon);
            p.Some? && ForecastColumn(out.artifacts[2]) == Lift(p.value))
      && (|out.artifacts| > 3 ==>
            var p := arima(ArimaSettings(cfg.seasonal, cfg.seasonalPeriods), TrainValues(cfg, series), cfg.horizon);
            p.Some? && ForecastColumn(out.artifacts[3]) == Lift(p.value))
  {
    var out := RunModel(cfg, series, ets, arima);
    if |out.artifacts| > 2 {
      ArtifactIsStageForecast(cfg, series, ets, arima, 2);
    }
    if |out.artifacts| > 3 {
      ArtifactIsStageForecast(cfg, series, ets, arima, 3);
    }
  }

  /** A run writes its summary exactly when the training prefix and the
      test window are non-empty, the lagged series has a value at every
      test position, and both providers succeed with one forecast per test
      position. */
  lemma RunSucceedsIff(cfg: RunConfig, series: seq<Observation>, ets: EtsProvider, arima: ArimaProvider)
    ensures RunModel(cfg, series, ets, arima).summary.Ok? <==>
      var train := TrainValues(cfg, series);
      var n := |Test(series, cfg.horizon)|;
      var e := ets(EtsSettings(cfg.seasonal, cfg.seasonalPeriods), train, cfg.horizon);
      var a := arima(ArimaSettings(cfg.seasonal, cfg.seasonalPeriods), train, cfg.horizon);
      && |train| > 0
      && n > 0
      && AllNumbers(SeasonalNaive(Values(series), cfg.horizon, cfg.seasonalPeriods))
      && e.Some? && |e.value| == n
      && a.Some? && |a.value| == n
  {
    var stages := Stages(cfg, series, ets, arima);
    var test := Test(series, cfg.horizon);
    var dates, yTrue, train := Dates(test), TestValues(cfg, series), TrainValues(cfg, series);
    var n := |test|;
    assert |dates| == n && |yTrue| == n;
    StagePasses(stages[0], dates, yTrue, train);
    StagePasses(stages[1], dates, yTrue, train);
    StagePasses(stages[2], dates, yTrue, train);
    StagePasses(stages[3], dates, yTrue, train);
    AllPassFour(stages, dates, yTrue, train);
  }

  /** Whether a stage passes depends only on its forecast's shape: it
      exists, it fits beside the dates, there is at least one actual value
      to score against, and it holds no NaN. */
  lemma StagePasses(st: Stage, dates: seq<string>, yTrue: seq<real>, train: seq<real>)
    requires |dates| == |yTrue|
    ensures Passes(st, dates, yTrue, train)
        <==> st.forecast.Ok? && |st.forecast.value| == |dates| > 0 && AllNumbers(st.forecast.value)
  {
  }

  lemma AllPassFour(stages: seq<Stage>, dates: seq<string>, yTrue: seq<real>, train: seq<real>)
    requires |stages| == 4
    ensures AllPass(stages, dates, yTrue, train)
      <==> (Passes(stages[0], dates, yTrue, train) && Passes(stages[1], dates, yTrue, train)
            && Passes(stages[2], dates, yTrue, train) && Passes(stages[3], dates, yTrue, train))
  {
    if Passes(stages[0], dates, yTrue, train) && Passes(stages[1], dates, yTrue, train)
       && Passes(stages[2], dates, yTrue, train) && Passes(stages[3], dates, yTrue, train)
    {
      forall i | 0 <= i < |stages| ensures Passes(stages[i], dates, yTrue, train) {
        if i == 0 {
        } else if i == 1 {
        } else if i == 2 {
        } else {
          assert i == 3;
        }
      }
    }
  }

  /** What every summary row says about the forecast in the file of the same
      model: the MSE is non-negative and zero exactly on a perfect forecast;
      the MASE is that forecast's mean absolute error over the one training
      scale shared by all rows, and is defined exactly when that scale is
      positive; the sMAPE is undefined exactly when some actual and forecast
      value are both zero, and otherwise lies in `[0, 200]`. */
  lemma SummaryRows(cfg: RunConfig, series: seq<Observation>, ets: EtsProvider, arima: ArimaProvider, i: nat)
    ensures var out := RunModel(cfg, series, ets, arima);
      out.summary.Ok? && i < |ModelOrder| ==>
      var yTrue := TestValues(cfg, series);
      var scale := MaseScale(TrainValues(cfg, series));
      var f := ForecastColumn(out.artifacts[i]);
      var r := out.summary.value[i];
      && |f| == |yTrue| > 0
      && AllNumbers(f)
      && r.mse >= 0.0
      && (r.mse == 0.0 <==> f == Lift(yTrue))
      && (r.mase.Some? <==> scale.Some? && scale.value > 0.0)
      && (r.mase.Some? ==> r.mase.value == MeanAbsoluteError(yTrue, Numbers(f)) / scale.value)
      && (r.smape.None? <==> HasZeroPair(yTrue, Numbers(f)))
      && (r.smape.Some? ==> 0.0 <= r.smape.value <= 200.0)
  {
    var out := RunModel(cfg, series, ets, arima);
    if out.summary.Ok? && i < |ModelOrder| {
      var stages := Stages(cfg, series, ets, arima);
      var test := Test(series, cfg.horizon);
      var dates, yTrue, train := Dates(test), TestValues(cfg, series), TrainValues(cfg, series);
      assert Passes(stages[i], dates, yTrue, train);
      assert ForecastColumn(out.artifacts[i]) == stages[i].forecast.value;
    }
  }

  /** With fewer than two training values, or a constant training prefix,
      the shared MASE scale is unusable and no summary row has a MASE. */
  lemma DegenerateScaleLeavesMaseUndefined(cfg: RunConfig, series: seq<Observation>, ets: EtsProvider, arima: ArimaProvider)
    ensures (RunModel(cfg, series, ets, arima).summary.Ok?
             && (|TrainValues(cfg, series)| < 2 || IsConstant(TrainValues(cfg, series)))) ==>
      forall i :: 0 <= i < |ModelOrder| ==> RunModel(cfg, series, ets, arima).summary.value[i].mase.None?
  {
    var out := RunModel(cfg, series, ets, arima);
    if out.summary.Ok? && (|TrainValues(cfg, series)| < 2 || IsConstant(TrainValues(cfg, series))) {
      forall i | 0 <= i < |ModelOrder| ensures out.summary.value[i].mase.None? {
        SummaryRows(cfg, series, ets, arima, i);
      }
    }
  }

  /** The providers are only ever called on the training values: two pairs
      of providers that agree on that one call give identical runs. */
  lemma ProvidersSeeOnlyTrain(cfg: RunConfig, series: seq<Observation>,
                              ets1: EtsProvider, arima1: ArimaProvider,
                              ets2: EtsProvider, arima2: ArimaProvider)
    requires var train := TrainValues(cfg, series);
      && ets1(EtsSettings(cfg.seasonal, cfg.seasonalPeriods), train, cfg.horizon)
         == ets2(EtsSettings(cfg.seasonal, cfg.seasonalPeriods), train, cfg.horizon)
      && arima1(ArimaSettings(cfg.seasonal, cfg.seasonalPeriods), train, cfg.horizon)
         == arima2(ArimaSettings(cfg.seasonal, cfg.seasonalPeriods), train, cfg.horizon)
    ensures RunModel(cfg, series, ets1, arima1) == RunModel(cfg, series, ets2, arima2)
  {
    assert Stages(cfg, series, ets1, arima1) == Stages(cfg, series, ets2, arima2);
  }

  /** Two series of the same length with the same training prefix get the
      same naive and provider forecasts, whatever their test values; the
      seasonal-naive forecast is the same too when the test window is no
      longer than the season. */
  lemma ForecastsIgnoreTestValues(cfg: RunConfig, s1: seq<Observation>, s2: seq<Observation>,
                                  ets: EtsProvider, arima: ArimaProvider)
    requires |s1| == |s2|
    requires Train(s1, cfg.horizon) == Train(s2, cfg.horizon)
    ensures var st1, st2 := Stages(cfg, s1, ets, arima), Stages(cfg, s2, ets, arima);
      && st1[0] == st2[0]
      && st1[2] == st2[2]
      && st1[3] == st2[3]
      && (|Test(s1, cfg.horizon)| <= cfg.seasonalPeriods ==> st1[1] == st2[1])
  {
    var v1, v2 := Values(s1), Values(s2);
    var k := CutPoint(|s1|, cfg.horizon);
    if |Test(s1, cfg.horizon)| <= cfg.seasonalPeriods {
      var f1 := SeasonalNaive(v1, cfg.horizon, cfg.seasonalPeriods);
      var f2 := SeasonalNaive(v2, cfg.horizon, cfg.seasonalPeriods);
      forall i | 0 <= i < |f1| ensures f1[i] == f2[i] {
        var j := k - cfg.seasonalPeriods + i;
        if 0 <= j < |v1| {
          assert v1[j] == Train(s1, cfg.horizon)[j].value;
          assert v2[j] == Train(s2, cfg.horizon)[j].value;
        }
      }
      assert f1 == f2;
    }
  }
}
