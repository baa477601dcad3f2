/** The settings `run_model` hands to the two statistical model providers,
    `statsmodels`' `ExponentialSmoothing` and `pmdarima`'s `auto_arima`.
    Their fitting is not modelled: a provider is an arbitrary function of
    its settings, the training values and the number of steps, which may
    fail. */
module Providers {
  import opened Results

  datatype Component = Additive
  datatype Initialization = Estimated

  /** Keyword arguments of `ExponentialSmoothing(...)`. */
  datatype EtsConfig = EtsConfig(
    trend: Component,
    seasonal: Option<Component>,
    seasonalPeriods: Option<int>,
    initialization: Initialization)

  /** Keyword arguments of `auto_arima(...)`; `ignoreErrors` is
      `error_action='ignore'`. */
  datatype ArimaConfig = ArimaConfig(
    seasonal: bool,
    m: int,
    stepwise: bool,
    suppressWarnings: bool,
    ignoreErrors: bool)

  /** A fitted-and-forecast provider call: settings, training values and
      number of steps in, point forecasts out, or `None` when fitting or
      forecasting raises. */
  type EtsProvider = (EtsConfig, seq<real>, int) -> Option<seq<real>>
  type ArimaProvider = (ArimaConfig, seq<real>, int) -> Option<seq<real>>

  /** Exponential smoothing always gets an additive trend; it gets an
      additive seasonal component with the seasonal period only when the
      dataset is seasonal. */
  function EtsSettings(seasonal: bool, seasonalPeriods: int): (c: EtsConfig)
    ensures c.trend == Additive
    ensures c.initialization == Estimated
    ensures c.seasonal.Some? <==> seasonal
    ensures c.seasonalPeriods.Some? <==> seasonal
    ensures seasonal ==> c.seasonalPeriods.value == seasonalPeriods
  {
    EtsConfig(
      Additive,
      if seasonal then Some(Additive) else None,
      if seasonal then Some(seasonalPeriods) else None,
      Estimated)
  }

  /** Auto-ARIMA searches seasonally exactly when the dataset is seasonal,
      with period `seasonalPeriods` then and 1 otherwise. */
  function ArimaSettings(seasonal: bool, seasonalPeriods: int): (c: ArimaConfig)
    ensures c.seasonal == seasonal
    ensures seasonal ==> c.m == seasonalPeriods
    ensures !seasonal ==> c.m == 1
    ensures c.stepwise && c.suppressWarnings && c.ignoreErrors
  {
    ArimaConfig(seasonal, if seasonal then seasonalPeriods else 1, true, true, true)
  }

  /** The two providers are configured consistently: both model
      seasonality or neither does, and ARIMA's period is the smoothing
      period, or 1 when there is none. */
  lemma SettingsAgree(seasonal: bool, seasonalPeriods: int)
    ensures EtsSettings(seasonal, seasonalPeriods).seasonal.Some? == ArimaSettings(seasonal, seasonalPeriods).seasonal
    ensures var periods := EtsSettings(seasonal, seasonalPeriods).seasonalPeriods;
      ArimaSettings(seasonal, seasonalPeriods).m == (if periods.Some? then periods.value else 1)
  {
  }
}
