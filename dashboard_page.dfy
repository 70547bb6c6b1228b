/** The dashboard page wired to the monthly forecaster: what the KPI and the
    portfolio chart of pages/1_Dashboard.py inherit from the contract of
    `predict_with_lstm_for_product`. */
module DashboardPage {
  import opened Base
  import opened Sales
  import opened Dashboard
  import Forecaster

  /** `predict_with_lstm_for_product(df, prod, horizon)` with its default
      scenario, as the page calls it. */
  function Predictor(model: Forecaster.Model, num: Forecaster.Numerics, t: Table, horizon: int): string -> Result<seq<int>>
  {
    p => Forecaster.Forecast(model, num, Forecaster.Scenario(None, None), t, p, horizon)
  }

  /** The page's forecasts are `horizon` values that are never negative, so
      the chart can place them all, the KPI unit total is not negative, and
      on the page's table the chart adds up to it. */
  lemma PageForecasts(model: Forecaster.Model, num: Forecaster.Numerics, t: Table, ps: seq<string>, horizon: nat)
    requires forall i :: 0 <= i < |t.rows| ==> Parsed(t.rows[i])
    requires forall i :: 0 <= i < |t.rows| ==> t.rows[i].profitUnit.Some? ==> t.rows[i].profitUnit.value >= 0.0
    ensures forall p :: Predictor(model, num, t, horizon)(p).Ok? ==> |Predictor(model, num, t, horizon)(p).value| == horizon
    ensures KpiUnits(t, ps, Predictor(model, num, t, horizon)) >= 0
    ensures KpiProfit(t, ps, Predictor(model, num, t, horizon)) >= 0.0
    ensures PlannedUnits(Plans(t, ps, Predictor(model, num, t, horizon)), horizon) == KpiUnits(t, ps, Predictor(model, num, t, horizon))
  {
    var predict := Predictor(model, num, t, horizon);
    forall p | predict(p).Ok?
      ensures |predict(p).value| == horizon
      ensures forall k :: 0 <= k < |predict(p).value| ==> predict(p).value[k] >= 0
    {
      Forecaster.ForecastOutcome(model, num, Forecaster.Scenario(None, None), t, p, horizon);
    }
    KpiNonNegative(t, ps, predict);
    ChartMatchesKpi(t, ps, predict, horizon);
  }
}
