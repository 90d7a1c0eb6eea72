/** The forecast blender: a 24-hour occupancy forecast from the hospital's
    regression model when there is one, or from a fixed heuristic offset;
    and the 80/60 risk bands that classify a forecast. */
module Forecast {
  import opened Wrappers
  import opened Rounding

  /** What one call of the model's predict operation does: it raises, or it
      returns a finite number. A non-finite number makes `round` raise, so
      it is the `Raised` case too. */
  datatype Prediction = Raised | Returned(value: real)

  /** A loaded model, as the function from a feature vector to its result. */
  type Model = seq<int> -> Prediction

  /** Placeholder pediatrics count sent to the model. */
  const PediatricsPlaceholder := 25
  /** Placeholder holiday flag sent to the model. */
  const HolidayPlaceholder := 0
  /** Offset added to the occupancy when the model call raises. */
  const FailedModelOffset := 5
  /** Offset added to the occupancy when there is no model. */
  const NoModelOffset := 8

  function Min(a: int, b: int): int { if a <= b then a else b }
  function Max(a: int, b: int): int { if a <= b then b else a }

  /** The seven features, in the order the model was trained on. */
  function FeatureVector(totalPatients: int, emergencyOccupied: int, uciOccupied: int,
                         uciTotal: int, weekend: bool): (v: seq<int>)
    ensures |v| == 7
  {
    [totalPatients, emergencyOccupied, PediatricsPlaceholder, uciOccupied, uciTotal,
     HolidayPlaceholder, if weekend then 1 else 0]
  }

  /** The 24-hour forecast: the model's value rounded and clamped to
      [0, 100]; occupancy + 5 capped at 100 when the call raises; occupancy
      + 8 capped at 100 when there is no model. */
  function Forecast24h(occupancy: int, features: seq<int>, model: Option<Model>): (p: int)
    ensures p <= 100
    ensures model.None? ==> p == Min(100, occupancy + NoModelOffset)
    ensures model.Some? && model.value(features).Raised? ==>
      p == Min(100, occupancy + FailedModelOffset)
    ensures model.Some? && model.value(features).Returned? ==>
      var v := model.value(features).value;
      && 0 <= p <= 100
      && (v < 0.0 ==> p == 0)
      && (v > 100.0 ==> p == 100)
      && (0.0 <= v <= 100.0 ==> p == RoundHalfEven(v))
      && (0.0 <= v <= 100.0 ==> p as real - 0.5 <= v <= p as real + 0.5)
  {
    match model
    case None => Min(100, occupancy + NoModelOffset)
    case Some(predict) =>
      match predict(features)
      case Raised => Min(100, occupancy + FailedModelOffset)
      case Returned(v) =>
        var n := RoundHalfEven(v);
        assert 0.0 <= v <= 100.0 ==> 0 <= n <= 100 by {
          if 0.0 <= v <= 100.0 {
            RoundWithin(v, 0, 100);
          }
        }
        Min(100, Max(0, n))
  }

  /** Whatever the model does, a non-negative occupancy gives a forecast in
      [0, 100]. */
  lemma ForecastInRange(occupancy: int, features: seq<int>, model: Option<Model>)
    requires occupancy >= 0
    ensures 0 <= Forecast24h(occupancy, features, model) <= 100
  {
  }

  /** The heuristic fallbacks never forecast a fall: below the cap they add
      their offset, and an occupancy of at most 100 is never lowered. */
  lemma HeuristicNeverFalls(occupancy: int, features: seq<int>, model: Option<Model>)
    requires occupancy <= 100
    requires model.None? || model.value(features).Raised?
    ensures Forecast24h(occupancy, features, model) >= occupancy
  {
  }

  /** A model value that is already a percentage is passed through. */
  lemma ModelValueKept(occupancy: int, features: seq<int>, model: Option<Model>, k: int)
    requires 0 <= k <= 100
    requires model.Some? && model.value(features) == Returned(k as real)
    ensures Forecast24h(occupancy, features, model) == k
  {
    RoundOfInteger(k);
  }

  /** Worked example: 80% occupancy with no model forecasts 88%. */
  lemma NoModelExample(features: seq<int>)
    ensures Forecast24h(80, features, None) == 88
  {
  }

  /** Risk band of a 24-hour forecast, thresholds 80 and 60. */
  datatype Band = High | Moderate | Low

  function RiskBand(forecast: int): (b: Band)
    ensures b == High <==> forecast >= 80
    ensures b == Moderate <==> 60 <= forecast < 80
    ensures b == Low <==> forecast < 60
  {
    if forecast >= 80 then High
    else if forecast >= 60 then Moderate
    else Low
  }

  /** A higher forecast never falls into a lower band. */
  lemma RiskBandMonotone(lower: int, higher: int)
    requires lower <= higher
    ensures RiskBand(lower) == High ==> RiskBand(higher) == High
    ensures RiskBand(higher) == Low ==> RiskBand(lower) == Low
  {
  }
}
