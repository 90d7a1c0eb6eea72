# Hospital saturation dashboard — derived metrics, modelled in Dafny

This project models the derived-metrics layer of the hospital-capacity
dashboard in `app.py`. Authenticated hospital staff see four things:

- the intensive-care (UCI) occupancy of their hospital;
- a five-point trailing occupancy series;
- a 24-hour occupancy forecast, from a pre-trained regression model or from
  a fixed heuristic;
- a comparison with the other hospitals, with their own banded 24-hour
  projection and risk label.

The model treats everything around this arithmetic as plain inputs:

- database query results (`Option` = the query could not run);
- the loaded model (a function from the feature vector to "raised" or a
  number);
- today's weekend flag;
- the submitted form fields.

Modules, one per component of the page logic:

- `Rounding`: Python's `round`, ties to even.
  - `RoundHalfEven` rounds a real (the model's output).
  - `RoundQuotient` rounds an exact quotient of integers (a bed ratio).
  - A lemma proves that the two agree.
- `Capacity`: the UCI occupancy percentage and the padding loop of the
  trailing series.
- `Forecast`: the feature vector, the forecast blending and the 80/60 risk
  bands.
- `Metrics`: the metrics record, its critical-supplies placeholder and the
  demo record.
- `Peers`: the other-hospitals occupancy loop, the fixed example list and its
  filter, the banded peer projection, and the in-place addition of
  `prediccion_24h` to each peer record (an `array` of records updated in
  place).
- `Predictions`: own and peer risk labels, with the in-place addition of
  `nivel_riesgo`. Also the high-risk count, the 48h value, the trend, the
  prediction chart and the comparison chart.
- `Dashboard`: the alert list and the dashboard assembly.
- `Staffing`: the doctor and nurse totals computed when the daily form is
  saved.

Behaviour worth knowing:

- A peer row whose bed total is positive but whose occupied count is NULL
  makes the division raise. The whole other-hospitals result is then
  discarded (the `except` branch returns `[]`), and the pages fall back to
  the example list. This is a second trigger of the fallback besides "zero
  rows".
- A bed total that is negative also gives 0% (the guard is `total > 0`, not
  `total == 0`).
- A non-finite model output makes `round` raise. The `except` branch then
  gives occupancy + 5, so the model treats it as a raised call.
- The series is fetched most recent first and padded with the last fetched
  entry, which is the oldest one.
- Every fetched count of the series is divided by today's bed total, so an
  older count above today's total reads above 100% once the total falls.
- The dashboard's demo record (76%, supplies 87, forecast 92) does not follow
  the formulas: the supplies figure would be 70. With it, the dashboard shows
  the supplies alert alone (`Dashboard.DashboardPage`). The predictions page
  uses only its 76 and 92, which the two demo records share. So one
  `DemoMetrics` serves both pages.

## Model

| member | source | states |
|---|---|---|
| Rounding.RoundHalfEven | app.py:120 | `round` of a finite number: within one half of it, and even on an exact tie |
| Rounding.RoundHalfEvenUnique | app.py:120 | those two properties determine the rounded value |
| Rounding.RoundWithin | app.py:120 | rounding never leaves an integer interval that contains the number |
| Rounding.RoundOfInteger | app.py:120 | an integer rounds to itself |
| Rounding.RoundQuotient | app.py:86 | `round(num/den)` of the exact quotient: scaled distance at most one half, even on a tie |
| Rounding.RoundQuotientWithin | app.py:86 | a rounded quotient stays in any integer interval containing the quotient |
| Rounding.RoundQuotientMonotone | app.py:86 | a larger numerator never rounds lower |
| Rounding.RoundQuotientExact | app.py:86 | an exact multiple rounds to its quotient |
| Rounding.RoundQuotientIsRound | app.py:86 | the integer rounding equals `round` of the quotient taken as a real |
| Capacity.UciOccupancy | app.py:86 | 0 when the total is not positive (no division); otherwise the nearest integer to 100·occupied/total; in [0,100] whenever 0 ≤ occupied ≤ total |
| Capacity.UciOccupancyIsRound | app.py:86 | the percentage equals `round(occupied/total*100)` on exact reals |
| Capacity.OccupancyMonotone | app.py:86 | more occupied beds never give a lower percentage |
| Capacity.OccupancyLandmarks | app.py:86 | full is 100%, empty is 0%, 80 of 100 beds is 80% |
| Capacity.PadSeries | app.py:98-100 | exactly 5 entries when at most 5 were fetched; the fetched rows (NULL or not) are an unchanged prefix; each padding entry is the last fetched value, or the current occupied count when nothing was fetched |
| Capacity.PercentSeries | app.py:102 | raises (None) exactly when the total is positive and some count is NULL; otherwise one percentage per count against the current total, a NULL count reading 0 when the total is not positive; all in [0,100] when every count is within [0, total] |
| Forecast.FeatureVector | app.py:109-117 | the model receives seven features |
| Forecast.Forecast24h | app.py:104-127 | with a model, Python's `round` of the model value clamped to [0,100] (0 below, 100 above, the half-to-even rounding inside); min(100, occ+5) when the call raises; min(100, occ+8) with no model; never above 100 |
| Forecast.ForecastInRange | app.py:104-127 | for a non-negative occupancy the forecast lies in [0,100] whatever the model does |
| Forecast.HeuristicNeverFalls | app.py:123-127 | both heuristic fallbacks give at least the occupancy when it is at most 100 |
| Forecast.ModelValueKept | app.py:119-120 | a model value that is already an integer percentage is passed through |
| Forecast.NoModelExample | app.py:127 | 80% occupancy with no model forecasts 88% |
| Forecast.RiskBand | app.py:383-388 | high exactly from 80, moderate exactly from 60 below 80, low exactly below 60 |
| Forecast.RiskBandMonotone | app.py:394-399 | a higher forecast never falls into a lower band |
| Metrics.CriticalSupplies | app.py:132 | at least 70 and at least 100 − occupancy, and equal to one of them |
| Metrics.SuppliesHighIffLowOccupancy | app.py:132 | the supplies figure reaches 80 exactly when occupancy is at most 20 |
| Metrics.DemoMetrics | app.py:324-331 | the demo record has a five-point series and three areas |
| Metrics.ComputeMetrics | app.py:78-143 | None exactly when there is no latest row, the series query fails, or a NULL series count meets a positive total; otherwise each field is defined from the row; the series has 5 entries, one percentage per fetched count first, then copies of the last one (or the occupancy when none was fetched); `ocupacion_areas = [occ, 65, 58]`; with 0 ≤ occupied ≤ total, occupancy and forecast are in [0,100] and supplies in [70,100]; the series is in [0,100] when moreover every fetched count is within [0, total] |
| Peers.RowRecord | app.py:183-197 | a peer record keeps id, name and the snapshot (occupied, total, date); occupancy is `round(100·occupied/total)` when the total is positive, else 0; in [0,100] for a consistent row; no forecast or risk yet |
| Peers.OtherHospitalsOccupancy | app.py:152-204 | [] when the query cannot run or some row raises; otherwise one record per row, in row order |
| Peers.ExampleHospitals | app.py:218-224 | five example hospitals with ids 1 to 5 in order |
| Peers.WithoutHospital | app.py:225 | keeps exactly the records whose id differs from the current one, and no more than there were |
| Peers.WithoutHospitalKeepsOrder | app.py:225 | the filter keeps the survivors in their order |
| Peers.WithoutAbsentHospital | app.py:225 | a list without the id is unchanged |
| Peers.WithoutHospitalAppend | app.py:225 | filtering a concatenation filters each part |
| Peers.WithoutLastHospital | app.py:225 | dropping the id held only by the last record removes just that record |
| Peers.FallbackPeers | app.py:216-225 | exactly the example hospitals whose id is not the current one, in id order |
| Peers.FallbackForLastExample | app.py:339-347 | current id 5 leaves the examples with ids 1–4 |
| Peers.FallbackForUnlistedHospital | app.py:339-347 | an id that is not on the list leaves all five examples |
| Peers.RowRecords | app.py:182-197 | one record per row |
| Peers.PeerList | app.py:337-347 | the database records, else the fallback list; the list never has the current id when the fallback is used or when the rows exclude it |
| Peers.PeerForecast | app.py:227-237 | at most 100; below the cap, occupancy plus the band offset (+5 from 80, +3 from 60, else +2); between occ and occ+5 when occ ≤ 100 |
| Peers.PeerForecastExamples | app.py:227-237 | 85% projects to 90% (high), 45% to 47% (low) |
| Peers.PeerBandByOccupancy | app.py:227-237 | a peer's projection is high exactly for occupancy ≥ 77, moderate exactly for 58–76 |
| Peers.WithForecasts | app.py:227-237 | one output record per input record |
| Peers.ForecastsOnlyAddKey | app.py:227-237 | each record only gains `prediccion_24h`, equal to the banded projection of its occupancy (≤ 100, ≥ occupancy when that is ≤ 100); order and other fields unchanged |
| Peers.AddForecasts | app.py:227-237 | the array afterwards holds the original records with their forecasts added |
| Peers.PeerPredictions | app.py:213-239 | the peer list with forecasts added, each forecast at most 100 |
| Predictions.OwnRiskLabelOfForecast | app.py:383-388 | the own label is "Crítico" exactly from a forecast of 80, "Moderado" exactly from 60 to 79, "Bajo" exactly below 60 |
| Predictions.PeerRiskLabelOfBand | app.py:394-399 | a peer is labelled "Alto" exactly in the high band, "Moderado" exactly in the moderate band, "Bajo" exactly in the low band |
| Predictions.WithRisk | app.py:393-399 | one output record per input record |
| Predictions.RiskOnlyAddsKey | app.py:393-399 | each record only gains `nivel_riesgo`: "Alto" exactly when its forecast is at least 80, "Moderado" exactly from 60 to 79, "Bajo" exactly below 60 |
| Predictions.AddRiskLevels | app.py:393-399 | the array afterwards holds the original records with their risk labels added |
| Predictions.HighRiskCount | app.py:404 | the number of "Alto" peers is at most the number of peers |
| Predictions.OccupancyAtLeast | app.py:404 | a count of peers is at most the number of peers |
| Predictions.HighRiskCountByOccupancy | app.py:404 | `hospitales_riesgo` equals the number of peers whose occupancy is at least 77 |
| Predictions.Forecast48h | app.py:407 | the 24h value + 3 when that is at most 100, else 100; so never above 100 and never below a 24h value of at most 100 |
| Predictions.Trend | app.py:403 | "aumento" exactly when the 24h forecast exceeds the occupancy, otherwise "estable" |
| Predictions.PredictionChart | app.py:411-429 | nine points; observed curve on the first five, predicted on the last five, meeting at 24h; 12h is the occupancy, 36h the forecast, 48h the 48h value |
| Predictions.ChartBounds | app.py:413-428 | the observed curve rises and stays in [0,100]; the predicted curve stays in [-2,100], and in [0,100] from a forecast of 2 |
| Predictions.ComparisonOf | app.py:432-440 | one entry per peer, in order: name, occupancy, forecast |
| Predictions.PredictionsPage | app.py:369-440 | demo 76/92 when there are no metrics; own risk label from the 24h forecast; peers carry forecasts and risk labels; the high-risk count equals the peers with occupancy ≥ 77 |
| Dashboard.Digits | app.py:352 | the decimal text of a natural number: digit characters only, no leading zero except for 0 |
| Dashboard.DigitsRoundTrip | app.py:352 | reading the digits back gives the number, so the alert shows the occupancy itself |
| Dashboard.BuildAlerts | app.py:350-357 | never empty; the high-occupancy alert exactly when occ ≥ 80, and first; the supplies alert exactly when supplies ≥ 80; the single "BAJO" alert exactly when neither applies |
| Dashboard.DashboardPage | app.py:316-357 | the demo record when there are no metrics; the shared peer list; the alert rules above; exactly one alert with computed metrics; the supplies alert alone with the demo record |
| Staffing.Total | app.py:530-531 | the sum exists exactly when every conversion succeeds; for non-negative counts it is at least each count, and 0 exactly when all are 0 |
| Staffing.StaffTotalsOf | app.py:488-531 | totals exist exactly when the three departments without a default hold numbers and surgery/gynecology are numbers or missing; doctors and nurses are each the five-term sum, a missing count taken as 0 |
| Staffing.TotalOfFive | app.py:530 | the total of five converted counts is their five-term sum |

## Left out

- Flask routing, the session, `login_required`, login and logout, `flash`
  messages and template rendering: framework glue with no derived values.
- Firebird connections and SQL text: query results are parameters. The
  other-hospitals query's `WHERE ID_HOSPITAL != ?` is not modelled. It
  appears as the hypothesis "the rows exclude the current id" in
  `Peers.PeerList`.
- `pickle` loading and `modelo.predict` are foreign calls. A missing or
  unloadable model is `None`. A model is a function from the feature
  vector to "raised" or a number.
- Floating point: ratios are rounded as exact rationals and the model's
  output as an exact real. Float error near a .5 tie is not modelled.
- `datetime.now()` and `strptime` weekday detection: the weekend flag is a
  parameter, and the date-derived columns saved with the form are left out.
- NULL columns in the hospital's own latest row: they are plain integers
  here. A NULL UCI total, or a NULL occupied count with a positive total,
  makes the metrics computation raise and the page show the demo record. A
  NULL waiting count would be passed through unchanged. NULL emergency or
  total-patient counts only reach the model call, whose failure gives
  occupancy + 5. NULL counts of the series query are modelled.
- The four inserts of `guardar_datos`, their missing transaction and the
  partial writes: I/O. Only the staff totals are modelled. A form field is
  missing, a number, or text that `int` rejects.
- Logging `print` calls.
- `static/script.js` (fixed chart configuration and demo data) and
  `ml/entrenar_hospital_5.py` (offline training) are not part of this
  model.
