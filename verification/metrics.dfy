/** The metrics aggregator: from the hospital's latest capacity/attendance
    row and its last five UCI occupied counts, the metrics record the
    dashboard shows. Query results arrive as parameters. */
module Metrics {
  import opened Wrappers
  import opened Capacity
  import opened Forecast

  /** The latest joined capacity/attendance row of the hospital. */
  datatype LatestRow = LatestRow(
    uciOccupied: int,
    uciTotal: int,
    emergencyOccupied: int,
    waiting: int,
    totalPatients: int)

  /** The derived metrics record handed to the pages. */
  datatype MetricsRecord = MetricsRecord(
    occupancy: int,
    waiting: int,
    criticalSupplies: int,
    forecast24h: int,
    weekly: seq<int>,
    areas: seq<int>)

  /** Fixed placeholder occupancies of the two areas that are not tracked. */
  const EmergencyAreaPlaceholder := 65
  const HospitalizationAreaPlaceholder := 58

  /** The "critical supplies" placeholder: 100 minus the occupancy, never
      below 70. */
  function CriticalSupplies(occupancy: int): (s: int)
    ensures s >= 70 && s >= 100 - occupancy
    ensures s == 70 || s == 100 - occupancy
  {
    Max(70, 100 - occupancy)
  }

  /** The supplies figure reaches 80 exactly when occupancy is at most 20. */
  lemma SuppliesHighIffLowOccupancy(occupancy: int)
    ensures CriticalSupplies(occupancy) >= 80 <==> occupancy <= 20
  {
  }

  /** The record shown when the database gives nothing. */
  function DemoMetrics(): (m: MetricsRecord)
    ensures |m.weekly| == SeriesLength && |m.areas| == 3
  {
    MetricsRecord(76, 142, 87, 92, [72, 70, 75, 82, 78], [76, 65, 58])
  }

  /** Builds the metrics record. `latest` is None when there is no latest
      row (no connection, or no data for the hospital). `history` is None
      when the series query fails; otherwise it holds the UCI occupied
      counts of the most recent capacity rows, most recent first, each None
      when NULL. The result is None when there is no latest row, when the
      series query fails, or when a NULL count is divided by a positive
      total (every error of the computation yields None). `weekend` is
      whether today is a Saturday or Sunday; `model` is the hospital's
      loaded model, if any. */
  method ComputeMetrics(latest: Option<LatestRow>, history: Option<seq<Option<int>>>,
                        weekend: bool, model: Option<Model>)
    returns (m: Option<MetricsRecord>)
    ensures m.None? <==>
      latest.None? || history.None? || SeriesFails(history.value, latest.value.uciTotal)
    ensures m.Some? ==>
      var row, h, r := latest.value, history.value, m.value;
      && r.occupancy == UciOccupancy(row.uciOccupied, row.uciTotal)
      && r.waiting == row.waiting
      && r.criticalSupplies == CriticalSupplies(r.occupancy)
      && r.forecast24h == Forecast24h(r.occupancy,
           FeatureVector(row.totalPatients, row.emergencyOccupied, row.uciOccupied,
                         row.uciTotal, weekend), model)
      && r.areas == [r.occupancy, EmergencyAreaPlaceholder, HospitalizationAreaPlaceholder]
      && (|h| <= SeriesLength ==> |r.weekly| == SeriesLength)
      && |r.weekly| >= |h|
      && (forall i :: 0 <= i < |h| && h[i].Some? ==>
            r.weekly[i] == UciOccupancy(h[i].value, row.uciTotal))
      && (forall i :: 0 <= i < |h| && h[i].None? ==> r.weekly[i] == 0)
      && (forall i :: |h| <= i < |r.weekly| ==>
            r.weekly[i] == if h == [] then r.occupancy else r.weekly[|h| - 1])
    ensures m.Some? && 0 <= latest.value.uciOccupied <= latest.value.uciTotal ==>
      var r := m.value;
      && 0 <= r.occupancy <= 100
      && 70 <= r.criticalSupplies <= 100
      && 0 <= r.forecast24h <= 100
    ensures m.Some? && 0 <= latest.value.uciOccupied <= latest.value.uciTotal &&
            (forall i :: 0 <= i < |history.value| && history.value[i].Some? ==>
               0 <= history.value[i].value <= latest.value.uciTotal) ==>
      forall i :: 0 <= i < |m.value.weekly| ==> 0 <= m.value.weekly[i] <= 100
  {
    if latest.None? || history.None? {
      return None;
    }
    var row, h := latest.value, history.value;
    var occupancy := UciOccupancy(row.uciOccupied, row.uciTotal);
    var counts := PadSeries(h, Some(row.uciOccupied));
    assert forall i :: 0 <= i < |h| ==> counts[i] == h[i] by {
      assert counts[..|h|] == h;
    }
    assert SeriesFails(counts, row.uciTotal) <==> SeriesFails(h, row.uciTotal) by {
      if SeriesFails(counts, row.uciTotal) {
        var i :| 0 <= i < |counts| && counts[i].None?;
        if i >= |h| {
          assert h != [];
          assert h[|h| - 1].None?;
        }
      }
      if SeriesFails(h, row.uciTotal) {
        var i :| 0 <= i < |h| && h[i].None?;
        assert counts[i].None?;
      }
    }
    var weekly := PercentSeries(counts, row.uciTotal);
    if weekly.None? {
      return None;
    }
    var features := FeatureVector(row.totalPatients, row.emergencyOccupied, row.uciOccupied,
                                  row.uciTotal, weekend);
    var forecast := Forecast24h(occupancy, features, model);
    if 0 <= occupancy {
      ForecastInRange(occupancy, features, model);
    }
    m := Some(MetricsRecord(occupancy, row.waiting, CriticalSupplies(occupancy), forecast,
                            weekly.value, [occupancy, EmergencyAreaPlaceholder,
                                           HospitalizationAreaPlaceholder]));
  }
}
