/** The derived values of the predictions page: the hospital's own risk
    level, the peers' risk labels and how many are high, the 48-hour value,
    the trend label, the prediction chart and the comparison chart. */
module Predictions {
  import opened Wrappers
  import opened Forecast
  import opened Metrics
  import opened Peers

  /** Label of the hospital's own risk band. */
  function OwnRiskLabel(b: Band): string {
    match b
    case High => "Crítico"
    case Moderate => "Moderado"
    case Low => "Bajo"
  }

  /** The hospital's own label names its band: "Crítico" exactly from a
      forecast of 80, "Moderado" exactly from 60 to 79, "Bajo" exactly below
      60. */
  lemma OwnRiskLabelOfForecast(p24: int)
    ensures OwnRiskLabel(RiskBand(p24)) == "Crítico" <==> p24 >= 80
    ensures OwnRiskLabel(RiskBand(p24)) == "Moderado" <==> 60 <= p24 < 80
    ensures OwnRiskLabel(RiskBand(p24)) == "Bajo" <==> p24 < 60
  {
    assert "Crítico"[0] != "Moderado"[0] && "Crítico"[0] != "Bajo"[0] && "Moderado"[0] != "Bajo"[0];
  }

  /** Label of a peer's risk band. */
  function PeerRiskLabel(b: Band): string {
    match b
    case High => "Alto"
    case Moderate => "Moderado"
    case Low => "Bajo"
  }

  /** The three peer labels are distinct, so each names exactly one band. */
  lemma PeerRiskLabelOfBand(b: Band)
    ensures PeerRiskLabel(b) == "Alto" <==> b == High
    ensures PeerRiskLabel(b) == "Moderado" <==> b == Moderate
    ensures PeerRiskLabel(b) == "Bajo" <==> b == Low
  {
    assert "Alto"[0] != "Moderado"[0] && "Alto"[0] != "Bajo"[0] && "Moderado"[0] != "Bajo"[0];
  }

  /** The record with its `nivel_riesgo` key added. */
  function WithRiskLevel(p: PeerRecord): PeerRecord
    requires p.forecast24h.Some?
  {
    p.(risk := Some(PeerRiskLabel(RiskBand(p.forecast24h.value))))
  }

  predicate AllForecast(ps: seq<PeerRecord>) {
    forall i :: 0 <= i < |ps| ==> ps[i].forecast24h.Some?
  }

  function WithRisk(ps: seq<PeerRecord>): (r: seq<PeerRecord>)
    requires AllForecast(ps)
    ensures |r| == |ps|
  {
    seq(|ps|, i requires 0 <= i < |ps| => WithRiskLevel(ps[i]))
  }

  /** Adding the risk labels keeps the order and every other field; a
      record is labelled "Alto" exactly when its forecast is at least 80,
      "Moderado" exactly when it is from 60 to 79, and "Bajo" exactly when
      it is below 60. */
  lemma RiskOnlyAddsKey(ps: seq<PeerRecord>, i: int)
    requires AllForecast(ps) && 0 <= i < |ps|
    ensures var r, f := WithRisk(ps)[i], ps[i].forecast24h.value;
      && r.(risk := ps[i].risk) == ps[i]
      && (r.risk == Some("Alto") <==> f >= 80)
      && (r.risk == Some("Moderado") <==> 60 <= f < 80)
      && (r.risk == Some("Bajo") <==> f < 60)
  {
    PeerRiskLabelOfBand(RiskBand(ps[i].forecast24h.value));
  }

  /** Adds the `nivel_riesgo` key to every record of the list, in place. */
  method AddRiskLevels(peers: array<PeerRecord>)
    requires AllForecast(peers[..])
    modifies peers
    ensures AllForecast(old(peers[..]))
    ensures peers[..] == WithRisk(old(peers[..]))
  {
    for i := 0 to peers.Length
      invariant forall j :: 0 <= j < i ==> old(peers[j]).forecast24h.Some? &&
                                           peers[j] == WithRiskLevel(old(peers[j]))
      invariant forall j :: i <= j < peers.Length ==> peers[j] == old(peers[j])
    {
      assert peers[i] == peers[..][i];
      peers[i] := WithRiskLevel(peers[i]);
    }
  }

  /** Number of records labelled "Alto". */
  function HighRiskCount(ps: seq<PeerRecord>): (n: nat)
    ensures n <= |ps|
  {
    if ps == [] then 0
    else (if ps[0].risk == Some("Alto") then 1 else 0) + HighRiskCount(ps[1..])
  }

  /** Number of records whose occupancy is at least `threshold`. */
  function OccupancyAtLeast(ps: seq<PeerRecord>, threshold: int): (n: nat)
    ensures n <= |ps|
  {
    if ps == [] then 0
    else (if ps[0].occupancy >= threshold then 1 else 0) + OccupancyAtLeast(ps[1..], threshold)
  }

  /** The count of high-risk peers is the number of peers whose occupancy is
      at least 77: the least occupancy whose banded projection reaches 80. */
  lemma {:induction false} HighRiskCountByOccupancy(ps: seq<PeerRecord>)
    ensures AllForecast(WithForecasts(ps))
    ensures HighRiskCount(WithRisk(WithForecasts(ps))) == OccupancyAtLeast(ps, 77)
    decreases |ps|
  {
    var f := WithForecasts(ps);
    assert AllForecast(f);
    if ps != [] {
      var r := WithRisk(f);
      assert WithForecasts(ps[1..]) == f[1..];
      assert WithRisk(f[1..]) == r[1..];
      HighRiskCountByOccupancy(ps[1..]);
      PeerBandByOccupancy(ps[0].occupancy);
      PeerRiskLabelOfBand(RiskBand(f[0].forecast24h.value));
    }
  }

  /** The 48-hour value: the 24-hour forecast plus 3, capped at 100. */
  function Forecast48h(p24: int): (p48: int)
    ensures p48 <= 100
    ensures p24 <= 100 ==> p24 <= p48
    ensures p24 + 3 <= 100 ==> p48 == p24 + 3
    ensures p24 + 3 > 100 ==> p48 == 100
  {
    Min(100, p24 + 3)
  }

  /** "aumento" when the forecast is above the current occupancy, else
      "estable". */
  function Trend(p24: int, occupancy: int): (t: string)
    ensures t == "aumento" || t == "estable"
    ensures t == "aumento" <==> p24 > occupancy
  {
    if p24 > occupancy then "aumento" else "estable"
  }

  datatype Summary = Summary(
    modelPrediction: int,
    trend: string,
    highRiskHospitals: nat,
    currentOccupancy: int,
    forecast24h: int,
    forecast48h: int,
    risk: string)

  /** The prediction chart: nine time points, the observed curve on the
      first five and the predicted curve on the last five. */
  datatype Chart = Chart(labels: seq<string>, actual: seq<Option<int>>, predicted: seq<Option<int>>)

  function PredictionChart(occupancy: int, p24: int): (c: Chart)
    ensures |c.labels| == |c.actual| == |c.predicted| == 9
    ensures forall i :: 0 <= i < 9 ==> (c.actual[i].Some? <==> i <= 4)
    ensures forall i :: 0 <= i < 9 ==> (c.predicted[i].Some? <==> 4 <= i)
    ensures c.actual[4] == c.predicted[4]
    ensures c.actual[2] == Some(occupancy)
    ensures c.predicted[6] == Some(p24) && c.predicted[8] == Some(Forecast48h(p24))
  {
    Chart(["0h", "6h", "12h", "18h", "24h", "30h", "36h", "42h", "48h"],
          [Some(Max(0, occupancy - 10)), Some(Max(0, occupancy - 5)), Some(occupancy),
           Some(Min(100, occupancy + 2)), Some(Min(100, occupancy + 5)),
           None, None, None, None],
          [None, None, None, None,
           Some(Min(100, occupancy + 5)), Some(p24 - 2), Some(p24),
           Some(p24 - 1), Some(Forecast48h(p24))])
  }

  /** For an occupancy in [0, 100] the observed curve rises and stays in
      [0, 100]; for a forecast in [0, 100] the predicted curve stays in
      [-2, 100], and in [0, 100] once the forecast is at least 2 (the 30h and
      42h points are not clamped below). */
  lemma ChartBounds(occupancy: int, p24: int, i: int)
    requires 0 <= occupancy <= 100 && 0 <= p24 <= 100 && 0 <= i < 9
    ensures var c := PredictionChart(occupancy, p24);
      && (i < 4 ==> c.actual[i].value <= c.actual[i + 1].value)
      && (i <= 4 ==> 0 <= c.actual[i].value <= 100)
      && (4 <= i ==> -2 <= c.predicted[i].value <= 100)
      && (4 <= i && p24 >= 2 ==> 0 <= c.predicted[i].value <= 100)
  {
  }

  /** The comparison chart: one entry per peer, in list order. */
  datatype Comparison = Comparison(labels: seq<string>, actual: seq<int>, forecast24h: seq<int>)

  function ComparisonOf(ps: seq<PeerRecord>): (c: Comparison)
    requires AllForecast(ps)
    ensures |c.labels| == |c.actual| == |c.forecast24h| == |ps|
    ensures forall i :: 0 <= i < |ps| ==>
      c.labels[i] == ps[i].name && c.actual[i] == ps[i].occupancy &&
      Some(c.forecast24h[i]) == ps[i].forecast24h
  {
    Comparison(seq(|ps|, i requires 0 <= i < |ps| => ps[i].name),
               seq(|ps|, i requires 0 <= i < |ps| => ps[i].occupancy),
               seq(|ps|, i requires 0 <= i < |ps| => ps[i].forecast24h.value))
  }

  datatype PredictionsView = PredictionsView(
    summary: Summary,
    peers: seq<PeerRecord>,
    chart: Chart,
    comparison: Comparison)

  /** Assembles the predictions page from the hospital's metrics (None when
      they could not be computed: the demo record's 76% and 92% are used) and
      the other-hospitals query. */
  method PredictionsPage(metrics: Option<MetricsRecord>, query: Option<seq<PeerRow>>, current: int)
    returns (view: PredictionsView)
    ensures AllForecast(WithForecasts(PeerBase(query, current)))
    ensures view.peers == WithRisk(WithForecasts(PeerBase(query, current)))
    ensures var shown := if metrics.Some? then metrics.value else DemoMetrics();
      var occupancy, p24 := shown.occupancy, shown.forecast24h;
      && view.summary == Summary(p24, Trend(p24, occupancy), HighRiskCount(view.peers), occupancy,
                                 p24, Forecast48h(p24), OwnRiskLabel(RiskBand(p24)))
      && view.chart == PredictionChart(occupancy, p24)
    ensures view.summary.highRiskHospitals == OccupancyAtLeast(PeerBase(query, current), 77)
    ensures view.comparison == ComparisonOf(view.peers)
  {
    var shown := if metrics.Some? then metrics.value else DemoMetrics();
    var occupancy, p24 := shown.occupancy, shown.forecast24h;
    var risk := OwnRiskLabel(RiskBand(p24));
    var list := PeerPredictions(query, current);
    var records := new PeerRecord[|list|](i requires 0 <= i < |list| => list[i]);
    assert records[..] == list;
    AddRiskLevels(records);
    var peers := records[..];
    HighRiskCountByOccupancy(PeerBase(query, current));
    var summary := Summary(p24, Trend(p24, occupancy), HighRiskCount(peers), occupancy,
                           p24, Forecast48h(p24), risk);
    view := PredictionsView(summary, peers, PredictionChart(occupancy, p24), ComparisonOf(peers));
  }
}
