/** The dashboard page: the metrics record (or the demo record), the peer
    list and the alert list built from the occupancy and supplies figures. */
module Dashboard {
  import opened Wrappers
  import opened Metrics
  import opened Peers

  /** One alert: message, time label and urgency label. */
  datatype Alert = Alert(message: string, time: string, urgency: string)

  function DigitChar(d: nat): char
    requires d < 10
  {
    ('0' as int + d) as char
  }

  /** The value of a decimal digit character. */
  function DigitValue(c: char): int {
    c as int - '0' as int
  }

  /** Decimal digits of a natural number, as Python formats an int: only
      digit characters, and no leading zero except for 0 itself. */
  function Digits(n: nat): (s: string)
    ensures |s| >= 1
    ensures forall i :: 0 <= i < |s| ==> '0' <= s[i] <= '9'
    ensures s[0] == '0' ==> n == 0
    decreases n
  {
    if n < 10 then [DigitChar(n)] else Digits(n / 10) + [DigitChar(n % 10)]
  }

  /** The number a string of decimal digits denotes, most significant digit
      first. */
  function DecimalValue(s: string): int
    decreases |s|
  {
    if s == [] then 0 else 10 * DecimalValue(s[..|s| - 1]) + DigitValue(s[|s| - 1])
  }

  /** Reading the digits back gives the number: the alert message shows the
      occupancy itself. */
  lemma {:induction false} DigitsRoundTrip(n: nat)
    ensures DecimalValue(Digits(n)) == n
    decreases n
  {
    var s := Digits(n);
    if n < 10 {
      assert s[..|s| - 1] == [];
    } else {
      assert s[..|s| - 1] == Digits(n / 10);
      DigitsRoundTrip(n / 10);
    }
  }

  function IntToString(n: int): string {
    if n < 0 then "-" + Digits(-n) else Digits(n)
  }

  /** Occupancy threshold of the high-occupancy alert. */
  const HighOccupancyThreshold := 80
  /** Supplies threshold of the supplies alert. */
  const SuppliesThreshold := 80

  function HighOccupancyAlert(occupancy: int): Alert {
    Alert("UCI al " + IntToString(occupancy) + "% - ALTA OCUPACION", "Actual", "ALTO")
  }

  const SuppliesAlert := Alert("Insumos criticos bajos", "Hace 1 hora", "MEDIO")

  const NormalAlert := Alert("Sistema operando normalmente", "Actual", "BAJO")

  /** The alert list: the high-occupancy alert when occupancy is at least
      80, then the supplies alert when supplies are at least 80, and the
      single "BAJO" alert when neither applies; never empty. */
  method BuildAlerts(occupancy: int, supplies: int) returns (alerts: seq<Alert>)
    ensures 1 <= |alerts| <= 2
    ensures |alerts| == 2 <==>
      occupancy >= HighOccupancyThreshold && supplies >= SuppliesThreshold
    ensures HighOccupancyAlert(occupancy) in alerts <==> occupancy >= HighOccupancyThreshold
    ensures SuppliesAlert in alerts <==> supplies >= SuppliesThreshold
    ensures NormalAlert in alerts <==>
      occupancy < HighOccupancyThreshold && supplies < SuppliesThreshold
    ensures NormalAlert in alerts ==> alerts == [NormalAlert]
    ensures occupancy >= HighOccupancyThreshold ==> alerts[0] == HighOccupancyAlert(occupancy)
    ensures forall a :: a in alerts ==>
      a == HighOccupancyAlert(occupancy) || a == SuppliesAlert || a == NormalAlert
  {
    assert "ALTO"[0] != "MEDIO"[0] && "ALTO"[0] != "BAJO"[0] && "MEDIO"[0] != "BAJO"[0];
    alerts := [];
    if occupancy >= HighOccupancyThreshold {
      alerts := alerts + [HighOccupancyAlert(occupancy)];
    }
    if supplies >= SuppliesThreshold {
      alerts := alerts + [SuppliesAlert];
    }
    if alerts == [] {
      alerts := alerts + [NormalAlert];
    }
  }

  datatype DashboardView = DashboardView(
    metrics: MetricsRecord,
    alerts: seq<Alert>,
    peers: seq<PeerRecord>)

  /** Assembles the dashboard from the hospital's metrics (None when they
      could not be computed: the demo record is shown) and the
      other-hospitals query. With computed metrics the two alerts cannot
      both fire, so exactly one alert is shown; the demo record shows the
      supplies alert alone. */
  method DashboardPage(metrics: Option<MetricsRecord>, query: Option<seq<PeerRow>>, current: int)
    returns (view: DashboardView)
    ensures view.metrics == if metrics.Some? then metrics.value else DemoMetrics()
    ensures view.peers == PeerBase(query, current)
    ensures 1 <= |view.alerts| <= 2
    ensures HighOccupancyAlert(view.metrics.occupancy) in view.alerts <==>
      view.metrics.occupancy >= HighOccupancyThreshold
    ensures SuppliesAlert in view.alerts <==> view.metrics.criticalSupplies >= SuppliesThreshold
    ensures NormalAlert in view.alerts <==>
      view.metrics.occupancy < HighOccupancyThreshold &&
      view.metrics.criticalSupplies < SuppliesThreshold
    ensures metrics.Some? &&
            metrics.value.criticalSupplies == CriticalSupplies(metrics.value.occupancy) ==>
      |view.alerts| == 1
    ensures metrics.None? ==> view.alerts == [SuppliesAlert]
  {
    var shown := if metrics.Some? then metrics.value else DemoMetrics();
    var peers := PeerList(query, current);
    SuppliesHighIffLowOccupancy(shown.occupancy);
    var alerts := BuildAlerts(shown.occupancy, shown.criticalSupplies);
    view := DashboardView(shown, alerts, peers);
  }
}
